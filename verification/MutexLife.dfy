/** A mutex from init to destroy: who may do what to it, and what a lock is good for. */
module MutexLife {
  import opened Rings
  import opened Scheduling
  import opened Agreement
  import opened Steps
  import opened Runs
  import opened Effects
  import opened MutexRuns

  /** A mutex that has been initialised cannot be again, */
  lemma InitOnce(s: Sched, n: int)
    requires Inv(s) && MutexInit(s, n).1 == 0
    ensures Inv(MutexInit(s, n).0) && MutexInit(MutexInit(s, n).0, n).1 == -EBUSY
  {
    MutexInitInv(s, n);
    InitEffect(s, n);
    InitEffect(MutexInit(s, n).0, n);
  }

  /** the thread that has done it can destroy it, and that leaves all queues, all structs and
      all other mutexes as they were, */
  lemma InitThenDestroy(s: Sched, n: int)
    requires Inv(s) && MutexInit(s, n).1 == 0
    ensures var s1 := MutexInit(s, n).0;
            && Inv(s1) && DestroyGuard(s1, n) && MutexDestroy(s1, n).1 == 0
            && var s2 := MutexDestroy(s1, n).0;
               && (forall h :: s2.Q(h) == s.Q(h))
               && s2.Sized() && !s2.mutexes[n].locked && s2.mutexes[n].owner == 0
               && (forall m: nat | m < NR_MUTEX && m != n :: s2.mutexes[m] == s.mutexes[m])
               && s2 == s.(rings := s2.rings, mutexes := s2.mutexes)
  {
    MutexInitInv(s, n);
    InitEffect(s, n);
    DestroyEffect(MutexInit(s, n).0, n);
  }

  /** no thread with another TID can, as long as the owner stays, */
  lemma OnlyOwnerDestroys(s: Sched, s': Sched, n: int)
    requires Inv(s) && MutexInit(s, n).1 == 0 && Inv(s') && DestroyGuard(s', n) && ValidMutex(n)
    requires MutexInit(s, n).0.Sized() && s'.mutexes[n].owner == MutexInit(s, n).0.mutexes[n].owner
    ensures MutexDestroy(s', n).1 == if s'.threads[s'.current].tid == s.threads[s.current].tid then 0 else -EPERM
  {
    InitEffect(s, n);
    DestroyEffect(s', n);
  }

  /** and one that has been destroyed can be initialised again. */
  lemma DestroyThenInit(s: Sched, n: int)
    requires Inv(s) && DestroyGuard(s, n) && MutexDestroy(s, n).1 == 0
    ensures Inv(MutexDestroy(s, n).0) && MutexInit(MutexDestroy(s, n).0, n).1 == 0
  {
    MutexDestroyInv(s, n);
    DestroyEffect(s, n);
    InitEffect(MutexDestroy(s, n).0, n);
  }

  /** Whoever locks it first has it: from then on every lock by another thread blocks. */
  lemma LockThenLock(s: Sched, s': Sched, n: nat)
    requires Inv(s) && LockGuard(s, n) && n < NR_MUTEX && !s.mutexes[n].locked
    requires Inv(s') && LockGuard(s', n) && MutexLock(s, n).0.Sized() && s'.mutexes[n] == MutexLock(s, n).0.mutexes[n]
    ensures Replaced(s', MutexLock(s', n).0, Waiting(n), Blocked) && MutexLock(s', n).0.current != s'.current
  {
    LockFreeEffect(s, n);
    LockBlocksEffect(s', n);
  }

  /** A lock that nobody has waited for cannot be undone: unlock would take a first waiter
      that is not there. */
  lemma LoneLockStays(s: Sched, n: nat)
    requires Inv(s) && LockGuard(s, n) && n < NR_MUTEX && !s.mutexes[n].locked
    ensures MutexLock(s, n).0.Sized() && !UnlockGuard(MutexLock(s, n).0, n)
  {
    LockFreeEffect(s, n);
    assert MutexAgrees(s, n);
  }

  // ------------------------------------------------------------------ a locker is served

  lemma TraceTail(ks: seq<Sched>, steps: seq<Step>) returns (rest: seq<Sched>, later: seq<Step>)
    requires Trace(ks, steps) && steps != []
    ensures rest == ks[1..] && later == steps[1..] && Trace(rest, later) && IsStep(ks[0], steps[0], ks[1])
  {
    rest, later := ks[1..], steps[1..];
    assert IsStep(ks[0], steps[0], ks[1]);
    ApplyInv(ks[0], steps[0]);
    forall i | 0 <= i < |later|
      ensures IsStep(rest[i], later[i], rest[i + 1])
    {
      assert IsStep(ks[i + 1], steps[i + 1], ks[i + 2]);
    }
  }

  /** A thread that locks a locked mutex for which k others wait is the one that is handed it
      by the (k+1)-th unlock from then on, and by no other step until then; so long it is
      BLOCKED. Step `i` is counted from the lock on. */
  lemma LockerIsServed(ks: seq<Sched>, steps: seq<Step>, m: nat, i: nat) returns (rest: seq<Sched>, later: seq<Step>)
    requires Trace(ks, steps) && steps != [] && steps[0] == DoMutexLock(m)
    requires m < NR_MUTEX && ks[0].Sized() && ks[0].mutexes[m].locked
    requires i < |steps| - 1 && Unlocks(steps[1..], m, i) <= |ks[0].Q(Waiting(m))|
    ensures rest == ks[1..] && later == steps[1..] && BlockedOn(rest[i], m, ks[0].current)
    ensures HandsOver(rest[i], later[i], rest[i + 1], m, ks[0].current) <==>
              later[i] == DoMutexUnlock(m) && Unlocks(later, m, i) == |ks[0].Q(Waiting(m))|
  {
    rest, later := TraceTail(ks, steps);
    var k := LockQueues(ks[0], ks[1], m);
    FirstComeFirstServed(rest, later, m, k, ks[0].current, i);
    StepStarts(rest, later, i);
    BlockedTillThen(rest, later, m, k, ks[0].current, i);
  }

  lemma LockQueues(s: Sched, s': Sched, m: nat) returns (k: nat)
    requires IsStep(s, DoMutexLock(m), s') && m < NR_MUTEX && s.mutexes[m].locked
    ensures k == |s.Q(Waiting(m))| && WaitsOn(s', m, k, s.current)
  {
    LockBlocksEffect(s, m);
    k := |s.Q(Waiting(m))|;
  }
}
