/** Mutex queues over whole runs: first come, first served. */
module MutexRuns {
  import opened Rings
  import opened Scheduling
  import opened Agreement
  import opened Steps
  import opened Runs
  import opened Boot
  import opened Switching

  predicate WaitsOn(s: Sched, m: nat, k: nat, t: nat) {
    k < |s.Q(Waiting(m))| && s.Q(Waiting(m))[k] == Thread(t)
  }

  /** Waiters are only ever queued on a locked, initialised mutex, and are blocked. */
  lemma WaitersImplyLocked(s: Sched, m: nat, k: nat, t: nat)
    requires Inv(s) && m < NR_MUTEX && WaitsOn(s, m, k, t)
    ensures BlockedOn(s, m, t)
  {
    assert MutexAgrees(s, m);
    assert s.rings.home[s.rings.seqs[Waiting(m)][k]] == Waiting(m);
    assert ThreadAgrees(s, t);
  }

  /** Unlocking hands the mutex to the first waiter, who becomes the last ready thread;
      the mutex stays locked exactly when someone else still waits. */
  lemma UnlockHandsOver(s: Sched, m: nat)
    requires Inv(s) && m < NR_MUTEX && UnlockGuard(s, m) && s.Q(Waiting(m)) != []
    ensures var s' := MutexUnlock(s, m).0;
            && s'.Q(Waiting(m)) == s.Q(Waiting(m))[1..]
            && s'.Q(Ready(s.Proc())) == s.Q(Ready(s.Proc())) + [s.Q(Waiting(m))[0]]
            && (forall n: nat | n != m :: s'.Q(Waiting(n)) == s.Q(Waiting(n)))
            && (s'.mutexes[m].locked <==> |s.Q(Waiting(m))| >= 2)
  {
    assert MutexAgrees(s, m);
    assert ThreadAgrees(s, FirstThread(s, Waiting(m)));
    UnlockRings(s, m);
    MovedGrows(s, MutexUnlock(s, m).0, Waiting(m), s.Proc());
  }

  /** Nothing but an unlock of the mutex itself takes anyone out of its queue. */
  lemma WaitersStay(s: Sched, step: Step, m: nat)
    requires Inv(s) && Guard(s, step) && m < NR_MUTEX && s.Q(Waiting(m)) != []
    requires step != DoMutexUnlock(m)
    ensures s.Q(Waiting(m)) <= Apply(s, step).Q(Waiting(m))
  {
    assert MutexAgrees(s, m);
    match step
    case TimerTick => TickKeepsWaiters(s);
    case DoYield => YieldSwitches(s);
    case DoCreate(ok) => CreateKeepsWaiters(s, ok);
    case DoJoin(id) => JoinSwitches(s, id);
    case DoPthreadExit => PthreadExitSwitches(s);
    case DoMutexInit(n) =>
    case DoMutexLock(n) =>
      if ValidMutex(n) && s.mutexes[n].locked {
        LockSwitches(s, n);
      }
    case DoMutexUnlock(n) => UnlockKeepsOthers(s, n, m);
    case DoMutexDestroy(n) =>
    case DoFork(frames) => ForkKeepsWaiters(s, frames);
    case DoExit => ExitSwitchesProcess(s);
  }

  lemma TickKeepsWaiters(s: Sched)
    requires Inv(s)
    ensures WaitersKept(s, Tick(s))
  {
    if NeedsSched(Decremented(s)) == 1 {
      TickSwitchesProcess(s);
    } else if NeedsSched(Decremented(s)) == 2 {
      TickSwitchesThread(s);
    }
  }

  lemma CreateKeepsWaiters(s: Sched, ok: bool)
    requires Inv(s)
    ensures WaitersKept(s, Create(s, ok).0)
  {
    if ok && s.Q(FreeThreads) != [] {
      HeadOfFreeThreads(s);
      DeleteAppendMoves(s.rings, FreeThreads, Ready(s.Proc()));
      MovedGrows(s, Create(s, ok).0, FreeThreads, s.Proc());
    }
  }

  lemma UnlockKeepsOthers(s: Sched, n: int, m: nat)
    requires Inv(s) && UnlockGuard(s, n) && n != m
    ensures s.Q(Waiting(m)) <= MutexUnlock(s, n).0.Q(Waiting(m))
  {
    if ValidMutex(n) && s.mutexes[n].locked {
      assert MutexAgrees(s, n);
      UnlockHandsOver(s, n);
    }
  }

  // ------------------------------------------------------------------ over runs

  /** How many of the first `i` steps unlock mutex `m`. */
  function Unlocks(steps: seq<Step>, m: nat, i: nat): nat
    requires i <= |steps|
  {
    if i == 0 then 0 else Unlocks(steps, m, i - 1) + (if steps[i - 1] == DoMutexUnlock(m) then 1 else 0)
  }

  /** The step takes `t` off the queue of mutex `m` and makes it the last ready thread. */
  predicate HandsOver(s: Sched, step: Step, s': Sched, m: nat, t: nat)
    requires s.Sized()
  {
    step == DoMutexUnlock(m) && WaitsOn(s, m, 0, t) && s'.Q(Ready(s.Proc())) == s.Q(Ready(s.Proc())) + [Thread(t)]
  }

  /** One step, for the waiter at index k: handed the mutex, one forward, or where it was. */
  lemma WaiterStep(s: Sched, step: Step, m: nat, k: nat, t: nat)
    requires Inv(s) && Guard(s, step) && m < NR_MUTEX && WaitsOn(s, m, k, t)
    ensures var s' := Apply(s, step);
            && Inv(s')
            && (step == DoMutexUnlock(m) && k == 0 ==> s'.Q(Ready(s.Proc())) == s.Q(Ready(s.Proc())) + [Thread(t)])
            && (step == DoMutexUnlock(m) && k > 0 ==> WaitsOn(s', m, k - 1, t) && !WaitsOn(s, m, 0, t))
            && (step != DoMutexUnlock(m) ==> WaitsOn(s', m, k, t))
  {
    ApplyInv(s, step);
    if step == DoMutexUnlock(m) {
      UnlockHandsOver(s, m);
      if k > 0 {
        DistinctWaiters(s, m, k, t);
      }
    } else {
      WaitersStay(s, step, m);
    }
  }

  lemma DistinctWaiters(s: Sched, m: nat, k: nat, t: nat)
    requires Inv(s) && WaitsOn(s, m, k, t) && k > 0
    ensures !WaitsOn(s, m, 0, t)
  {
    assert NoDup(s.rings.seqs[Waiting(m)]);
  }

  /** What a step can do to a waiter: an unlock hands it the mutex or moves it forward by
      one, and everything else leaves it where it is. */
  ghost predicate Advances(s: Sched, step: Step, s': Sched, m: nat, t: nat) {
    && s.Sized()
    && forall k: nat | WaitsOn(s, m, k, t) ::
         && (HandsOver(s, step, s', m, t) <==> step == DoMutexUnlock(m) && k == 0)
         && (step == DoMutexUnlock(m) && k > 0 ==> WaitsOn(s', m, k - 1, t))
         && (step != DoMutexUnlock(m) ==> WaitsOn(s', m, k, t))
  }

  lemma StepAdvances(s: Sched, step: Step, s': Sched, m: nat, t: nat)
    requires IsStep(s, step, s') && m < NR_MUTEX
    ensures Advances(s, step, s', m, t)
  {
    forall k: nat | WaitsOn(s, m, k, t)
      ensures HandsOver(s, step, s', m, t) <==> step == DoMutexUnlock(m) && k == 0
      ensures step == DoMutexUnlock(m) && k > 0 ==> WaitsOn(s', m, k - 1, t)
      ensures step != DoMutexUnlock(m) ==> WaitsOn(s', m, k, t)
    {
      WaiterStep(s, step, m, k, t);
    }
  }

  ghost predicate AllAdvance(ks: seq<Sched>, steps: seq<Step>, m: nat, t: nat) {
    |ks| == |steps| + 1 && forall i | 0 <= i < |steps| :: Advances(ks[i], steps[i], ks[i + 1], m, t)
  }

  lemma TraceAdvances(ks: seq<Sched>, steps: seq<Step>, m: nat, t: nat)
    requires Trace(ks, steps) && m < NR_MUTEX
    ensures AllAdvance(ks, steps, m, t)
  {
    forall i | 0 <= i < |steps|
      ensures Advances(ks[i], steps[i], ks[i + 1], m, t)
    {
      StepAdvances(ks[i], steps[i], ks[i + 1], m, t);
    }
  }

  /** The waiter at index k moves forward with each unlock, whatever else happens. */
  lemma {:induction false} WaiterMovesForward(ks: seq<Sched>, steps: seq<Step>, m: nat, k: nat, t: nat, i: nat)
    requires AllAdvance(ks, steps, m, t) && WaitsOn(ks[0], m, k, t)
    requires i <= |steps| && Unlocks(steps, m, i) <= k
    ensures WaitsOn(ks[i], m, k - Unlocks(steps, m, i), t)
  {
    if i > 0 {
      WaiterMovesForward(ks, steps, m, k, t, i - 1);
      assert Advances(ks[i - 1], steps[i - 1], ks[i], m, t);
    }
  }

  /** And is handed the mutex by exactly the (k+1)-th unlock: by step i when k unlocks came
      before it and it is one, and by none before. */
  lemma FirstComeFirstServed(ks: seq<Sched>, steps: seq<Step>, m: nat, k: nat, t: nat, i: nat)
    requires Trace(ks, steps) && m < NR_MUTEX && WaitsOn(ks[0], m, k, t)
    requires i < |steps| && Unlocks(steps, m, i) <= k
    ensures AllAdvance(ks, steps, m, t) && ks[i].Sized()
    ensures HandsOver(ks[i], steps[i], ks[i + 1], m, t) <==> steps[i] == DoMutexUnlock(m) && Unlocks(steps, m, i) == k
  {
    TraceAdvances(ks, steps, m, t);
    HandedInTurn(ks, steps, m, k, t, i);
  }

  /** Thread `t` does not run: it is BLOCKED, and the mutex locked and initialised. */
  predicate BlockedOn(s: Sched, m: nat, t: nat) {
    && s.Sized() && m < NR_MUTEX && t < THREAD_STRUCTS
    && s.mutexes[m].locked && s.mutexes[m].owner > 0
    && s.threads[t].state == Blocked && t != s.current
  }

  lemma BlockedTillThen(ks: seq<Sched>, steps: seq<Step>, m: nat, k: nat, t: nat, i: nat)
    requires AllAdvance(ks, steps, m, t) && m < NR_MUTEX && WaitsOn(ks[0], m, k, t)
    requires i < |steps| && Unlocks(steps, m, i) <= k && Inv(ks[i])
    ensures BlockedOn(ks[i], m, t)
  {
    var k' := StillWaits(ks, steps, m, k, t, i);
    WaitersImplyLocked(ks[i], m, k', t);
  }

  lemma StillWaits(ks: seq<Sched>, steps: seq<Step>, m: nat, k: nat, t: nat, i: nat) returns (k': nat)
    requires AllAdvance(ks, steps, m, t) && WaitsOn(ks[0], m, k, t)
    requires i < |steps| && Unlocks(steps, m, i) <= k
    ensures WaitsOn(ks[i], m, k', t)
  {
    WaiterMovesForward(ks, steps, m, k, t, i);
    k' := k - Unlocks(steps, m, i);
  }

  /** From boot: whoever waits at position k after some steps is handed the mutex by the
      (k+1)-th unlock of the steps to come, and is BLOCKED on it, locked, until then. */
  lemma ServedFromBoot(s: Sched, before: seq<Step>, after: seq<Step>, m: nat, k: nat, t: nat, i: nat) returns (ks: seq<Sched>)
    requires Booted(s) && Inv(s) && Legal(s, before) && Legal(Exec(s, before), after)
    requires m < NR_MUTEX && WaitsOn(Exec(s, before), m, k, t)
    requires i < |after| && Unlocks(after, m, i) <= k
    ensures Trace(ks, after) && ks[0] == Exec(s, before) && ks[|after|] == Exec(ks[0], after)
    ensures BlockedOn(ks[i], m, t)
    ensures HandsOver(ks[i], after[i], ks[i + 1], m, t) <==> after[i] == DoMutexUnlock(m) && Unlocks(after, m, i) == k
  {
    ks := LegalTrace(Exec(s, before), after);
    FirstComeFirstServed(ks, after, m, k, t, i);
    StepStarts(ks, after, i);
    BlockedTillThen(ks, after, m, k, t, i);
  }

  lemma StepStarts(ks: seq<Sched>, steps: seq<Step>, i: nat)
    requires Trace(ks, steps) && i < |steps|
    ensures Inv(ks[i])
  {
    assert IsStep(ks[i], steps[i], ks[i + 1]);
  }

  lemma HandedInTurn(ks: seq<Sched>, steps: seq<Step>, m: nat, k: nat, t: nat, i: nat)
    requires AllAdvance(ks, steps, m, t) && WaitsOn(ks[0], m, k, t)
    requires i < |steps| && Unlocks(steps, m, i) <= k
    ensures ks[i].Sized()
    ensures HandsOver(ks[i], steps[i], ks[i + 1], m, t) <==> steps[i] == DoMutexUnlock(m) && Unlocks(steps, m, i) == k
  {
    WaiterMovesForward(ks, steps, m, k, t, i);
    assert Advances(ks[i], steps[i], ks[i + 1], m, t);
  }
}
