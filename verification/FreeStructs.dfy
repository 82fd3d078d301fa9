/** How many thread structs and PIDs a run uses up. */
module FreeStructs {
  import opened Options
  import opened Rings
  import opened Scheduling
  import opened Agreement
  import opened Steps
  import opened Runs
  import opened Boot
  import opened Identities
  import opened Effects

  // ------------------------------------------------------------------ thread structs

  /** A call that takes a thread struct if there is one. */
  predicate Asks(step: Step) {
    step == DoCreate(true) || step.DoFork?
  }

  /** How many of the first `n` steps are such calls. */
  function Asked(steps: seq<Step>, n: nat): nat
    requires n <= |steps|
  {
    if n == 0 then 0 else Asked(steps, n - 1) + (if Asks(steps[n - 1]) then 1 else 0)
  }

  predicate Exits(step: Step) {
    step.DoExit? || step.DoPthreadExit?
  }

  /** As many task structs as thread structs, at least, are free. */
  predicate TasksLeft(s: Sched) {
    |s.Q(FreeTasks)| >= |s.Q(FreeThreads)|
  }

  /** What a step without exit does to the number of free threads. */
  predicate TakesOne(s: Sched, step: Step, s': Sched) {
    |s'.Q(FreeThreads)| == if Asks(step) && s.Q(FreeThreads) != [] then |s.Q(FreeThreads)| - 1 else |s.Q(FreeThreads)|
  }

  lemma StepTakes(s: Sched, step: Step, s': Sched)
    requires IsStep(s, step, s') && !Exits(step) && TasksLeft(s)
    ensures TakesOne(s, step, s') && TasksLeft(s')
  {
    if step.DoFork? {
      ForkTakes(s, step.frames);
    } else if step.DoCreate? {
      CreateTakes(s, step.accessOk);
    } else {
      OthersTakeNone(s, step);
    }
  }

  lemma CreateTakes(s: Sched, ok: bool)
    requires Inv(s) && TasksLeft(s)
    ensures TakesOne(s, DoCreate(ok), Create(s, ok).0) && TasksLeft(Create(s, ok).0)
  {
    CreateAnswers(s, ok);
    if ok && s.Q(FreeThreads) != [] {
      CreateTakesHead(s);
    }
  }

  lemma CreateTakesHead(s: Sched)
    requires Inv(s) && s.Q(FreeThreads) != []
    ensures var s' := Create(s, true).0; s'.Q(FreeThreads) == s.Q(FreeThreads)[1..] && s'.Q(FreeTasks) == s.Q(FreeTasks)
  {
    CreatedQueues(s);
  }

  lemma ForkTakes(s: Sched, frames: bool)
    requires Inv(s) && TasksLeft(s)
    ensures TakesOne(s, DoFork(frames), Fork(s, frames).0) && TasksLeft(Fork(s, frames).0)
  {
    if s.Q(FreeThreads) != [] {
      if frames {
        var c, t := ForkEffect(s);
      } else {
        ForkCases(s, false);
      }
    }
  }

  /** The free queues are as they were. */
  predicate FreeKept(s: Sched, s': Sched) {
    s'.Q(FreeThreads) == s.Q(FreeThreads) && s'.Q(FreeTasks) == s.Q(FreeTasks)
  }

  lemma OthersTakeNone(s: Sched, step: Step)
    requires Inv(s) && Guard(s, step) && !Exits(step) && !step.DoFork? && !step.DoCreate?
    ensures FreeKept(s, Apply(s, step))
  {
    match step
    case TimerTick => TickTakesNone(s);
    case DoYield =>
      YieldEffect(s);
      ReplacedKeepsFree(s, Yield(s), Ready(s.Proc()), Runnable);
    case DoJoin(id) => JoinTakesNone(s, id);
    case DoMutexInit(m) => InitEffect(s, m);
    case DoMutexLock(m) => LockTakesNone(s, m);
    case DoMutexUnlock(m) => UnlockTakesNone(s, m);
    case DoMutexDestroy(m) => DestroyEffect(s, m);
  }

  lemma ReplacedKeepsFree(s: Sched, s': Sched, q: Queue, mark: RunState)
    requires Replaced(s, s', q, mark) && q != FreeThreads && q != FreeTasks
    ensures FreeKept(s, s')
  {
  }

  lemma JoinTakesNone(s: Sched, id: int)
    requires Inv(s) && JoinGuard(s)
    ensures FreeKept(s, Join(s, id).0)
  {
    JoinEffect(s, id);
    ReplacedKeepsFree(SetThread(s, s.current, s.threads[s.current].(blockedBy := id)), Join(s, id).0, Joining(s.Proc()), Blocked);
  }

  lemma LockTakesNone(s: Sched, m: int)
    requires Inv(s) && LockGuard(s, m)
    ensures FreeKept(s, MutexLock(s, m).0)
  {
    LockFreeEffect(s, m);
    if 0 <= m < NR_MUTEX && s.mutexes[m].locked {
      LockBlocksEffect(s, m);
      ReplacedKeepsFree(s, MutexLock(s, m).0, Waiting(m), Blocked);
    }
  }

  lemma UnlockTakesNone(s: Sched, m: int)
    requires Inv(s) && UnlockGuard(s, m)
    ensures FreeKept(s, MutexUnlock(s, m).0)
  {
    UnlockEffect(s, m);
    if 0 <= m < NR_MUTEX && s.mutexes[m].locked {
      UnlockWakesEffect(s, m);
    }
  }

  lemma TickTakesNone(s: Sched)
    requires Inv(s)
    ensures FreeKept(s, Tick(s))
  {
    if s.remP == 1 && s.Q(ReadyTasks) != [] {
      var s2 := TickOfProcess(s);
      SwitchKeepsFree(s.(remP := s.remP - 1, remT := s.remT - 1), s2, Tick(s));
    } else if s.remT == 1 && s.Q(Ready(s.Proc())) != [] {
      TickOfThread(s);
      ReplacedKeepsFree(s.(remP := s.remP - 1, remT := s.remT - 1), Tick(s), Ready(s.Proc()), Runnable);
    } else {
      QuietTick(s);
    }
  }

  lemma SwitchKeepsFree(s: Sched, s2: Sched, s': Sched)
    requires BothParked(s, s2) && NextRuns(s2, s')
    ensures FreeKept(s, s')
  {
  }

  /** Eight threads are free after boot, and every create and every fork takes one until none
      is left. */
  lemma FreeLeft(ks: seq<Sched>, steps: seq<Step>, n: nat)
    requires Trace(ks, steps) && Booted(ks[0]) && n <= |steps|
    requires forall i | 0 <= i < n :: !Exits(steps[i])
    ensures TasksLeft(ks[n]) && |ks[n].Q(FreeThreads)| == if Asked(steps, n) >= 8 then 0 else 8 - Asked(steps, n)
  {
    FreeAtBoot(ks[0]);
    forall i: nat | i < |steps|
      ensures Takes(ks[i], steps[i], ks[i + 1])
    {
      if !Exits(steps[i]) && TasksLeft(ks[i]) {
        TakesAt(ks, steps, i);
      }
    }
    FreeOverRun(ks, steps, n);
  }

  predicate Takes(s: Sched, step: Step, s': Sched) {
    !Exits(step) && TasksLeft(s) ==> TakesOne(s, step, s') && TasksLeft(s')
  }

  lemma {:induction false} FreeOverRun(ks: seq<Sched>, steps: seq<Step>, n: nat)
    requires |ks| == |steps| + 1 && n <= |steps| && forall i: nat | i < |steps| :: Takes(ks[i], steps[i], ks[i + 1])
    requires TasksLeft(ks[0]) && |ks[0].Q(FreeThreads)| == 8
    requires forall i | 0 <= i < n :: !Exits(steps[i])
    ensures TasksLeft(ks[n]) && |ks[n].Q(FreeThreads)| == if Asked(steps, n) >= 8 then 0 else 8 - Asked(steps, n)
  {
    if n > 0 {
      FreeOverRun(ks, steps, n - 1);
      assert Takes(ks[n - 1], steps[n - 1], ks[n]);
    }
  }

  lemma FreeAtBoot(s: Sched)
    requires Booted(s)
    ensures TasksLeft(s) && |s.Q(FreeThreads)| == 8
  {
  }

  lemma TakesAt(ks: seq<Sched>, steps: seq<Step>, i: nat)
    requires Trace(ks, steps) && i < |steps| && !Exits(steps[i]) && TasksLeft(ks[i])
    ensures TakesOne(ks[i], steps[i], ks[i + 1]) && TasksLeft(ks[i + 1])
  {
    assert IsStep(ks[i], steps[i], ks[i + 1]);
    StepTakes(ks[i], steps[i], ks[i + 1]);
  }

  /** So over every run from boot without exits the first eight creates and forks find a
      thread struct, and from the ninth on they answer -ENOMEM. */
  lemma NinthFails(ks: seq<Sched>, steps: seq<Step>, n: nat, accessOk: bool, frames: bool)
    requires Trace(ks, steps) && Booted(ks[0]) && n < |steps|
    requires forall i | 0 <= i < n :: !Exits(steps[i])
    ensures Inv(ks[n])
    ensures Create(ks[n], accessOk).1 == if !accessOk then -EFAULT else if Asked(steps, n) < 8 then 0 else -ENOMEM
    ensures Fork(ks[n], frames).1 == -ENOMEM <==> Asked(steps, n) >= 8
  {
    FreeLeft(ks, steps, n);
    assert IsStep(ks[n], steps[n], ks[n + 1]);
    NoneFreeFails(ks[n], accessOk, frames);
    PidsCount(ks, steps, n);
    ForkAnswers(ks[n], frames);
  }

  lemma NoneFreeFails(s: Sched, accessOk: bool, frames: bool)
    requires Inv(s) && TasksLeft(s)
    ensures Create(s, accessOk).1 == if !accessOk then -EFAULT else if s.Q(FreeThreads) != [] then 0 else -ENOMEM
  {
    CreateAnswers(s, accessOk);
  }

  // ------------------------------------------------------------------ PIDs

  /** How many of the first `n` steps are forks that succeed. */
  function Forks(ks: seq<Sched>, steps: seq<Step>, n: nat): nat
    requires n <= |steps| && n <= |ks|
  {
    if n == 0 then 0
    else Forks(ks, steps, n - 1) + (if steps[n - 1] == DoFork(true) && CanFork(ks[n - 1]) then 1 else 0)
  }

  lemma StepCounts(s: Sched, step: Step, s': Sched)
    requires IsStep(s, step, s')
    ensures s'.lastPid == s.lastPid + (if step == DoFork(true) && CanFork(s) then 1 else 0)
  {
    if !AddsThread(s, step) {
      StepKeepsIds(s, step);
    } else if step.DoFork? {
      ForkFrame(s);
    } else {
      var s1, t := Created(s);
    }
  }

  lemma {:induction false} PidsCount(ks: seq<Sched>, steps: seq<Step>, n: nat)
    requires Trace(ks, steps) && Booted(ks[0]) && n <= |steps|
    ensures ks[n].lastPid == 1000 + Forks(ks, steps, n)
  {
    if n > 0 {
      PidsCount(ks, steps, n - 1);
      CountsAt(ks, steps, n - 1);
    }
  }

  lemma CountsAt(ks: seq<Sched>, steps: seq<Step>, i: nat)
    requires Trace(ks, steps) && i < |steps|
    ensures ks[i + 1].lastPid == ks[i].lastPid + (if steps[i] == DoFork(true) && CanFork(ks[i]) then 1 else 0)
  {
    assert IsStep(ks[i], steps[i], ks[i + 1]);
    StepCounts(ks[i], steps[i], ks[i + 1]);
  }

  /** Over every run from boot the k-th fork that succeeds answers 1000 + k. */
  lemma ForkAnswersInOrder(ks: seq<Sched>, steps: seq<Step>, n: nat)
    requires Trace(ks, steps) && Booted(ks[0]) && n < |steps| && steps[n] == DoFork(true) && CanFork(ks[n])
    ensures Inv(ks[n]) && Fork(ks[n], true).1 == 1001 + Forks(ks, steps, n)
  {
    PidsCount(ks, steps, n);
    assert IsStep(ks[n], steps[n], ks[n + 1]);
    ForkAnswers(ks[n], true);
  }
}
