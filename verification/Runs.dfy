/** Runs of the scheduler, and what holds in every state they reach. */
module Runs {
  import opened Rings
  import opened Scheduling
  import opened Agreement
  import opened Steps

  datatype Step =
    | TimerTick
    | DoYield
    | DoCreate(accessOk: bool)
    | DoJoin(id: int)
    | DoPthreadExit
    | DoMutexInit(m: int)
    | DoMutexLock(m: int)
    | DoMutexUnlock(m: int)
    | DoMutexDestroy(m: int)
    | DoFork(frames: bool)
    | DoExit

  /** What the code relies on without checking it. */
  predicate Guard(s: Sched, step: Step)
    requires s.Sized()
  {
    match step
    case DoJoin(_) => JoinGuard(s)
    case DoPthreadExit => PthreadExitGuard(s)
    case DoMutexLock(m) => LockGuard(s, m)
    case DoMutexUnlock(m) => UnlockGuard(s, m)
    case DoMutexDestroy(m) => DestroyGuard(s, m)
    case DoExit => ExitGuard(s)
    case _ => true
  }

  function Apply(s: Sched, step: Step): Sched
    requires Inv(s) && Guard(s, step)
  {
    match step
    case TimerTick => Tick(s)
    case DoYield => Yield(s)
    case DoCreate(ok) => Create(s, ok).0
    case DoJoin(id) => Join(s, id).0
    case DoPthreadExit => PthreadExit(s)
    case DoMutexInit(m) => MutexInit(s, m).0
    case DoMutexLock(m) => MutexLock(s, m).0
    case DoMutexUnlock(m) => MutexUnlock(s, m).0
    case DoMutexDestroy(m) => MutexDestroy(s, m).0
    case DoFork(frames) => Fork(s, frames).0
    case DoExit => Exit(s)
  }

  /** Every step keeps the agreement between queues and structs, and so leaves every
      later list_del a linked node and every later dispatch a real thread. */
  lemma ApplyInv(s: Sched, step: Step)
    requires Inv(s) && Guard(s, step)
    ensures Inv(Apply(s, step))
  {
    match step
    case TimerTick => TickInv(s);
    case DoYield => YieldInv(s);
    case DoCreate(ok) => CreateInv(s, ok);
    case DoJoin(id) => JoinInv(s, id);
    case DoPthreadExit => PthreadExitInv(s);
    case DoMutexInit(m) => MutexInitInv(s, m);
    case DoMutexLock(m) => MutexLockInv(s, m);
    case DoMutexUnlock(m) => MutexUnlockInv(s, m);
    case DoMutexDestroy(m) => MutexDestroyInv(s, m);
    case DoFork(frames) => ForkInv(s, frames);
    case DoExit => ExitDispatches(s);
  }

  // ------------------------------------------------------------------ runs

  ghost predicate Legal(s: Sched, steps: seq<Step>)
    requires Inv(s)
    decreases |steps|
  {
    steps == [] || (Guard(s, steps[0]) && (ApplyInv(s, steps[0]); Legal(Apply(s, steps[0]), steps[1..])))
  }

  ghost function Exec(s: Sched, steps: seq<Step>): (s': Sched)
    requires Inv(s) && Legal(s, steps)
    ensures Inv(s')
    decreases |steps|
  {
    if steps == [] then s
    else
      ApplyInv(s, steps[0]);
      Exec(Apply(s, steps[0]), steps[1..])
  }

  /** The same runs with all their states: `ks[i]` is the state after `i` steps. */
  ghost predicate Trace(ks: seq<Sched>, steps: seq<Step>) {
    && |ks| == |steps| + 1 && Inv(ks[0])
    && forall i | 0 <= i < |steps| :: IsStep(ks[i], steps[i], ks[i + 1])
  }

  ghost predicate IsStep(s: Sched, step: Step, s': Sched) {
    Inv(s) && Guard(s, step) && s' == Apply(s, step)
  }

  lemma {:induction false} LegalTrace(s: Sched, steps: seq<Step>) returns (ks: seq<Sched>)
    requires Inv(s) && Legal(s, steps)
    ensures Trace(ks, steps) && ks[0] == s && ks[|steps|] == Exec(s, steps)
    decreases |steps|
  {
    if steps == [] {
      ks := [s];
    } else {
      ApplyInv(s, steps[0]);
      var rest := LegalTrace(Apply(s, steps[0]), steps[1..]);
      ks := [s] + rest;
      TraceFrom(s, steps, rest);
    }
  }

  lemma TraceFrom(s: Sched, steps: seq<Step>, rest: seq<Sched>)
    requires steps != [] && Trace(rest, steps[1..]) && IsStep(s, steps[0], rest[0])
    ensures Trace([s] + rest, steps)
  {
    var ks := [s] + rest;
    forall i | 0 <= i < |steps|
      ensures IsStep(ks[i], steps[i], ks[i + 1])
    {
      assert i > 0 ==> IsStep(rest[i - 1], steps[1..][i - 1], rest[i]);
    }
  }
}
