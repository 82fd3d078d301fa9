/** Which steps call task_switch, and when a thread is dispatched by its own step. */
module Dispatches {
  import opened Rings
  import opened Scheduling
  import opened Agreement
  import opened Steps
  import opened Runs
  import opened Boot
  import opened Switching
  import opened Joining

  predicate CallsTaskSwitch(s: Sched, step: Step)
    requires s.Sized()
  {
    match step
    case TimerTick => NeedsSched(Decremented(s)) != 0
    case DoYield => true
    case DoJoin(_) => s.Proc() < NR_TASKS && s.tasks[s.Proc()].nthread >= 2
    case DoPthreadExit => true
    case DoMutexLock(m) => ValidMutex(m) && s.mutexes[m].owner >= 0 && s.mutexes[m].locked
    case DoExit => true
    case _ => false
  }

  /** What sys_yield does not test: is any other thread of the process ready? */
  predicate LoneYield(s: Sched, step: Step)
    requires s.Sized()
  {
    step.DoYield? && s.Q(Ready(s.Proc())) == []
  }

  /** Nobody who is queued is the running thread. */
  lemma QueuedIsOther(s: Sched, q: Queue, i: nat)
    requires Inv(s) && i < |s.Q(q)|
    ensures s.Q(q)[i] != Thread(s.current)
  {
    assert s.rings.home[s.rings.seqs[q][i]] == q;
  }

  lemma SwitchToReady(s: Sched, s': Sched)
    requires Inv(s) && s'.Sized() && s.Q(Ready(s.Proc())) != []
    requires s.Q(Ready(s.Proc())) <= [Thread(s'.current)] + s'.Q(Ready(s.Proc()))
    ensures s'.current != s.current
  {
    QueuedIsOther(s, Ready(s.Proc()), 0);
    assert s.Q(Ready(s.Proc()))[0] == Thread(s'.current);
  }

  lemma SwitchToProcess(s: Sched, s': Sched)
    requires Inv(s) && s'.Sized() && s.Q(Ready(s'.Proc())) == [Thread(s'.current)] + s'.Q(Ready(s'.Proc()))
    ensures s'.current != s.current
  {
    QueuedIsOther(s, Ready(s'.Proc()), 0);
  }

  lemma TickDispatchesOther(s: Sched)
    requires Inv(s)
    ensures Tick(s).Sized()
    ensures NeedsSched(Decremented(s)) == 0 <==> Tick(s).current == s.current
  {
    if NeedsSched(Decremented(s)) == 1 {
      TickSwitchesProcess(s);
      SwitchToProcess(s, Tick(s));
    } else if NeedsSched(Decremented(s)) == 2 {
      TickSwitchesThread(s);
      SwitchToReady(s, Tick(s));
    }
  }

  lemma YieldDispatches(s: Sched)
    requires Inv(s)
    ensures Yield(s).Sized()
    ensures Yield(s).current == s.current <==> s.Q(Ready(s.Proc())) == []
  {
    if s.Q(Ready(s.Proc())) == [] {
      ParkInReadyAgrees(s);
      ParkInReadyDispatches(s);
    } else {
      YieldSwitches(s);
      SwitchToReady(s, Yield(s));
    }
  }

  lemma PthreadExitDispatchesOther(s: Sched)
    requires Inv(s) && PthreadExitGuard(s)
    ensures PthreadExit(s).Sized() && PthreadExit(s).current != s.current
  {
    PthreadExitEffect(s);
    var s', p := PthreadExit(s), s.Proc();
    if s.Q(Ready(p)) != [] {
      QueuedIsOther(s, Ready(p), 0);
      assert s.Q(Ready(p))[0] == ([Thread(s'.current)] + s'.Q(Ready(p)))[0];
    } else {
      QueuedIsOther(s, Joining(p), 0);
      assert s.Q(Joining(p))[0] == ([Thread(s'.current)] + s'.Q(Ready(p)))[0];
    }
  }

  /** Steps that call task_switch dispatch another thread, and the others none, with one
      exception: a yield with no other thread ready. */
  lemma DispatchesItselfIff(s: Sched, step: Step)
    requires Inv(s) && Guard(s, step)
    ensures Apply(s, step).Sized()
    ensures Apply(s, step).current == s.current <==> !CallsTaskSwitch(s, step) || LoneYield(s, step)
  {
    match step
    case TimerTick => TickDispatchesOther(s);
    case DoYield => YieldDispatches(s);
    case DoJoin(id) =>
      JoinSwitches(s, id);
      SwitchToReady(s, Join(s, id).0);
    case DoPthreadExit => PthreadExitDispatchesOther(s);
    case DoExit =>
      ExitSwitchesProcess(s);
      SwitchToProcess(s, Exit(s));
    case DoMutexLock(m) =>
      if CallsTaskSwitch(s, step) {
        LockSwitches(s, m);
        SwitchToReady(s, MutexLock(s, m).0);
      }
    case _ => CallDispatchesNobody(s, step);
  }

  lemma CallDispatchesNobody(s: Sched, step: Step)
    requires Inv(s) && Guard(s, step)
    requires step.DoCreate? || step.DoMutexInit? || step.DoMutexUnlock? || step.DoMutexDestroy? || step.DoFork?
    ensures Apply(s, step).Sized() && Apply(s, step).current == s.current
  {
    match step
    case DoCreate(ok) => CreateContinues(s, ok);
    case DoMutexInit(m) => MutexInitContinues(s, m);
    case DoMutexUnlock(m) => UnlockContinues(s, m);
    case DoMutexDestroy(m) => DestroyContinues(s, m);
    case DoFork(frames) => ForkContinues(s, frames);
  }

  /** The very first thing a booted kernel can do wrong: task 1's only thread yields. */
  lemma BootYield(s: Sched)
    requires Booted(s)
    ensures Inv(s) && LoneYield(s, DoYield) && Yield(s).Sized() && Yield(s).current == s.current
  {
    BootInv(s);
    YieldDispatches(s);
  }

  /** The error return of sys_pthread_join is never taken: every process that can run has
      counted a thread. */
  lemma JoinNeverFails(s: Sched, id: int)
    requires Inv(s) && JoinGuard(s)
    ensures Join(s, id).1 == 0
  {
  }
}
