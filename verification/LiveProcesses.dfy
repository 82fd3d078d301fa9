/** Which steps change the set of live processes, and how. */
module LiveProcesses {
  import opened Options
  import opened Rings
  import opened Scheduling
  import opened Agreement
  import opened Steps
  import opened Runs
  import opened Boot

  /** The processes with an address space of their own: task 0 is the idle task's. */
  function LiveSet(s: Sched): set<nat> {
    set p: nat | 0 < p < NR_TASKS && Live(s, p)
  }

  /** The idle task is never queued and never runs. */
  predicate IdleApart(s: Sched) {
    s.Sized() && !s.Linked(Task(0)) && s.Proc() != 0
  }

  lemma RunningIsLive(s: Sched)
    requires Inv(s) && IdleApart(s)
    ensures s.Proc() in LiveSet(s)
  {
  }

  lemma BootLive(s: Sched)
    requires Booted(s)
    ensures IdleApart(s) && LiveSet(s) == {1}
  {
    assert Index(Task(0)) == 0 && Index(Task(1)) == 1;
    forall p: nat | 0 < p < NR_TASKS
      ensures p in LiveSet(s) <==> p == 1
    {
      assert Index(Task(p)) == p && FreeQueueOf(Task(p)) == FreeTasks;
    }
  }

  /** Nobody's struct is freed or taken, and the idle task stays out of it. */
  ghost predicate ProcsKept(s: Sched, s': Sched) {
    && (forall p: nat :: s'.In(Task(p), FreeTasks) <==> s.In(Task(p), FreeTasks))
    && (IdleApart(s) ==> IdleApart(s'))
  }

  lemma KeptLiveSet(s: Sched, s': Sched)
    requires ProcsKept(s, s')
    ensures LiveSet(s') == LiveSet(s)
  {
    assert forall p: nat :: Live(s, p) <==> Live(s', p);
  }

  lemma UpdateKeepsProcs(s: Sched, t: nat, dst: Option<Queue>)
    requires s.Sized() && t < THREAD_STRUCTS
    requires s.threads[t].state != Running ==> s.Linked(Thread(t)) && s.rings.home[Thread(t)] in s.rings.seqs
    requires dst.Some? ==> dst.value in s.rings.seqs
    ensures ProcsKept(s, UpdateThread(s, t, dst))
  {
  }

  lemma NextThreadKeepsProcs(s: Sched)
    requires s.Sized() && HeadThread(s, Ready(s.Proc()))
    requires s.threads[FirstThread(s, Ready(s.Proc()))].task == s.Proc()
    ensures ProcsKept(s, NextThread(s))
  {
  }

  lemma NextProcessKeepsProcs(s: Sched)
    requires s.Sized() && HeadTask(s, ReadyTasks)
    requires HeadThread(s, Ready(FirstTask(s, ReadyTasks)))
    requires NextProcess(s).Proc() == FirstTask(s, ReadyTasks)
    ensures ProcsKept(s, NextProcess(s))
  {
  }

  lemma TickKeepsProcs(s: Sched)
    requires Inv(s) && IdleApart(s)
    ensures ProcsKept(s, Tick(s))
  {
    var s1 := Decremented(s);
    SettledIgnoresQuanta(s, s1);
    if NeedsSched(s1) == 1 {
      var s2 := ParkingKeepsProcs(s1);
      NextProcessKeepsProcs(s2);
    } else if NeedsSched(s1) == 2 {
      SwitchKeepsProcs(s1);
    }
  }

  /** The state between parking the running process and dispatching the next. */
  lemma ParkingKeepsProcs(s: Sched) returns (s2: Sched)
    requires Settled(s) && IdleApart(s)
    ensures Settled(s) && s2 == ParkProcess(s) && ProcsKept(s, s2)
    ensures s2.Sized() && HeadTask(s2, ReadyTasks) && HeadThread(s2, Ready(FirstTask(s2, ReadyTasks)))
    ensures NextProcess(s2).Proc() == FirstTask(s2, ReadyTasks)
  {
    ParkProcessDispatches(s);
    s2 := ParkProcess(s);
    ParkingTaskKeepsProcs(s);
    UpdateKeepsProcs(UpdateProcess(s, s.Proc()), s.current, Some(Ready(s.Proc())));
  }

  lemma ParkingTaskKeepsProcs(s: Sched)
    requires Settled(s) && IdleApart(s)
    ensures ProcsKept(s, UpdateProcess(s, s.Proc()))
  {
  }

  lemma SwitchKeepsProcs(s: Sched)
    requires Settled(s)
    ensures HeadThread(ParkInReady(s), Ready(ParkInReady(s).Proc()))
    ensures ProcsKept(s, NextThread(ParkInReady(s)))
  {
    ParkInReadyDispatches(s);
    HeadOfReady(ParkInReady(s), s.Proc());
    UpdateKeepsProcs(s, s.current, Some(Ready(s.Proc())));
    NextThreadKeepsProcs(ParkInReady(s));
  }

  lemma BlockingKeepsProcs(s: Sched, q: Queue)
    requires Inv(s) && Parkable(s, q) && !q.Ready?
    requires s.Q(Ready(s.Proc())) != []
    ensures var s1 := UpdateThread(s, s.current, Some(q));
            HeadThread(s1, Ready(s1.Proc())) && ProcsKept(s, NextThread(s1))
  {
    ParkElsewhereDispatches(s, q);
    ParkThread(s, q);
    HeadOfReady(UpdateThread(s, s.current, Some(q)), s.Proc());
    UpdateKeepsProcs(s, s.current, Some(q));
    NextThreadKeepsProcs(UpdateThread(s, s.current, Some(q)));
  }

  lemma JoinKeepsProcs(s: Sched, id: int)
    requires Inv(s) && JoinGuard(s)
    ensures ProcsKept(s, Join(s, id).0)
  {
    BlockedByIsFree(s, id);
    BlockingKeepsProcs(SetThread(s, s.current, s.threads[s.current].(blockedBy := id)), Joining(s.Proc()));
  }

  lemma PthreadExitKeepsProcs(s: Sched)
    requires Inv(s) && PthreadExitGuard(s)
    ensures ProcsKept(s, PthreadExit(s))
  {
    var s2 := ScanKeepsProcs(s);
    NextThreadKeepsProcs(s2);
  }

  /** The state between the scan of pthread_exit and the dispatch. */
  lemma ScanKeepsProcs(s: Sched) returns (s2: Sched)
    requires Inv(s) && PthreadExitGuard(s)
    ensures ProcsKept(s, s2) && s2.Sized() && HeadThread(s2, Ready(s2.Proc()))
    ensures s2.threads[FirstThread(s2, Ready(s2.Proc()))].task == s2.Proc()
    ensures PthreadExit(s) == NextThread(s2)
  {
    PthreadExitDispatches(s);
    RetiredAgrees(s);
    RetiredKeepsProcs(s);
    var p, tid := s.Proc(), s.threads[s.current].tid;
    WokenAgrees(Retired(s), p, tid);
    WokenKeepsProcs(Retired(s), p, tid);
    s2 := Woken(Retired(s), p, tid);
    HeadOfReady(s2, p);
  }

  lemma RetiredKeepsProcs(s: Sched)
    requires Inv(s)
    ensures ProcsKept(s, Retired(s))
  {
  }

  lemma WokenKeepsProcs(s: Sched, p: nat, tid: int)
    requires Shape(s) && Agrees(s) && p < NR_TASKS && !s.Linked(Task(p))
    requires s.Q(Joining(p)) != [] ==> HeadThread(s, Joining(p))
    ensures ProcsKept(s, Woken(s, p, tid))
  {
    WokenKeeps(s, p, tid);
  }

  lemma MutexStepKeepsProcs(s: Sched, step: Step)
    requires Inv(s) && Guard(s, step)
    requires step.DoMutexInit? || step.DoMutexLock? || step.DoMutexUnlock? || step.DoMutexDestroy?
    ensures ProcsKept(s, Apply(s, step))
  {
    if step.DoMutexLock? && ValidMutex(step.m) && s.mutexes[step.m].locked {
      assert MutexAgrees(s, step.m);
      BlockingKeepsProcs(s, Waiting(step.m));
    } else if step.DoMutexUnlock? && ValidMutex(step.m) && s.mutexes[step.m].locked {
      assert ThreadAgrees(s, FirstThread(s, Waiting(step.m)));
      UpdateKeepsProcs(s, FirstThread(s, Waiting(step.m)), Some(Ready(s.Proc())));
    }
  }

  lemma CreateKeepsProcs(s: Sched, ok: bool)
    requires Inv(s)
    ensures ProcsKept(s, Create(s, ok).0)
  {
    if ok && s.Q(FreeThreads) != [] {
      CreateInParts(s);
    }
  }

  /** All steps but a successful fork and an exit. */
  lemma StepKeepsProcs(s: Sched, step: Step)
    requires Inv(s) && Guard(s, step) && IdleApart(s) && !step.DoFork? && !step.DoExit?
    ensures ProcsKept(s, Apply(s, step))
  {
    match step
    case TimerTick => TickKeepsProcs(s);
    case DoYield => SwitchKeepsProcs(s);
    case DoCreate(ok) => CreateKeepsProcs(s, ok);
    case DoJoin(id) => JoinKeepsProcs(s, id);
    case DoPthreadExit => PthreadExitKeepsProcs(s);
    case _ => MutexStepKeepsProcs(s, step);
  }

  lemma ForkFailedKeepsProcs(s: Sched)
    requires Inv(s)
    ensures ProcsKept(s, Fork(s, false).0)
  {
    if CanFork(s) {
      ForkCases(s, false);
    }
  }

  /** A successful fork makes one more process live, which was not. */
  lemma ForkAddsProcess(s: Sched)
    requires Inv(s) && IdleApart(s) && CanFork(s)
    ensures HeadTask(s, FreeTasks)
    ensures var s', c := Fork(s, true).0, FirstTask(s, FreeTasks);
            && 0 < c && c !in LiveSet(s) && c != s.Proc()
            && LiveSet(s') == LiveSet(s) + {c} && IdleApart(s')
  {
    ForkHomes(s);
    ChildJoins(s, Fork(s, true).0, FirstTask(s, FreeTasks));
  }

  lemma ForkHomes(s: Sched)
    requires Inv(s) && CanFork(s)
    ensures HeadTask(s, FreeTasks)
    ensures var s', c := Fork(s, true).0, FirstTask(s, FreeTasks);
            && s'.Sized() && s'.Proc() == s.Proc()
            && forall p: nat :: (s'.Linked(Task(p)) <==> s.Linked(Task(p))) &&
                 (s.Linked(Task(p)) && p != c ==> s'.rings.home[Task(p)] == s.rings.home[Task(p)]) &&
                 (p == c ==> s'.In(Task(p), ReadyTasks))
  {
    ForkCases(s, true);
    assert FirstThread(s, FreeThreads) != s.current;
  }

  lemma ChildJoins(s: Sched, s': Sched, c: nat)
    requires IdleApart(s) && s'.Sized() && s'.Proc() == s.Proc() && !s.Linked(Task(s.Proc()))
    requires c < NR_TASKS && s.In(Task(c), FreeTasks)
    requires forall p: nat :: (s'.Linked(Task(p)) <==> s.Linked(Task(p))) &&
               (s.Linked(Task(p)) && p != c ==> s'.rings.home[Task(p)] == s.rings.home[Task(p)]) &&
               (p == c ==> s'.In(Task(p), ReadyTasks))
    ensures 0 < c && c !in LiveSet(s) && c != s.Proc()
    ensures LiveSet(s') == LiveSet(s) + {c} && IdleApart(s')
  {
    assert forall p: nat :: Live(s', p) <==> p == c || Live(s, p);
  }

  /** An exit takes the running process out. */
  lemma ExitRemovesProcess(s: Sched)
    requires Inv(s) && IdleApart(s) && ExitGuard(s)
    ensures LiveSet(Exit(s)) == LiveSet(s) - {s.Proc()} && IdleApart(Exit(s))
  {
    ExitDispatches(s);
    ReleasedQueues(s);
    TaskHomes(s);
    ReleasedProcess(s, Released(s));
    NextProcessKeepsProcs(Released(s));
    KeptLiveSet(Released(s), Exit(s));
  }

  lemma ReleasedProcess(s: Sched, s1: Sched)
    requires IdleApart(s) && 0 < s.Proc() < NR_TASKS && !s.Linked(Thread(s.current)) && !s.Linked(Task(s.Proc()))
    requires IsReleased(s, s1, s.Proc()) && OthersKept(s, s1, s.Proc())
    requires forall x: nat | s.Linked(Task(x)) :: !s.rings.home[Task(x)].Ready? && !s.rings.home[Task(x)].Joining?
    ensures LiveSet(s1) == LiveSet(s) - {s.Proc()} && IdleApart(s1)
  {
    var p := s.Proc();
    forall x: nat | x != p
      ensures s1.In(Task(x), FreeTasks) <==> s.In(Task(x), FreeTasks)
    {
      assert s.Linked(Task(x)) <==> s1.Linked(Task(x));
    }
    assert forall x: nat | x != p :: Live(s1, x) <==> Live(s, x);
    assert s1.In(Task(p), FreeTasks);
    assert !s.Linked(Task(0)) ==> !s1.Linked(Task(0));
  }

  lemma TaskHomes(s: Sched)
    requires Inv(s)
    ensures forall x: nat | s.Linked(Task(x)) :: !s.rings.home[Task(x)].Ready? && !s.rings.home[Task(x)].Joining?
  {
    assert forall x: nat | Task(x) in s.rings.home :: TaskAgrees(s, x);
  }
}
