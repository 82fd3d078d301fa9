/** PIDs and TIDs: what join and the exit of a thread identify threads by. */
module Identities {
  import opened Options
  import opened Rings
  import opened Scheduling
  import opened Agreement
  import opened Steps
  import opened Runs
  import opened Boot
  import opened Reachable

  /** No two live processes share a PID, and no two threads of a process, running or queued
      anywhere but among the free ones, a TID; the next of each kind will be new. */
  ghost predicate Identified(s: Sched) {
    && s.Sized()
    && (forall p: nat, q: nat | Live(s, p) && Live(s, q) && s.tasks[p].pid == s.tasks[q].pid :: p == q)
    && (forall p: nat | Live(s, p) :: s.tasks[p].pid <= s.lastPid)
    && (forall t: nat, u: nat | Member(s, t) && Member(s, u) && SameIds(s, t, u) :: t == u)
    && (forall t: nat | Member(s, t) :: TidBelow(s, t))
  }

  predicate Member(s: Sched, t: nat) {
    s.Sized() && t < THREAD_STRUCTS && Busy(s, t)
  }

  predicate SameIds(s: Sched, t: nat, u: nat)
    requires t < |s.threads| && u < |s.threads|
  {
    s.threads[t].task == s.threads[u].task && s.threads[t].tid == s.threads[u].tid
  }

  predicate TidBelow(s: Sched, t: nat)
    requires s.Sized() && t < THREAD_STRUCTS
  {
    s.threads[t].task < NR_TASKS && s.threads[t].tid < s.tasks[s.threads[t].task].nthread
  }

  /** Nobody new, and nobody with another identity. */
  ghost predicate IdsKept(s: Sched, s': Sched) {
    && s.Sized() && s'.Sized() && s'.lastPid == s.lastPid
    && (forall p: nat | Live(s', p) :: Live(s, p) && s'.tasks[p].pid == s.tasks[p].pid)
    && (forall p: nat | p < NR_TASKS :: s'.tasks[p].nthread == s.tasks[p].nthread)
    && (forall t: nat | Member(s', t) :: Member(s, t) && SameIdentity(s.threads[t], s'.threads[t]))
  }

  predicate SameIdentity(a: ThreadStruct, b: ThreadStruct) {
    a.task == b.task && a.tid == b.tid
  }

  lemma KeptIdentified(s: Sched, s': Sched)
    requires Identified(s) && IdsKept(s, s')
    ensures Identified(s')
  {
    forall t: nat, u: nat | Member(s', t) && Member(s', u) && SameIds(s', t, u)
      ensures t == u
    {
      assert SameIds(s, t, u);
    }
    forall t: nat | Member(s', t)
      ensures TidBelow(s', t)
    {
      assert TidBelow(s, t);
    }
  }

  lemma KeptInSteps(s: Sched, s1: Sched, s2: Sched)
    requires IdsKept(s, s1) && IdsKept(s1, s2)
    ensures IdsKept(s, s2)
  {
  }

  // ------------------------------------------------------------------ steps that add nobody

  lemma UpdateKeepsIds(s: Sched, t: nat, dst: Option<Queue>)
    requires s.Sized() && t < THREAD_STRUCTS && Busy(s, t)
    requires s.threads[t].state != Running ==> s.Linked(Thread(t)) && s.rings.home[Thread(t)] in s.rings.seqs
    requires dst.Some? ==> dst.value in s.rings.seqs
    ensures IdsKept(s, UpdateThread(s, t, dst))
  {
  }

  lemma NextThreadKeepsIds(s: Sched)
    requires s.Sized() && HeadThread(s, Ready(s.Proc()))
    requires s.threads[FirstThread(s, Ready(s.Proc()))].state != Running
    ensures IdsKept(s, NextThread(s))
  {
  }

  lemma NextProcessKeepsIds(s: Sched)
    requires s.Sized() && HeadTask(s, ReadyTasks)
    requires HeadThread(s, Ready(FirstTask(s, ReadyTasks)))
    ensures IdsKept(s, NextProcess(s))
  {
  }

  lemma TickKeepsIds(s: Sched)
    requires Inv(s)
    ensures IdsKept(s, Tick(s))
  {
    var s1 := Decremented(s);
    SettledIgnoresQuanta(s, s1);
    if NeedsSched(s1) == 1 {
      ProcessSwitchKeepsIds(s1);
    } else if NeedsSched(s1) == 2 {
      SwitchKeepsIds(s1);
    }
  }

  lemma ProcessSwitchKeepsIds(s: Sched)
    requires Settled(s)
    ensures HeadTask(ParkProcess(s), ReadyTasks) && HeadThread(ParkProcess(s), Ready(FirstTask(ParkProcess(s), ReadyTasks)))
    ensures IdsKept(s, NextProcess(ParkProcess(s)))
  {
    var s2 := ParkingKeepsIds(s);
    NextProcessKeepsIds(s2);
    KeptInSteps(s, s2, NextProcess(s2));
  }

  lemma ParkingKeepsIds(s: Sched) returns (s2: Sched)
    requires Settled(s)
    ensures IdsKept(s, s2) && HeadTask(s2, ReadyTasks) && HeadThread(s2, Ready(FirstTask(s2, ReadyTasks)))
    ensures s2 == ParkProcess(s)
  {
    ParkProcessDispatches(s);
    var s1 := UpdateProcess(s, s.Proc());
    ParkingTaskKeepsIds(s);
    UpdateKeepsIds(s1, s.current, Some(Ready(s.Proc())));
    s2 := ParkProcess(s);
    KeptInSteps(s, s1, s2);
  }

  lemma ParkingTaskKeepsIds(s: Sched)
    requires Settled(s)
    ensures IdsKept(s, UpdateProcess(s, s.Proc())) && Busy(UpdateProcess(s, s.Proc()), s.current)
  {
  }

  lemma SwitchKeepsIds(s: Sched)
    requires Settled(s)
    ensures HeadThread(ParkInReady(s), Ready(ParkInReady(s).Proc()))
    ensures IdsKept(s, NextThread(ParkInReady(s)))
  {
    ParkInReadyDispatches(s);
    HeadOfReady(ParkInReady(s), s.Proc());
    UpdateKeepsIds(s, s.current, Some(Ready(s.Proc())));
    NextThreadKeepsIds(ParkInReady(s));
    KeptInSteps(s, ParkInReady(s), NextThread(ParkInReady(s)));
  }

  lemma BlockingKeepsIds(s: Sched, q: Queue)
    requires Inv(s) && Parkable(s, q) && !q.Ready?
    requires s.Q(Ready(s.Proc())) != []
    ensures var s1 := UpdateThread(s, s.current, Some(q));
            HeadThread(s1, Ready(s1.Proc())) && IdsKept(s, NextThread(s1))
  {
    var s1 := UpdateThread(s, s.current, Some(q));
    ParkElsewhereDispatches(s, q);
    ParkThread(s, q);
    HeadOfReady(s1, s.Proc());
    UpdateKeepsIds(s, s.current, Some(q));
    NextThreadKeepsIds(s1);
    KeptInSteps(s, s1, NextThread(s1));
  }

  lemma JoinKeepsIds(s: Sched, id: int)
    requires Inv(s) && JoinGuard(s)
    ensures IdsKept(s, Join(s, id).0)
  {
    var s1 := SetThread(s, s.current, s.threads[s.current].(blockedBy := id));
    BlockedByIsFree(s, id);
    BlockingKeepsIds(s1, Joining(s.Proc()));
    KeptInSteps(s, s1, Join(s, id).0);
  }

  lemma PthreadExitKeepsIds(s: Sched)
    requires Inv(s) && PthreadExitGuard(s)
    ensures IdsKept(s, PthreadExit(s))
  {
    var s2 := ScanKeepsIds(s);
    NextThreadKeepsIds(s2);
    KeptInSteps(s, s2, PthreadExit(s));
  }

  lemma ScanKeepsIds(s: Sched) returns (s2: Sched)
    requires Inv(s) && PthreadExitGuard(s)
    ensures IdsKept(s, s2) && HeadThread(s2, Ready(s2.Proc()))
    ensures s2.threads[FirstThread(s2, Ready(s2.Proc()))].state != Running
    ensures PthreadExit(s) == NextThread(s2)
  {
    PthreadExitDispatches(s);
    RetiredAgrees(s);
    var p, tid := s.Proc(), s.threads[s.current].tid;
    WokenAgrees(Retired(s), p, tid);
    RetiredKeepsIds(s);
    WokenKeepsIds(Retired(s), p, tid);
    s2 := Woken(Retired(s), p, tid);
    KeptInSteps(s, Retired(s), s2);
    HeadOfReady(s2, p);
  }

  lemma RetiredKeepsIds(s: Sched)
    requires Inv(s)
    ensures IdsKept(s, Retired(s))
  {
  }

  lemma WokenKeepsIds(s: Sched, p: nat, tid: int)
    requires Shape(s) && Agrees(s) && p < NR_TASKS && !s.Linked(Task(p))
    requires s.Q(Joining(p)) != [] ==> HeadThread(s, Joining(p))
    ensures IdsKept(s, Woken(s, p, tid))
  {
  }

  lemma MutexStepKeepsIds(s: Sched, step: Step)
    requires Inv(s) && Guard(s, step)
    requires step.DoMutexInit? || step.DoMutexLock? || step.DoMutexUnlock? || step.DoMutexDestroy?
    ensures IdsKept(s, Apply(s, step))
  {
    if step.DoMutexLock? && ValidMutex(step.m) && s.mutexes[step.m].locked {
      assert MutexAgrees(s, step.m);
      BlockingKeepsIds(s, Waiting(step.m));
    } else if step.DoMutexUnlock? && ValidMutex(step.m) && s.mutexes[step.m].locked {
      assert ThreadAgrees(s, FirstThread(s, Waiting(step.m)));
      UpdateKeepsIds(s, FirstThread(s, Waiting(step.m)), Some(Ready(s.Proc())));
    }
  }

  lemma ExitKeepsIds(s: Sched)
    requires Inv(s) && ExitGuard(s)
    ensures IdsKept(s, Exit(s))
  {
    ExitDispatches(s);
    ReleasedQueues(s);
    var s1 := Released(s);
    ReleasedKeepsIds(s, s1);
    NextProcessKeepsIds(s1);
    KeptInSteps(s, s1, Exit(s));
  }

  lemma ReleasedKeepsIds(s: Sched, s': Sched)
    requires s.Sized() && s.Proc() < NR_TASKS && !s.Linked(Thread(s.current))
    requires IsReleased(s, s', s.Proc()) && OthersKept(s, s', s.Proc())
    ensures IdsKept(s, s')
  {
    forall p: nat | Live(s', p)
      ensures Live(s, p) && s'.tasks[p].pid == s.tasks[p].pid
    {
      assert p != s.Proc() ==> (s.Linked(Task(p)) <==> s'.Linked(Task(p)));
    }
    forall t: nat | Member(s', t)
      ensures Member(s, t) && SameIdentity(s.threads[t], s'.threads[t])
    {
      assert s.Linked(Thread(t)) <==> s'.Linked(Thread(t));
    }
  }

  lemma FailedForkKeepsIds(s: Sched)
    requires Inv(s)
    ensures IdsKept(s, Fork(s, false).0)
  {
    if CanFork(s) {
      ForkCases(s, false);
    }
  }

  // ------------------------------------------------------------------ create and fork

  /** A new thread's TID is its process's counter, which moves on. */
  lemma CreateIdentifies(s: Sched, ok: bool)
    requires Inv(s) && Identified(s)
    ensures Identified(Create(s, ok).0)
  {
    if ok && s.Q(FreeThreads) != [] {
      var s', t := Created(s);
      NewThread(s, s', t);
    }
  }

  lemma Created(s: Sched) returns (s': Sched, t: nat)
    requires Inv(s) && s.Q(FreeThreads) != []
    ensures s' == Create(s, true).0 && s'.Sized() && t < THREAD_STRUCTS && t != s.current && s.In(Thread(t), FreeThreads)
    ensures s.Q(FreeThreads)[0] == Thread(t)
    ensures s'.rings.home == s.rings.home[Thread(t) := Ready(s.Proc())] && s'.current == s.current && s'.lastPid == s.lastPid
    ensures s'.threads == s.threads[t := s'.threads[t]]
    ensures s'.threads[t].task == s.Proc() && s'.threads[t].tid == s.tasks[s.Proc()].nthread
    ensures s'.tasks == s.tasks[s.Proc() := s.tasks[s.Proc()].(nthread := s.tasks[s.Proc()].nthread + 1)]
  {
    CreateInParts(s);
    MovedQueues(s, FreeThreads, Ready(s.Proc()));
    t := FirstThread(s, FreeThreads);
    s' := CreatedParts(s, t);
  }

  lemma CreatedQueues(s: Sched)
    requires Inv(s) && s.Q(FreeThreads) != []
    ensures HeadThread(s, FreeThreads)
    ensures forall q :: Create(s, true).0.Q(q) == if q == Ready(s.Proc()) then s.Q(q) + [s.Q(FreeThreads)[0]]
                                               else if q == FreeThreads then s.Q(q)[1..] else s.Q(q)
  {
    HeadOfFreeThreads(s);
    MovedQueues(s, FreeThreads, Ready(s.Proc()));
  }

  lemma CreatedParts(s: Sched, t: nat) returns (s': Sched)
    requires Inv(s) && HeadThread(s, FreeThreads) && t == FirstThread(s, FreeThreads)
    ensures s' == Create(s, true).0 && s'.Sized() && Ready(s.Proc()) in s.rings.seqs
    ensures s'.rings == Append(Delete(s.rings, Thread(t)), Ready(s.Proc()), Thread(t))
    ensures s'.current == s.current && s'.lastPid == s.lastPid && s'.threads == s.threads[t := s'.threads[t]]
    ensures s'.threads[t].task == s.Proc() && s'.threads[t].tid == s.tasks[s.Proc()].nthread
    ensures s'.tasks == s.tasks[s.Proc() := s.tasks[s.Proc()].(nthread := s.tasks[s.Proc()].nthread + 1)]
  {
    s' := Create(s, true).0;
  }

  lemma NewThread(s: Sched, s': Sched, t: nat)
    requires Identified(s) && s'.Sized() && s.Proc() < NR_TASKS && t < THREAD_STRUCTS && t != s.current
    requires s.In(Thread(t), FreeThreads)
    requires s'.rings.home == s.rings.home[Thread(t) := Ready(s.Proc())] && s'.current == s.current && s'.lastPid == s.lastPid
    requires s'.threads == s.threads[t := s'.threads[t]]
    requires s'.threads[t].task == s.Proc() && s'.threads[t].tid == s.tasks[s.Proc()].nthread
    requires s'.tasks == s.tasks[s.Proc() := s.tasks[s.Proc()].(nthread := s.tasks[s.Proc()].nthread + 1)]
    ensures Identified(s')
  {
    assert forall u: nat :: Member(s', u) <==> u == t || Member(s, u);
    assert forall p: nat :: Live(s', p) <==> Live(s, p);
    forall u: nat | Member(s', u)
      ensures TidBelow(s', u)
    {
      assert u != t ==> TidBelow(s, u);
    }
    forall u: nat, v: nat | Member(s', u) && Member(s', v) && SameIds(s', u, v)
      ensures u == v
    {
      assert u != t && v != t ==> SameIds(s, u, v);
      assert (u != t ==> TidBelow(s, u)) && (v != t ==> TidBelow(s, v));
    }
  }

  /** A child's PID is new, and it has one thread. */
  lemma ForkIdentifies(s: Sched)
    requires Inv(s) && CanFork(s) && Identified(s)
    ensures Identified(Fork(s, true).0)
  {
    ForkCases(s, true);
    HeadOfFreeTasks(s);
    NoMembers(s, FirstTask(s, FreeTasks));
    NewProcess(s, Fork(s, true).0, FirstTask(s, FreeTasks), FirstThread(s, FreeThreads));
  }

  lemma NoMembers(s: Sched, c: nat)
    requires Inv(s) && s.In(Task(c), FreeTasks)
    ensures forall t: nat | Member(s, t) :: s.threads[t].task != c
  {
    forall t: nat | Member(s, t)
      ensures s.threads[t].task != c
    {
      if t != s.current {
        assert ThreadAgrees(s, t);
      }
    }
  }

  lemma NewProcess(s: Sched, s': Sched, c: nat, t: nat)
    requires Identified(s) && s'.Sized() && c < NR_TASKS && t < THREAD_STRUCTS && t != s.current
    requires s.In(Task(c), FreeTasks) && s.In(Thread(t), FreeThreads)
    requires forall u: nat | Member(s, u) :: s.threads[u].task != c
    requires forall n | n != Task(c) && n != Thread(t) :: s'.Linked(n) <==> s.Linked(n)
    requires forall n | n != Task(c) && n != Thread(t) && s.Linked(n) && s'.Linked(n) :: s'.rings.home[n] == s.rings.home[n]
    requires s'.In(Task(c), ReadyTasks) && s'.In(Thread(t), Ready(c)) && s'.current == s.current
    requires s'.threads == s.threads[t := s'.threads[t]] && s'.threads[t].task == c && s'.threads[t].tid == 1
    requires s'.lastPid == s.lastPid + 1
    requires s'.tasks == s.tasks[c := s'.tasks[c]] && s'.tasks[c].pid == s'.lastPid && s'.tasks[c].nthread == 2
    ensures Identified(s')
  {
    assert forall u: nat :: Member(s', u) <==> u == t || Member(s, u);
    assert forall p: nat :: Live(s', p) <==> p == c || Live(s, p);
    forall u: nat | Member(s', u)
      ensures TidBelow(s', u)
    {
      assert u != t ==> TidBelow(s, u);
    }
    forall u: nat, v: nat | Member(s', u) && Member(s', v) && SameIds(s', u, v)
      ensures u == v
    {
      assert u != t && v != t ==> SameIds(s, u, v);
    }
  }

  // ------------------------------------------------------------------ over runs

  /** A create or a fork that succeeds: the only steps after which somebody is new. */
  predicate AddsThread(s: Sched, step: Step) {
    || (step.DoCreate? && step.accessOk && s.Q(FreeThreads) != [])
    || (step.DoFork? && step.frames && CanFork(s))
  }

  lemma StepKeepsIds(s: Sched, step: Step)
    requires Inv(s) && Guard(s, step) && !AddsThread(s, step)
    ensures IdsKept(s, Apply(s, step))
  {
    match step
    case TimerTick => TickKeepsIds(s);
    case DoYield => SwitchKeepsIds(s);
    case DoCreate(ok) =>
    case DoJoin(id) => JoinKeepsIds(s, id);
    case DoPthreadExit => PthreadExitKeepsIds(s);
    case DoFork(frames) =>
      if CanFork(s) {
        FailedForkKeepsIds(s);
      }
    case DoExit => ExitKeepsIds(s);
    case _ => MutexStepKeepsIds(s, step);
  }

  /** The new one is the first free struct, and the step dispatches nobody. */
  lemma AddedThread(s: Sched, step: Step)
    requires Inv(s) && AddsThread(s, step)
    ensures HeadThread(s, FreeThreads) && !Member(s, FirstThread(s, FreeThreads))
    ensures Apply(s, step).Sized() && Apply(s, step).current == s.current
    ensures forall t: nat | Member(Apply(s, step), t) :: t == FirstThread(s, FreeThreads) || Member(s, t)
  {
    if step.DoCreate? {
      HeadOfFreeThreads(s);
      var s', t := Created(s);
    } else {
      ForkCases(s, true);
    }
  }

  lemma StepIdentifies(s: Sched, step: Step)
    requires Inv(s) && Guard(s, step) && Identified(s)
    ensures Identified(Apply(s, step))
  {
    if !AddsThread(s, step) {
      StepKeepsIds(s, step);
      KeptIdentified(s, Apply(s, step));
    } else if step.DoCreate? {
      CreateIdentifies(s, true);
    } else {
      ForkIdentifies(s);
    }
  }

  lemma BootIdentified(s: Sched)
    requires Booted(s)
    ensures Identified(s)
  {
    forall p: nat | p < NR_TASKS
      ensures Live(s, p) <==> p < 2
    {
      assert Index(Task(p)) == p && FreeQueueOf(Task(p)) == FreeTasks;
    }
    forall t: nat | Member(s, t)
      ensures t == 1
    {
      assert t != 1 ==> s.Linked(Thread(t)) && s.rings.home[Thread(t)] == FreeQueueOf(Thread(t));
    }
  }

  /** And so does every run. */
  lemma {:induction false} IdentitiesOverRuns(s: Sched, steps: seq<Step>)
    requires Inv(s) && Identified(s) && Legal(s, steps)
    ensures Identified(Exec(s, steps))
    decreases |steps|
  {
    if steps != [] {
      ApplyInv(s, steps[0]);
      StepIdentifies(s, steps[0]);
      IdentitiesOverRuns(Apply(s, steps[0]), steps[1..]);
    }
  }

  /** In every state that a run from boot reaches. */
  lemma IdentitiesFromBoot(s: Sched, steps: seq<Step>)
    requires Booted(s)
    ensures Inv(s) && (Legal(s, steps) ==> Identified(Exec(s, steps)))
  {
    BootInv(s);
    BootIdentified(s);
    if Legal(s, steps) {
      IdentitiesOverRuns(s, steps);
    }
  }
}
