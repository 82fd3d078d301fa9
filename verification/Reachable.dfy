/** What a thread's state says about where it is, in every state a run reaches. */
module Reachable {
  import opened Options
  import opened Rings
  import opened Scheduling
  import opened Agreement
  import opened Steps
  import opened Runs
  import opened Boot
  import opened Joining

  // ------------------------------------------------------------------ the queues

  /** No struct is at two places, be it in one queue or in two. */
  ghost predicate LinkedOnce(s: Sched) {
    forall q, i, h, j |
      q in s.rings.seqs && 0 <= i < |s.rings.seqs[q]| && h in s.rings.seqs && 0 <= j < |s.rings.seqs[h]| ::
      s.rings.seqs[q][i] == s.rings.seqs[h][j] ==> q == h && i == j
  }

  /** A task that is in readyqueue is READY and its first ready thread is its own. */
  predicate Dispatchable(s: Sched, p: nat) {
    && s.Sized() && p < NR_TASKS && s.tasks[p].state == Runnable
    && HeadThread(s, Ready(p))
    && s.threads[FirstThread(s, Ready(p))].task == p
    && s.threads[FirstThread(s, Ready(p))].state == Runnable
  }

  /** The queue invariant, in the terms of the C code. */
  ghost predicate QueueInvariant(s: Sched) {
    && LinkedOnce(s)
    && (forall i | 0 <= i < |s.Q(ReadyTasks)| :: s.Q(ReadyTasks)[i].Task? && Dispatchable(s, s.Q(ReadyTasks)[i].p))
    && (forall i | 0 <= i < |s.Q(FreeTasks)| ::
          && s.Q(FreeTasks)[i].Task?
          && s.Q(Ready(s.Q(FreeTasks)[i].p)) == [] && s.Q(Joining(s.Q(FreeTasks)[i].p)) == [])
    && s.Sized() && s.Proc() < NR_TASKS
    && !s.Linked(Thread(s.current)) && !s.Linked(Task(s.Proc()))
    && s.threads[s.current].state == Running && s.tasks[s.Proc()].state == Running
    && (forall t: nat | t < THREAD_STRUCTS && Busy(s, t) :: SafeToUnlink(s, t))
  }

  /** Running, or in a queue that is not the free one. */
  predicate Busy(s: Sched, t: nat) {
    t == s.current || (s.Linked(Thread(t)) && s.rings.home[Thread(t)] != FreeThreads)
  }

  /** list_del runs on the thread if and only if its node is linked, and RUN is the current
      thread's mark alone. */
  predicate SafeToUnlink(s: Sched, t: nat)
    requires s.Sized() && t < THREAD_STRUCTS
  {
    && (s.threads[t].state != Running <==> s.Linked(Thread(t)))
    && (s.threads[t].state == Running <==> t == s.current)
  }

  lemma InvIsQueueInvariant(s: Sched)
    requires Inv(s)
    ensures QueueInvariant(s)
  {
    InvLinkedOnce(s);
    ReadyTasksDispatch(s);
    FreeTasksAreEmpty(s);
    forall t: nat | t < THREAD_STRUCTS && Busy(s, t)
      ensures SafeToUnlink(s, t)
    {
      if t != s.current {
        assert ThreadAgrees(s, t);
      }
    }
  }

  lemma InvLinkedOnce(s: Sched)
    requires Inv(s)
    ensures LinkedOnce(s)
  {
    forall q, i, h, j |
      q in s.rings.seqs && 0 <= i < |s.rings.seqs[q]| && h in s.rings.seqs && 0 <= j < |s.rings.seqs[h]|
      && s.rings.seqs[q][i] == s.rings.seqs[h][j]
      ensures q == h && i == j
    {
      assert s.rings.home[s.rings.seqs[q][i]] == q;
      assert s.rings.home[s.rings.seqs[h][j]] == h;
      assert NoDup(s.rings.seqs[q]);
    }
  }

  lemma ReadyTasksDispatch(s: Sched)
    requires Inv(s)
    ensures forall i | 0 <= i < |s.Q(ReadyTasks)| :: s.Q(ReadyTasks)[i].Task? && Dispatchable(s, s.Q(ReadyTasks)[i].p)
  {
    forall i | 0 <= i < |s.Q(ReadyTasks)|
      ensures s.Q(ReadyTasks)[i].Task? && Dispatchable(s, s.Q(ReadyTasks)[i].p)
    {
      QueuedAt(s, ReadyTasks, i);
      HeadOfReady(s, s.Q(ReadyTasks)[i].p);
    }
  }

  lemma FreeTasksAreEmpty(s: Sched)
    requires Inv(s)
    ensures forall i | 0 <= i < |s.Q(FreeTasks)| ::
              && s.Q(FreeTasks)[i].Task?
              && s.Q(Ready(s.Q(FreeTasks)[i].p)) == [] && s.Q(Joining(s.Q(FreeTasks)[i].p)) == []
  {
    forall i | 0 <= i < |s.Q(FreeTasks)|
      ensures s.Q(FreeTasks)[i].Task?
      ensures s.Q(Ready(s.Q(FreeTasks)[i].p)) == [] && s.Q(Joining(s.Q(FreeTasks)[i].p)) == []
    {
      FreeTaskAt(s, i);
    }
  }

  /** Every state that a run from boot reaches. */
  lemma QueuesOverRuns(s: Sched, steps: seq<Step>)
    requires Booted(s)
    ensures Inv(s) && (Legal(s, steps) ==> QueueInvariant(Exec(s, steps)))
  {
    BootInv(s);
    if Legal(s, steps) {
      InvIsQueueInvariant(Exec(s, steps));
    }
  }

  // ------------------------------------------------------------------ the states

  /** READY means in the own process's ready list, BLOCKED means in its blocked list or on
      a mutex, RUN means running. */
  predicate StateSaysWhere(s: Sched, t: nat)
    requires s.Sized() && t < THREAD_STRUCTS
  {
    && (s.threads[t].state == Runnable <==> s.In(Thread(t), Ready(s.threads[t].task)))
    && (s.threads[t].state == Blocked <==>
          s.Linked(Thread(t)) && (s.rings.home[Thread(t)] == Joining(s.threads[t].task) || s.rings.home[Thread(t)].Waiting?))
    && (s.threads[t].state == Running <==> t == s.current)
  }

  predicate Joins(s: Sched, t: nat) {
    s.Linked(Thread(t)) && s.rings.home[Thread(t)].Joining?
  }

  ghost predicate JoinersMarked(s: Sched) {
    s.Sized() && forall t: nat | t < THREAD_STRUCTS && Joins(s, t) :: s.threads[t].state == Blocked
  }

  lemma StatesIff(s: Sched)
    requires Inv(s)
    ensures (forall t: nat | t < THREAD_STRUCTS && Busy(s, t) :: StateSaysWhere(s, t)) <==> JoinersMarked(s)
  {
    forall t: nat | t < THREAD_STRUCTS && Busy(s, t)
      ensures StateSaysWhere(s, t) <==> (Joins(s, t) ==> s.threads[t].state == Blocked)
    {
      if t != s.current {
        assert ThreadAgrees(s, t);
      }
    }
    assert forall t: nat | t < THREAD_STRUCTS && Joins(s, t) :: Busy(s, t);
  }

  /** Who is in a join queue was there before with the same mark, or is BLOCKED. */
  ghost predicate MarksKept(s: Sched, s': Sched) {
    && s.Sized() && s'.Sized()
    && forall t: nat | t < THREAD_STRUCTS && Joins(s', t) ::
         s'.threads[t].state == Blocked || (Joins(s, t) && s.threads[t].state == s'.threads[t].state)
  }

  lemma UpdateKeepsMarks(s: Sched, t: nat, dst: Option<Queue>)
    requires s.Sized() && t < THREAD_STRUCTS
    requires s.threads[t].state != Running ==> s.Linked(Thread(t)) && s.rings.home[Thread(t)] in s.rings.seqs
    requires dst.Some? ==> dst.value in s.rings.seqs
    requires dst.None? ==> s.threads[t].state != Running
    ensures MarksKept(s, UpdateThread(s, t, dst))
  {
  }

  lemma NextThreadKeepsMarks(s: Sched)
    requires s.Sized() && HeadThread(s, Ready(s.Proc()))
    requires s.threads[FirstThread(s, Ready(s.Proc()))].state != Running
    ensures MarksKept(s, NextThread(s))
  {
    UpdateKeepsMarks(s, FirstThread(s, Ready(s.Proc())), None);
  }

  lemma NextProcessKeepsMarks(s: Sched)
    requires s.Sized() && HeadTask(s, ReadyTasks)
    requires HeadThread(s, Ready(FirstTask(s, ReadyTasks)))
    ensures MarksKept(s, NextProcess(s))
  {
  }

  lemma TickKeepsMarks(s: Sched)
    requires Inv(s)
    ensures MarksKept(s, Tick(s))
  {
    var s1 := Decremented(s);
    SettledIgnoresQuanta(s, s1);
    if NeedsSched(s1) == 1 {
      ParkProcessDispatches(s1);
      UpdateKeepsMarks(UpdateProcess(s1, s1.Proc()), s1.current, Some(Ready(s1.Proc())));
      NextProcessKeepsMarks(ParkProcess(s1));
    } else if NeedsSched(s1) == 2 {
      SwitchKeepsMarks(s1);
    }
  }

  lemma SwitchKeepsMarks(s: Sched)
    requires Settled(s)
    ensures HeadThread(ParkInReady(s), Ready(ParkInReady(s).Proc()))
    ensures MarksKept(s, NextThread(ParkInReady(s)))
  {
    ParkInReadyDispatches(s);
    HeadOfReady(ParkInReady(s), s.Proc());
    UpdateKeepsMarks(s, s.current, Some(Ready(s.Proc())));
    NextThreadKeepsMarks(ParkInReady(s));
  }

  lemma BlockingKeepsMarks(s: Sched, q: Queue)
    requires Inv(s) && Parkable(s, q) && !q.Ready?
    requires s.Q(Ready(s.Proc())) != []
    ensures var s1 := UpdateThread(s, s.current, Some(q));
            HeadThread(s1, Ready(s1.Proc())) && MarksKept(s, NextThread(s1))
  {
    ParkElsewhereDispatches(s, q);
    ParkThread(s, q);
    HeadOfReady(UpdateThread(s, s.current, Some(q)), s.Proc());
    UpdateKeepsMarks(s, s.current, Some(q));
    NextThreadKeepsMarks(UpdateThread(s, s.current, Some(q)));
  }

  lemma CreateKeepsMarks(s: Sched, ok: bool)
    requires Inv(s)
    ensures MarksKept(s, Create(s, ok).0)
  {
    CreateInv(s, ok);
  }

  lemma ForkKeepsMarks(s: Sched, frames: bool)
    requires Inv(s)
    ensures MarksKept(s, Fork(s, frames).0)
  {
    if CanFork(s) {
      ForkCases(s, frames);
    }
  }

  lemma ExitKeepsMarks(s: Sched)
    requires Inv(s) && ExitGuard(s)
    ensures MarksKept(s, Exit(s))
  {
    ExitDispatches(s);
    ReleasedQueues(s);
    ReleasedKeepsMarks(s, Released(s));
    NextProcessKeepsMarks(Released(s));
  }

  lemma ReleasedKeepsMarks(s: Sched, s': Sched)
    requires s.Sized() && s.Proc() < NR_TASKS && IsReleased(s, s', s.Proc()) && OthersKept(s, s', s.Proc())
    ensures MarksKept(s, s')
  {
    forall t: nat | t < THREAD_STRUCTS && Joins(s', t)
      ensures Joins(s, t) && s.threads[t].state == s'.threads[t].state
    {
      assert s.Linked(Thread(t));
    }
  }

  lemma MutexStepKeepsMarks(s: Sched, step: Step)
    requires Inv(s) && Guard(s, step)
    requires step.DoMutexInit? || step.DoMutexLock? || step.DoMutexUnlock? || step.DoMutexDestroy?
    ensures MarksKept(s, Apply(s, step))
  {
    if step.DoMutexLock? && ValidMutex(step.m) && s.mutexes[step.m].locked {
      assert MutexAgrees(s, step.m);
      BlockingKeepsMarks(s, Waiting(step.m));
    } else if step.DoMutexUnlock? && ValidMutex(step.m) && s.mutexes[step.m].locked {
      UnlockKeepsMarks(s, step.m);
    }
  }

  lemma UnlockKeepsMarks(s: Sched, m: nat)
    requires Inv(s) && UnlockGuard(s, m) && ValidMutex(m) && s.mutexes[m].locked
    ensures MarksKept(s, MutexUnlock(s, m).0)
  {
    assert ThreadAgrees(s, FirstThread(s, Waiting(m)));
    UpdateKeepsMarks(s, FirstThread(s, Waiting(m)), Some(Ready(s.Proc())));
  }

  lemma StepKeepsMarks(s: Sched, step: Step)
    requires Inv(s) && Guard(s, step) && !step.DoPthreadExit?
    ensures MarksKept(s, Apply(s, step))
  {
    match step
    case TimerTick => TickKeepsMarks(s);
    case DoYield => SwitchKeepsMarks(s);
    case DoCreate(ok) => CreateKeepsMarks(s, ok);
    case DoJoin(id) => JoinKeepsMarks(s, id);
    case DoFork(frames) => ForkKeepsMarks(s, frames);
    case DoExit => ExitKeepsMarks(s);
    case _ => MutexStepKeepsMarks(s, step);
  }

  lemma JoinKeepsMarks(s: Sched, id: int)
    requires Inv(s) && JoinGuard(s)
    ensures MarksKept(s, Join(s, id).0)
  {
    BlockedByIsFree(s, id);
    BlockingKeepsMarks(SetThread(s, s.current, s.threads[s.current].(blockedBy := id)), Joining(s.Proc()));
  }

  /** The queue form of the same statement. */
  lemma MarkedByQueue(s: Sched)
    requires Inv(s)
    ensures JoinersMarked(s) <==> forall p: nat | p < NR_TASKS :: JoinersBlocked(s, p)
  {
    forall p: nat | p < NR_TASKS && JoinersMarked(s)
      ensures JoinersBlocked(s, p)
    {
      OtherJoiners(s, p);
      assert forall i | 0 <= i < |s.Q(Joining(p))| :: s.rings.home[s.rings.seqs[Joining(p)][i]] == Joining(p);
      assert forall i | 0 <= i < |s.Q(Joining(p))| :: Joins(s, s.Q(Joining(p))[i].t);
    }
    if forall p: nat | p < NR_TASKS :: JoinersBlocked(s, p) {
      forall t: nat | t < THREAD_STRUCTS && Joins(s, t)
        ensures s.threads[t].state == Blocked
      {
        assert ThreadAgrees(s, t);
        var p := s.rings.home[Thread(t)].p;
        var i :| 0 <= i < |s.rings.seqs[Joining(p)]| && s.rings.seqs[Joining(p)][i] == Thread(t);
        assert JoinersBlocked(s, p) && s.Q(Joining(p))[i] == Thread(t);
      }
    }
  }

  /** An exiting thread touches no other process's joiners. */
  lemma ExitLeavesOtherJoiners(s: Sched, p: nat)
    requires Inv(s) && PthreadExitGuard(s) && p < NR_TASKS && p != s.Proc()
    ensures PthreadExit(s).Sized() && (JoinersBlocked(PthreadExit(s), p) <==> JoinersBlocked(s, p))
  {
    var s' := PthreadExit(s);
    PthreadExitEffect(s);
    PthreadExitInv(s);
    OtherJoiners(s', p);
    OtherJoinersKept(s, s', p);
  }

  lemma OtherJoinersKept(s: Sched, s': Sched, p: nat)
    requires AfterExit(s, s') && WellFormed(s.rings) && p != s.Proc() && AllThreads(s.Q(Joining(p)))
    requires forall i | 0 <= i < |s'.Q(Joining(p))| :: s'.Q(Joining(p))[i] != Thread(s'.current)
    ensures JoinersBlocked(s', p) <==> JoinersBlocked(s, p)
  {
    var js, own := s.Q(Joining(p)), s.Q(Joining(s.Proc()));
    assert s'.Q(Joining(p)) == js;
    forall i | 0 <= i < |js|
      ensures s'.threads[js[i].t].state == s.threads[js[i].t].state
    {
      assert s.rings.home[s.rings.seqs[Joining(p)][i]] == Joining(p);
      assert forall k | 0 <= k < |own| :: s.rings.home[s.rings.seqs[Joining(s.Proc())][k]] == Joining(s.Proc());
      assert StateAfterExit(s, js[i].t, s'.threads[js[i].t], s'.current);
    }
  }

  lemma PthreadExitMarksIff(s: Sched)
    requires Inv(s) && PthreadExitGuard(s) && JoinersMarked(s)
    ensures JoinersMarked(PthreadExit(s)) <==> !JoinerBehindHead(s)
  {
    PthreadExitInv(s);
    MarkedByQueue(s);
    MarkedByQueue(PthreadExit(s));
    ExitKeepsMarksIff(s);
    forall p: nat | p < NR_TASKS && p != s.Proc()
      ensures JoinersBlocked(PthreadExit(s), p)
    {
      ExitLeavesOtherJoiners(s, p);
    }
  }

  /** The single step after which a state can say something else than the queues: the exit
      of a thread with a joiner behind the head of the join queue. */
  lemma StepKeepsStatesIff(s: Sched, step: Step)
    requires Inv(s) && Guard(s, step) && JoinersMarked(s)
    ensures JoinersMarked(Apply(s, step)) <==> !(step.DoPthreadExit? && JoinerBehindHead(s))
  {
    if step.DoPthreadExit? {
      PthreadExitMarksIff(s);
    } else {
      StepKeepsMarks(s, step);
    }
  }

  /** No thread of the run exits with a joiner behind the head. */
  ghost predicate JoinersInFront(s: Sched, steps: seq<Step>)
    requires Inv(s) && Legal(s, steps)
    decreases |steps|
  {
    steps == [] || (
      ApplyInv(s, steps[0]);
      !(steps[0].DoPthreadExit? && JoinerBehindHead(s)) && JoinersInFront(Apply(s, steps[0]), steps[1..]))
  }

  lemma {:induction false} MarksOverRun(s: Sched, steps: seq<Step>)
    requires Inv(s) && Legal(s, steps) && JoinersMarked(s) && JoinersInFront(s, steps)
    ensures JoinersMarked(Exec(s, steps))
    decreases |steps|
  {
    if steps != [] {
      ApplyInv(s, steps[0]);
      StepKeepsStatesIff(s, steps[0]);
      MarksOverRun(Apply(s, steps[0]), steps[1..]);
    }
  }

  /** In every state of such a run from boot, every thread's state says where it is. */
  lemma StatesOverRuns(s: Sched, steps: seq<Step>)
    requires Booted(s)
    ensures Inv(s) && (Legal(s, steps) && JoinersInFront(s, steps) ==>
              forall t: nat | t < THREAD_STRUCTS && Busy(Exec(s, steps), t) :: StateSaysWhere(Exec(s, steps), t))
  {
    BootInv(s);
    if Legal(s, steps) && JoinersInFront(s, steps) {
      MarksOverRun(s, steps);
      StatesIff(Exec(s, steps));
    }
  }
}
