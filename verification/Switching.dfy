/** The three shapes a step can have for someone waiting in a ready queue: nothing is
    dispatched, the next thread of the same process is, or the next process is. */
module Switching {
  import opened Options
  import opened Rings
  import opened Scheduling
  import opened Agreement
  import opened Steps
  import opened Runs

  /** Structs that are not free keep their quanta. */
  ghost predicate QuantaKept(s: Sched, s': Sched) {
    && s.Sized() && s'.Sized()
    && (forall t: nat | t < THREAD_STRUCTS && !s.In(Thread(t), FreeThreads) :: s'.threads[t].quantum == s.threads[t].quantum)
    && (forall p: nat | p < NR_TASKS && !s.In(Task(p), FreeTasks) :: s'.tasks[p].quantum == s.tasks[p].quantum)
  }

  /** Mutex queues lose nobody and gain only at their tails. */
  ghost predicate WaitersKept(s: Sched, s': Sched) {
    forall m: nat :: s.Q(Waiting(m)) <= s'.Q(Waiting(m))
  }

  /** The running thread goes on; ready queues at most grow at their tails. */
  ghost predicate Continues(s: Sched, s': Sched) {
    && QuantaKept(s, s')
    && s'.current == s.current && s'.Proc() == s.Proc()
    && s'.remP == s.remP && s'.remT == s.remT
    && s.Q(ReadyTasks) <= s'.Q(ReadyTasks)
    && (forall p: nat | Live(s, p) :: s.Q(Ready(p)) <= s'.Q(Ready(p)))
  }

  /** The first of the process's ready threads takes over; others may join at the tail. */
  ghost predicate SwitchesThread(s: Sched, s': Sched) {
    && QuantaKept(s, s')
    && s'.Proc() == s.Proc() && s'.remP == s.remP
    && s'.Q(ReadyTasks) == s.Q(ReadyTasks)
    && (forall p: nat | p != s.Proc() :: s'.Q(Ready(p)) == s.Q(Ready(p)))
    && s.Q(Ready(s.Proc())) <= [Thread(s'.current)] + s'.Q(Ready(s.Proc()))
    && s'.remT == s'.threads[s'.current].quantum
    && WaitersKept(s, s')
  }

  /** The first ready process takes over with the first of its ready threads. */
  ghost predicate SwitchesProcess(s: Sched, s': Sched) {
    && QuantaKept(s, s')
    && s'.Proc() < NR_TASKS && s'.Proc() != s.Proc()
    && s.Q(ReadyTasks) != []
    && s.Q(ReadyTasks) <= [Task(s'.Proc())] + s'.Q(ReadyTasks)
    && s'.remP == s'.tasks[s'.Proc()].quantum
    && s.Q(Ready(s'.Proc())) == [Thread(s'.current)] + s'.Q(Ready(s'.Proc()))
    && s'.remT == s'.threads[s'.current].quantum
    && (forall p: nat | p != s.Proc() && p != s'.Proc() :: s'.Q(Ready(p)) == s.Q(Ready(p)))
    && WaitersKept(s, s')
  }

  lemma NextThreadEffect(s: Sched)
    requires Shape(s) && HeadThread(s, Ready(s.Proc()))
    requires s.threads[FirstThread(s, Ready(s.Proc()))].state != Running
    ensures var s' := NextThread(s);
            && s'.Sized()
            && s'.rings == PopHead(s.rings, Ready(s.Proc()))
            && s.Q(Ready(s.Proc())) == [Thread(s'.current)] + s'.Q(Ready(s.Proc()))
            && (forall h | h != Ready(s.Proc()) :: s'.Q(h) == s.Q(h))
            && s'.tasks == s.tasks && s'.remP == s.remP
            && (forall t | 0 <= t < THREAD_STRUCTS :: s'.threads[t].quantum == s.threads[t].quantum)
            && (forall t | 0 <= t < THREAD_STRUCTS :: s'.threads[t].task == s.threads[t].task)
            && s'.remT == s'.threads[s'.current].quantum
  {
    NextThreadRings(s);
    NextThreadFrame(s);
    NextThreadFrom(s, NextThread(s));
  }

  lemma NextThreadRings(s: Sched)
    requires Shape(s) && HeadThread(s, Ready(s.Proc()))
    requires s.threads[FirstThread(s, Ready(s.Proc()))].state != Running
    ensures NextThread(s).rings == PopHead(s.rings, Ready(s.Proc()))
  {
    DeleteHead(s.rings, Ready(s.Proc()));
  }

  lemma NextThreadFrame(s: Sched)
    requires s.Sized() && HeadThread(s, Ready(s.Proc()))
    ensures var s', t := NextThread(s), FirstThread(s, Ready(s.Proc()));
            && s'.threads == s.threads[t := s.threads[t].(state := Running)]
            && s' == s.(rings := s'.rings, threads := s'.threads, current := t, remT := s.threads[t].quantum)
  {
  }

  lemma NextThreadFrom(s: Sched, s': Sched)
    requires s.Sized() && HeadThread(s, Ready(s.Proc())) && s'.rings == PopHead(s.rings, Ready(s.Proc()))
    requires var t := FirstThread(s, Ready(s.Proc()));
             && s'.threads == s.threads[t := s.threads[t].(state := Running)]
             && s' == s.(rings := s'.rings, threads := s'.threads, current := t, remT := s.threads[t].quantum)
    ensures s'.Sized() && s.Q(Ready(s.Proc())) == [Thread(s'.current)] + s'.Q(Ready(s.Proc()))
    ensures forall h | h != Ready(s.Proc()) :: s'.Q(h) == s.Q(h)
    ensures forall t | 0 <= t < THREAD_STRUCTS :: s'.threads[t].quantum == s.threads[t].quantum
    ensures forall t | 0 <= t < THREAD_STRUCTS :: s'.threads[t].task == s.threads[t].task
    ensures s'.remT == s'.threads[s'.current].quantum
  {
  }

  /** `s1` is `s` with the running thread parked somewhere, and possibly a joiner woken. */
  ghost predicate IsParked(s: Sched, s1: Sched) {
    && Shape(s1) && QuantaKept(s, s1)
    && s1.Proc() == s.Proc() && s1.remP == s.remP
    && (forall h | h == ReadyTasks || (h.Ready? && h.p != s.Proc()) :: s1.Q(h) == s.Q(h))
    && s.Q(Ready(s.Proc())) <= s1.Q(Ready(s.Proc())) && WaitersKept(s, s1)
    && HeadThread(s1, Ready(s.Proc()))
    && var head := s1.threads[FirstThread(s1, Ready(s.Proc()))];
       head.task == s.Proc() && head.state != Running
  }

  lemma ParkedSwitches(s: Sched, s1: Sched)
    requires s.Sized() && IsParked(s, s1)
    ensures SwitchesThread(s, NextThread(s1))
  {
    NextThreadEffect(s1);
  }

  lemma YieldSwitches(s: Sched)
    requires Inv(s)
    ensures SwitchesThread(s, Yield(s))
  {
    var s1 := ParkedInReady(s);
    ParkedSwitches(s, s1);
  }

  /** The state between parking the running thread and dispatching the next. */
  lemma ParkedInReady(s: Sched) returns (s1: Sched)
    requires Settled(s)
    ensures IsParked(s, s1) && s1.Sized() && HeadThread(s1, Ready(s1.Proc()))
    ensures s1 == ParkInReady(s)
  {
    ParkInReadyAgrees(s);
    s1 := ParkInReady(s);
    ParkingStructs(s, Ready(s.Proc()));
    ParkedFrom(s, s1, Ready(s.Proc()));
  }

  /** Parking in `q` is the whole difference between `s` and `s1`. */
  lemma ParkedFrom(s: Sched, s1: Sched, q: Queue)
    requires s.Sized() && Shape(s1) && Agrees(s1) && QuantaKept(s, s1)
    requires s1.Proc() == s.Proc() < NR_TASKS && s1.remP == s.remP
    requires q != ReadyTasks && (q.Ready? ==> q.p == s.Proc()) && s1.Q(Ready(s.Proc())) != []
    requires forall h :: s1.Q(h) == if h == q then s.Q(h) + [Thread(s.current)] else s.Q(h)
    ensures IsParked(s, s1) && HeadThread(s1, Ready(s1.Proc()))
  {
    HeadOfReady(s1, s.Proc());
  }

  lemma ParkingStructs(s: Sched, q: Queue)
    requires Settled(s) && q in s.rings.seqs
    ensures var s1 := UpdateThread(s, s.current, Some(q));
            QuantaKept(s, s1) && s1.remP == s.remP && s1.Proc() == s.Proc()
  {
  }

  lemma BlockingSwitches(s: Sched, s1: Sched, q: Queue)
    requires Inv(s1) && Parkable(s1, q) && !q.Ready?
    requires s1.Q(Ready(s1.Proc())) != []
    requires s.Sized() && s1 == SetThread(s, s.current, s1.threads[s.current])
    requires s1.threads[s.current] == s.threads[s.current].(blockedBy := s1.threads[s.current].blockedBy)
    ensures HeadThread(UpdateThread(s1, s1.current, Some(q)), Ready(s1.Proc()))
    ensures UpdateThread(s1, s1.current, Some(q)).Proc() == s1.Proc()
    ensures SwitchesThread(s, NextThread(UpdateThread(s1, s1.current, Some(q))))
  {
    var s2 := ParkedElsewhere(s1, q);
    StillParked(s, s1, s2);
    ParkedSwitches(s, s2);
  }

  lemma StillParked(s: Sched, s1: Sched, s2: Sched)
    requires s.Sized() && s1.Sized() && s1 == SetThread(s, s.current, s1.threads[s.current])
    requires s1.threads[s.current] == s.threads[s.current].(blockedBy := s1.threads[s.current].blockedBy)
    requires IsParked(s1, s2)
    ensures IsParked(s, s2)
  {
  }

  lemma ParkedElsewhere(s: Sched, q: Queue) returns (s1: Sched)
    requires Inv(s) && Parkable(s, q) && !q.Ready? && s.Q(Ready(s.Proc())) != []
    ensures IsParked(s, s1) && s1.Sized() && s1.Proc() == s.Proc() && HeadThread(s1, Ready(s1.Proc()))
    ensures s1 == UpdateThread(s, s.current, Some(q))
  {
    ParkElsewhereDispatches(s, q);
    ParkThread(s, q);
    s1 := UpdateThread(s, s.current, Some(q));
    ParkingStructs(s, q);
    ParkedFrom(s, s1, q);
  }

  lemma JoinSwitches(s: Sched, id: int)
    requires Inv(s) && JoinGuard(s)
    ensures SwitchesThread(s, Join(s, id).0)
  {
    BlockedByIsFree(s, id);
    BlockingSwitches(s, SetThread(s, s.current, s.threads[s.current].(blockedBy := id)), Joining(s.Proc()));
  }

  lemma LockSwitches(s: Sched, n: int)
    requires Inv(s) && LockGuard(s, n) && ValidMutex(n) && s.mutexes[n].locked
    ensures SwitchesThread(s, MutexLock(s, n).0)
  {
    assert MutexAgrees(s, n);
    BlockingSwitches(s, s, Waiting(n));
  }

  /** A thread moved from another kind of queue joins a ready list at its tail. */
  lemma MovedGrows(s: Sched, s': Sched, q: Queue, p: nat)
    requires {q, Ready(p)} <= s.rings.seqs.Keys && s.Q(q) != [] && !q.Ready? && q != ReadyTasks
    requires s'.rings == Moved(s.rings, q, Ready(p))
    ensures s'.Q(Ready(p)) == s.Q(Ready(p)) + [s.Q(q)[0]]
    ensures forall h | h != Ready(p) && h != q :: s'.Q(h) == s.Q(h)
  {
  }

  lemma WokenRings(s: Sched, p: nat, tid: int)
    requires Shape(s) && p < NR_TASKS
    requires s.Q(Joining(p)) != [] ==> HeadThread(s, Joining(p))
    ensures Woken(s, p, tid).rings ==
              if s.Q(Joining(p)) != [] && WaitsFor(s, s.Q(Joining(p))[0], tid)
              then Moved(s.rings, Joining(p), Ready(p)) else s.rings
  {
    if s.Q(Joining(p)) != [] {
      DeleteAppendMoves(s.rings, Joining(p), Ready(p));
    }
  }

  lemma WokenStructs(s: Sched, p: nat, tid: int)
    requires Shape(s) && p < NR_TASKS
    requires s.Q(Joining(p)) != [] ==> HeadThread(s, Joining(p))
    ensures var s' := Woken(s, p, tid);
            && s'.Sized() && s' == s.(rings := s'.rings, threads := s'.threads)
            && (forall t | 0 <= t < THREAD_STRUCTS :: s'.threads[t].quantum == s.threads[t].quantum)
            && (forall t | 0 <= t < THREAD_STRUCTS :: s'.threads[t].task == s.threads[t].task)
  {
  }

  /** The scan after an exit only ever adds to the ready list. */
  lemma WokenQueues(s: Sched, p: nat, tid: int)
    requires Shape(s) && p < NR_TASKS
    requires s.Q(Joining(p)) != [] ==> HeadThread(s, Joining(p))
    ensures var s' := Woken(s, p, tid);
            && s.Q(Ready(p)) <= s'.Q(Ready(p))
            && (forall h | h != Ready(p) && h != Joining(p) :: s'.Q(h) == s.Q(h))
  {
    WokenRings(s, p, tid);
    if s.Q(Joining(p)) != [] && WaitsFor(s, s.Q(Joining(p))[0], tid) {
      MovedGrows(s, Woken(s, p, tid), Joining(p), p);
    }
  }

  lemma PthreadExitSwitches(s: Sched)
    requires Inv(s) && PthreadExitGuard(s)
    ensures SwitchesThread(s, PthreadExit(s))
  {
    var p, tid := s.Proc(), s.threads[s.current].tid;
    PthreadExitDispatches(s);
    var s2 := ScanOfExit(s, p, tid);
    ParkedSwitches(s, s2);
  }

  lemma ScanOfExit(s: Sched, p: nat, tid: int) returns (s2: Sched)
    requires Inv(s) && PthreadExitGuard(s) && p == s.Proc() && tid == s.threads[s.current].tid
    requires Retired(s).Q(Joining(p)) != [] ==> HeadThread(Retired(s), Joining(p))
    requires HeadThread(Woken(Retired(s), p, tid), Ready(p))
    ensures s2 == Woken(Retired(s), p, tid) && IsParked(s, s2)
  {
    RetiredAgrees(s);
    var s1 := Retired(s);
    WokenAgrees(s1, p, tid);
    ScanParks(s, s1, p, tid);
    s2 := Woken(s1, p, tid);
  }

  lemma ScanParks(s: Sched, s1: Sched, p: nat, tid: int)
    requires s.Sized() && p == s.Proc() && Shape(s1) && p < NR_TASKS
    requires s1 == s.(rings := s1.rings)
    requires forall h | h == ReadyTasks || h.Ready? || h.Waiting? :: s1.Q(h) == s.Q(h)
    requires s1.Q(Joining(p)) != [] ==> HeadThread(s1, Joining(p))
    requires Shape(Woken(s1, p, tid)) && Agrees(Woken(s1, p, tid)) && HeadThread(Woken(s1, p, tid), Ready(p))
    ensures IsParked(s, Woken(s1, p, tid))
  {
    WokenStructs(s1, p, tid);
    WokenQueues(s1, p, tid);
    HeadOfReady(Woken(s1, p, tid), p);
  }

  // ------------------------------------------------------------------ nothing dispatched

  lemma CreateContinues(s: Sched, ok: bool)
    requires Inv(s)
    ensures Continues(s, Create(s, ok).0)
  {
    if ok && s.Q(FreeThreads) != [] {
      HeadOfFreeThreads(s);
      var s' := Create(s, ok).0;
      DeleteAppendMoves(s.rings, FreeThreads, Ready(s.Proc()));
      assert s'.rings == Moved(s.rings, FreeThreads, Ready(s.Proc()));
      MovedContinues(s, s', FreeThreads);
    }
  }

  lemma UnlockContinues(s: Sched, n: int)
    requires Inv(s) && UnlockGuard(s, n)
    ensures Continues(s, MutexUnlock(s, n).0)
  {
    if ValidMutex(n) && s.mutexes[n].locked {
      assert MutexAgrees(s, n) && ThreadAgrees(s, FirstThread(s, Waiting(n)));
      UnlockRings(s, n);
      UnlockStructs(s, n);
      MovedContinues(s, MutexUnlock(s, n).0, Waiting(n));
    }
  }

  lemma MovedContinues(s: Sched, s': Sched, q: Queue)
    requires s.Sized() && {q, Ready(s.Proc())} <= s.rings.seqs.Keys && s.Q(q) != [] && !q.Ready? && q != ReadyTasks
    requires s'.rings == Moved(s.rings, q, Ready(s.Proc())) && QuantaKept(s, s')
    requires s'.current == s.current && s'.Proc() == s.Proc() && s'.remP == s.remP && s'.remT == s.remT
    ensures Continues(s, s')
  {
    MovedGrows(s, s', q, s.Proc());
  }

  lemma UnlockStructs(s: Sched, n: int)
    requires Inv(s) && UnlockGuard(s, n)
    ensures var s' := MutexUnlock(s, n).0;
            && QuantaKept(s, s') && s'.current == s.current && s'.Proc() == s.Proc()
            && s'.remP == s.remP && s'.remT == s.remT
  {
  }

  lemma UnlockRings(s: Sched, n: int)
    requires Inv(s) && UnlockGuard(s, n) && ValidMutex(n) && s.mutexes[n].locked && s.mutexes[n].owner >= 0
    requires s.threads[FirstThread(s, Waiting(n))].state == Blocked
    ensures MutexUnlock(s, n).0.rings == Moved(s.rings, Waiting(n), Ready(s.Proc()))
  {
    DeleteAppendMoves(s.rings, Waiting(n), Ready(s.Proc()));
  }

  lemma ForkContinues(s: Sched, frames: bool)
    requires Inv(s)
    ensures Continues(s, Fork(s, frames).0)
  {
    if CanFork(s) {
      ForkCases(s, frames);
      HeadOfFreeTasks(s);
      var c, t := FirstTask(s, FreeTasks), FirstThread(s, FreeThreads);
      TakenContinues(s, Taken(s));
      if frames {
        ChildContinues(s, Taken(s), c, t);
      }
    }
  }

  lemma TakenContinues(s: Sched, s1: Sched)
    requires s.Sized() && HeadTask(s, FreeTasks) && HeadThread(s, FreeThreads) && s1 == Taken(s)
    requires FirstThread(s, FreeThreads) != s.current
    ensures Continues(s, s1) && s1.Sized()
    ensures forall q | q != FreeTasks && q != FreeThreads :: s1.Q(q) == s.Q(q)
  {
  }

  lemma ChildContinues(s: Sched, s1: Sched, c: nat, t: nat)
    requires s.Sized() && s1.Sized() && Continues(s, s1) && c < NR_TASKS && t < THREAD_STRUCTS && t != s.current
    requires {ReadyTasks, Ready(c)} <= s1.rings.seqs.Keys && s.In(Task(c), FreeTasks) && s.In(Thread(t), FreeThreads)
    ensures Continues(s, ReadyChild(s1, c, t))
  {
  }

  lemma ForkKeepsWaiters(s: Sched, frames: bool)
    requires Inv(s)
    ensures WaitersKept(s, Fork(s, frames).0)
  {
    if CanFork(s) {
      TakenWellFormed(s);
      HeadOfFreeTasks(s);
      forall m: nat
        ensures Fork(s, frames).0.Q(Waiting(m)) == s.Q(Waiting(m))
      {
      }
    }
  }

  lemma MutexInitContinues(s: Sched, n: int)
    requires Inv(s)
    ensures Continues(s, MutexInit(s, n).0)
  {
  }

  lemma LockContinues(s: Sched, n: int)
    requires Inv(s) && LockGuard(s, n) && !(ValidMutex(n) && s.mutexes[n].locked)
    ensures Continues(s, MutexLock(s, n).0)
  {
  }

  lemma DestroyContinues(s: Sched, n: int)
    requires Inv(s) && DestroyGuard(s, n)
    ensures Continues(s, MutexDestroy(s, n).0)
  {
  }

  // ------------------------------------------------------------------ the next process

  lemma NextProcessRings(s: Sched)
    requires Shape(s) && HeadTask(s, ReadyTasks) && HeadThread(s, Ready(FirstTask(s, ReadyTasks)))
    ensures var p := FirstTask(s, ReadyTasks);
            NextProcess(s).rings == PopHead(PopHead(s.rings, ReadyTasks), Ready(p))
  {
    var p := FirstTask(s, ReadyTasks);
    DeleteHead(s.rings, ReadyTasks);
    DeleteHead(PopHead(s.rings, ReadyTasks), Ready(p));
  }

  ghost predicate Dispatched(s: Sched, s': Sched) {
    && s.Sized() && s'.Sized()
    && s.Q(ReadyTasks) == [Task(s'.Proc())] + s'.Q(ReadyTasks)
    && s'.Proc() < NR_TASKS
    && s.Q(Ready(s'.Proc())) == [Thread(s'.current)] + s'.Q(Ready(s'.Proc()))
    && (forall h | h != ReadyTasks && h != Ready(s'.Proc()) :: s'.Q(h) == s.Q(h))
    && (forall t | 0 <= t < THREAD_STRUCTS :: s'.threads[t].quantum == s.threads[t].quantum)
    && (forall x | 0 <= x < NR_TASKS :: s'.tasks[x].quantum == s.tasks[x].quantum)
    && s'.remP == s'.tasks[s'.Proc()].quantum && s'.remT == s'.threads[s'.current].quantum
  }

  lemma NextProcessEffect(s: Sched)
    requires Shape(s) && HeadTask(s, ReadyTasks) && HeadThread(s, Ready(FirstTask(s, ReadyTasks)))
    requires s.threads[FirstThread(s, Ready(FirstTask(s, ReadyTasks)))].task == FirstTask(s, ReadyTasks)
    ensures Dispatched(s, NextProcess(s)) && NextProcess(s).Proc() == FirstTask(s, ReadyTasks)
  {
    NextProcessRings(s);
    NextProcessStructs(s);
    DispatchedFrom(s, NextProcess(s));
  }

  lemma NextProcessStructs(s: Sched)
    requires Shape(s) && HeadTask(s, ReadyTasks) && HeadThread(s, Ready(FirstTask(s, ReadyTasks)))
    ensures SameQuantaLoaded(s, NextProcess(s), FirstTask(s, ReadyTasks))
  {
  }

  /** The structs after the dispatch of the first thread of `p`. */
  ghost predicate SameQuantaLoaded(s: Sched, s': Sched, p: nat) {
    && s.Sized() && s'.Sized() && p < NR_TASKS
    && (forall t | 0 <= t < THREAD_STRUCTS :: s'.threads[t].quantum == s.threads[t].quantum)
    && (forall t | 0 <= t < THREAD_STRUCTS :: s'.threads[t].task == s.threads[t].task)
    && (forall x | 0 <= x < NR_TASKS :: s'.tasks[x].quantum == s.tasks[x].quantum)
    && s'.remP == s'.tasks[p].quantum && s'.remT == s'.threads[s'.current].quantum
    && s.Q(Ready(p)) != [] && s.Q(Ready(p))[0] == Thread(s'.current)
  }

  lemma DispatchedFrom(s: Sched, s': Sched)
    requires Shape(s) && HeadTask(s, ReadyTasks) && HeadThread(s, Ready(FirstTask(s, ReadyTasks)))
    requires s.threads[FirstThread(s, Ready(FirstTask(s, ReadyTasks)))].task == FirstTask(s, ReadyTasks)
    requires SameQuantaLoaded(s, s', FirstTask(s, ReadyTasks))
    requires s'.rings == PopHead(PopHead(s.rings, ReadyTasks), Ready(FirstTask(s, ReadyTasks)))
    ensures Dispatched(s, s') && s'.Proc() == FirstTask(s, ReadyTasks)
  {
  }

  lemma ParkProcessEffect(s: Sched)
    requires Settled(s)
    ensures var s' := ParkProcess(s);
            && QuantaKept(s, s') && s'.threads[s.current].task == s.Proc()
            && (forall t | 0 <= t < THREAD_STRUCTS :: s'.threads[t].task == s.threads[t].task)
  {
  }

  /** A tick's or an exit's preparation followed by the dispatch. */
  lemma PreparedSwitches(s: Sched, s1: Sched, s': Sched)
    requires s.Sized() && QuantaKept(s, s1) && Dispatched(s1, s')
    requires s.Q(ReadyTasks) != [] && s.Q(ReadyTasks) <= s1.Q(ReadyTasks)
    requires forall p: nat | p != s.Proc() :: s1.Q(Ready(p)) == s.Q(Ready(p))
    requires WaitersKept(s, s1)
    requires s.Q(ReadyTasks)[0] != Task(s.Proc())
    ensures SwitchesProcess(s, s')
  {
    assert s.Q(ReadyTasks)[0] == s1.Q(ReadyTasks)[0];
  }

  lemma TickSwitchesProcess(s: Sched)
    requires Inv(s) && NeedsSched(Decremented(s)) == 1
    ensures SwitchesProcess(Decremented(s), Tick(s))
  {
    var s1 := Decremented(s);
    SettledIgnoresQuanta(s, s1);
    ParkedProcessSwitches(s1);
  }

  lemma ParkedProcessSwitches(s: Sched)
    requires Settled(s) && s.Q(ReadyTasks) != []
    ensures Shape(ParkProcess(s)) && HeadTask(ParkProcess(s), ReadyTasks)
    ensures HeadThread(ParkProcess(s), Ready(FirstTask(ParkProcess(s), ReadyTasks)))
    ensures SwitchesProcess(s, NextProcess(ParkProcess(s)))
  {
    HeadOfReadyTasks(s);
    var s1 := ParkedWithProcess(s);
    NextProcessEffect(s1);
    PreparedSwitches(s, s1, NextProcess(s1));
  }

  /** The state between parking the running process and dispatching the next. */
  lemma ParkedWithProcess(s: Sched) returns (s1: Sched)
    requires Settled(s) && s.Q(ReadyTasks) != []
    ensures Shape(s1) && HeadTask(s1, ReadyTasks) && HeadThread(s1, Ready(FirstTask(s1, ReadyTasks)))
    ensures s1.threads[FirstThread(s1, Ready(FirstTask(s1, ReadyTasks)))].task == FirstTask(s1, ReadyTasks)
    ensures QuantaKept(s, s1) && WaitersKept(s, s1) && s.Q(ReadyTasks) <= s1.Q(ReadyTasks)
    ensures forall p: nat | p != s.Proc() :: s1.Q(Ready(p)) == s.Q(Ready(p))
    ensures s1 == ParkProcess(s)
  {
    ParkProcessAgrees(s);
    ParkProcessEffect(s);
    s1 := ParkProcess(s);
    ReadyToDispatch(s, s1);
  }

  lemma ReadyToDispatch(s: Sched, s1: Sched)
    requires s.Sized() && Shape(s1) && Agrees(s1)
    requires forall q :: s1.Q(q) ==
               if q == Ready(s.Proc()) then s.Q(q) + [Thread(s.current)]
               else if q == ReadyTasks then s.Q(q) + [Task(s.Proc())]
               else s.Q(q)
    ensures HeadTask(s1, ReadyTasks) && HeadThread(s1, Ready(FirstTask(s1, ReadyTasks)))
    ensures s1.threads[FirstThread(s1, Ready(FirstTask(s1, ReadyTasks)))].task == FirstTask(s1, ReadyTasks)
    ensures WaitersKept(s, s1) && s.Q(ReadyTasks) <= s1.Q(ReadyTasks)
    ensures forall p: nat | p != s.Proc() :: s1.Q(Ready(p)) == s.Q(Ready(p))
  {
    HeadOfReadyTasks(s1);
    OthersStayQueued(s, s1);
  }

  lemma OthersStayQueued(s: Sched, s1: Sched)
    requires s.Sized() && s1.Sized()
    requires forall q :: s1.Q(q) ==
               if q == Ready(s.Proc()) then s.Q(q) + [Thread(s.current)]
               else if q == ReadyTasks then s.Q(q) + [Task(s.Proc())]
               else s.Q(q)
    ensures WaitersKept(s, s1) && s.Q(ReadyTasks) <= s1.Q(ReadyTasks)
    ensures forall p: nat | p != s.Proc() :: s1.Q(Ready(p)) == s.Q(Ready(p))
  {
  }

  lemma ExitSwitchesProcess(s: Sched)
    requires Inv(s) && ExitGuard(s)
    ensures SwitchesProcess(s, Exit(s))
  {
    ReleasedQueues(s);
    ReleasedAgrees(s);
    HeadOfReadyTasks(s);
    ReleasedQuanta(s);
    ReleasedSwitches(s, Released(s));
  }

  lemma ReleasedSwitches(s: Sched, s1: Sched)
    requires s.Sized() && s.Proc() < NR_TASKS && IsReleased(s, s1, s.Proc()) && OthersKept(s, s1, s.Proc())
    requires Shape(s1) && Agrees(s1) && s.Q(ReadyTasks) != [] && s.Q(ReadyTasks)[0] != Task(s.Proc())
    requires QuantaKept(s, s1)
    ensures HeadTask(s1, ReadyTasks) && HeadThread(s1, Ready(FirstTask(s1, ReadyTasks)))
    ensures SwitchesProcess(s, NextProcess(s1))
  {
    HeadOfReadyTasks(s1);
    ReleasedPrepares(s, s1);
    NextProcessEffect(s1);
    PreparedSwitches(s, s1, NextProcess(s1));
  }

  lemma ReleasedPrepares(s: Sched, s1: Sched)
    requires s.Sized() && s.Proc() < NR_TASKS && IsReleased(s, s1, s.Proc()) && OthersKept(s, s1, s.Proc())
    ensures WaitersKept(s, s1) && s1.Q(ReadyTasks) == s.Q(ReadyTasks)
    ensures forall p: nat | p != s.Proc() :: s1.Q(Ready(p)) == s.Q(Ready(p))
  {
  }

  lemma ReleasedQuanta(s: Sched)
    requires Inv(s)
    ensures QuantaKept(s, Released(s))
  {
  }

  lemma TickSwitchesThread(s: Sched)
    requires Inv(s) && NeedsSched(Decremented(s)) == 2
    ensures SwitchesThread(Decremented(s), Tick(s))
  {
    var s1 := Decremented(s);
    SettledIgnoresQuanta(s, s1);
    var s2 := ParkedInReady(s1);
    ParkedSwitches(s1, s2);
  }

  // ------------------------------------------------------------------ every step

  /** Every call that is neither the tick nor an exit leaves the process running. */
  lemma CallKind(s: Sched, step: Step)
    requires Inv(s) && Guard(s, step) && !step.TimerTick? && !step.DoExit?
    ensures Continues(s, Apply(s, step)) || SwitchesThread(s, Apply(s, step))
  {
    match step
    case DoYield => YieldSwitches(s);
    case DoCreate(ok) => CreateContinues(s, ok);
    case DoJoin(id) => JoinSwitches(s, id);
    case DoPthreadExit => PthreadExitSwitches(s);
    case DoMutexInit(m) => MutexInitContinues(s, m);
    case DoMutexLock(m) =>
      if ValidMutex(m) && s.mutexes[m].locked {
        LockSwitches(s, m);
      } else {
        LockContinues(s, m);
      }
    case DoMutexUnlock(m) => UnlockContinues(s, m);
    case DoMutexDestroy(m) => DestroyContinues(s, m);
    case DoFork(frames) => ForkContinues(s, frames);
  }
}
