/** Everything that each call and the timer tick change and answer, told without the steps
    they take: the queues before and after, the structs that differ, the result. */
module Effects {
  import opened Options
  import opened Rings
  import opened Scheduling
  import opened Agreement
  import opened Steps
  import opened Switching
  import opened Identities
  import opened Joining

  // ------------------------------------------------------------------ from queue to queue

  /** Node `n` is where `dst` says, at the tail, and nowhere else; the others keep their order. */
  ghost predicate Placed(s: Sched, s': Sched, n: Node, dst: Option<Queue>) {
    forall h :: s'.Q(h) == if dst == Some(h) then Without(s.Q(h), n) + [n] else Without(s.Q(h), n)
  }

  lemma PlacedFrom(s: Sched, s': Sched, n: Node, dst: Option<Queue>, linked: bool)
    requires WellFormed(s.rings) && (linked <==> s.Linked(n)) && (dst.Some? ==> dst.value in s.rings.seqs)
    requires s'.rings == var r := if linked then Delete(s.rings, n) else s.rings;
                         if dst.Some? then Append(r, dst.value, n) else r
    ensures Placed(s, s', n, dst) && WellFormed(s'.rings)
  {
    if linked {
      DeleteWellFormed(s.rings, n);
    }
    var r := if linked then Delete(s.rings, n) else s.rings;
    if dst.Some? {
      AppendWellFormed(r, dst.value, n);
    }
    forall h | h in s.rings.seqs && n in s.rings.seqs[h]
      ensures linked && s.rings.home[n] == h
    {
      var i :| 0 <= i < |s.rings.seqs[h]| && s.rings.seqs[h][i] == n;
    }
  }

  /** update_thread_state_rr: provided the state says truly whether the thread is linked, it
      goes from wherever it is to the destination, READY in its process's ready list, BLOCKED
      in any other and RUN in none. */
  lemma UpdateThreadEffect(s: Sched, t: nat, dst: Option<Queue>)
    requires Shape(s) && t < THREAD_STRUCTS && (s.threads[t].state != Running <==> s.Linked(Thread(t)))
    requires dst.Some? ==> dst.value in s.rings.seqs
    ensures var s' := UpdateThread(s, t, dst);
            && Placed(s, s', Thread(t), dst) && WellFormed(s'.rings)
            && s' == s.(rings := s'.rings, threads := s.threads[t := s.threads[t].(state :=
                          if dst.None? then Running else if dst == Some(Ready(s.Proc())) then Runnable else Blocked)])
  {
    PlacedFrom(s, UpdateThread(s, t, dst), Thread(t), dst, s.Linked(Thread(t)));
  }

  /** update_process_state_rr does so with a task that goes to readyqueue. */
  lemma UpdateProcessEffect(s: Sched, p: nat)
    requires Shape(s) && p < NR_TASKS && (s.tasks[p].state != Running <==> s.Linked(Task(p)))
    ensures var s' := UpdateProcess(s, p);
            && Placed(s, s', Task(p), Some(ReadyTasks)) && WellFormed(s'.rings)
            && s' == s.(rings := s'.rings, tasks := s.tasks[p := s.tasks[p].(state := Runnable)])
  {
    PlacedFrom(s, UpdateProcess(s, p), Task(p), Some(ReadyTasks), s.Linked(Task(p)));
  }

  // ------------------------------------------------------------------ one thread for another

  /** The running thread has gone to the tail of `q`, marked `mark`, and then the first ready
      thread of its process has been dispatched: the same one if nobody else was ready. */
  ghost predicate Replaced(s: Sched, s': Sched, q: Queue, mark: RunState) {
    && s.Sized() && s'.Sized() && s.Proc() < NR_TASKS
    && QueuesReplaced(s, s', q)
    && s'.threads == s.threads[s.current := s.threads[s.current].(state := mark)]
                              [s'.current := s.threads[s'.current].(state := Running)]
    && s' == s.(rings := s'.rings, threads := s'.threads, current := s'.current, remT := s.threads[s'.current].quantum)
  }

  ghost predicate QueuesReplaced(s: Sched, s': Sched, q: Queue)
    requires s.Sized()
  {
    var ready := Ready(s.Proc());
    && [Thread(s'.current)] + s'.Q(ready) == (if q == ready then s.Q(ready) + [Thread(s.current)] else s.Q(ready))
    && (q != ready ==> s'.Q(q) == s.Q(q) + [Thread(s.current)])
    && forall h | h != q && h != ready :: s'.Q(h) == s.Q(h)
  }

  lemma ParkAndNext(s: Sched, s1: Sched, q: Queue)
    requires s.Sized() && s.Proc() < NR_TASKS && s.threads[s.current].state == Running && q in s.rings.seqs
    requires s1 == UpdateThread(s, s.current, Some(q))
    requires Shape(s1) && s1.Proc() == s.Proc() && HeadThread(s1, Ready(s.Proc()))
    requires s1.threads[FirstThread(s1, Ready(s.Proc()))].state != Running
    requires forall h :: s1.Q(h) == if h == q then s.Q(q) + [Thread(s.current)] else s.Q(h)
    ensures Replaced(s, NextThread(s1), q, if q == Ready(s.Proc()) then Runnable else Blocked)
  {
    NextThreadEffect(s1);
    var s' := NextThread(s1);
    assert s'.threads == s1.threads[s'.current := s1.threads[s'.current].(state := Running)];
  }

  lemma YieldReplaces(s: Sched)
    requires Settled(s)
    ensures HeadThread(ParkInReady(s), Ready(ParkInReady(s).Proc()))
    ensures Replaced(s, NextThread(ParkInReady(s)), Ready(s.Proc()), Runnable)
  {
    ParkInReadyDispatches(s);
    ParkInReadyAgrees(s);
    HeadOfReady(ParkInReady(s), s.Proc());
    ParkAndNext(s, ParkInReady(s), Ready(s.Proc()));
  }

  lemma YieldEffect(s: Sched)
    requires Inv(s)
    ensures Replaced(s, Yield(s), Ready(s.Proc()), Runnable)
  {
    YieldReplaces(s);
  }

  lemma BlockReplaces(s: Sched, q: Queue)
    requires Inv(s) && Parkable(s, q) && !q.Ready? && s.Q(Ready(s.Proc())) != []
    ensures var s1 := UpdateThread(s, s.current, Some(q));
            HeadThread(s1, Ready(s1.Proc())) && Replaced(s, NextThread(s1), q, Blocked)
  {
    var s1 := UpdateThread(s, s.current, Some(q));
    ParkElsewhereDispatches(s, q);
    ParkThread(s, q);
    HeadOfReady(s1, s.Proc());
    ParkAndNext(s, s1, q);
  }

  /** join notes whom the caller waits for and blocks it behind the other joiners. */
  lemma JoinEffect(s: Sched, id: int)
    requires Inv(s) && JoinGuard(s)
    ensures Replaced(SetThread(s, s.current, s.threads[s.current].(blockedBy := id)), Join(s, id).0, Joining(s.Proc()), Blocked)
    ensures Join(s, id).1 == 0
  {
    BlockedByIsFree(s, id);
    BlockReplaces(SetThread(s, s.current, s.threads[s.current].(blockedBy := id)), Joining(s.Proc()));
  }

  // ------------------------------------------------------------------ mutex.c

  /** init succeeds exactly on a mutex that nobody owns, which then is the caller's, unlocked
      and without waiters. */
  lemma InitEffect(s: Sched, n: int)
    requires Inv(s)
    ensures var s', r := MutexInit(s, n).0, MutexInit(s, n).1;
            && (r == -EINVAL <==> !(0 <= n < 20))
            && (r == -EBUSY <==> 0 <= n < 20 && s.mutexes[n].owner != 0)
            && (r == 0 <==> 0 <= n < 20 && s.mutexes[n].owner == 0)
            && (r != 0 ==> s' == s)
            && (r == 0 ==>
                  && s'.Sized() && s'.mutexes[n].owner == s.threads[s.current].tid > 0 && !s'.mutexes[n].locked
                  && s'.Q(Waiting(n)) == [] && Waiting(n) in s'.rings.seqs
                  && (forall h :: s'.Q(h) == s.Q(h))
                  && (forall m: nat | m < NR_MUTEX && m != n :: s'.mutexes[m] == s.mutexes[m])
                  && s' == s.(rings := s'.rings, mutexes := s'.mutexes))
  {
    if 0 <= n < 20 {
      assert MutexAgrees(s, n);
    }
  }

  /** lock takes a mutex that is free, initialised or not, and changes nothing else. */
  lemma LockFreeEffect(s: Sched, n: int)
    requires Inv(s) && LockGuard(s, n)
    ensures var s', r := MutexLock(s, n).0, MutexLock(s, n).1;
            && (r == -EINVAL <==> !(0 <= n < 20))
            && (r == 0 <==> 0 <= n < 20)
            && (r != 0 ==> s' == s)
            && (r == 0 && !s.mutexes[n].locked ==>
                  && s'.Sized() && s'.mutexes[n].locked && s'.mutexes[n].owner == s.mutexes[n].owner
                  && (forall m: nat | m < NR_MUTEX && m != n :: s'.mutexes[m] == s.mutexes[m])
                  && s' == s.(mutexes := s'.mutexes))
  {
    if 0 <= n < 20 {
      assert MutexAgrees(s, n);
    }
  }

  /** On one that is locked the caller goes to the tail of its waiters, BLOCKED, and the next
      thread of the process runs. */
  lemma LockBlocksEffect(s: Sched, n: nat)
    requires Inv(s) && LockGuard(s, n) && n < 20 && s.mutexes[n].locked
    ensures Replaced(s, MutexLock(s, n).0, Waiting(n), Blocked) && MutexLock(s, n).0.current != s.current
  {
    assert MutexAgrees(s, n);
    BlockReplaces(s, Waiting(n));
    OtherIsReady(s, MutexLock(s, n).0);
  }

  lemma OtherIsReady(s: Sched, s': Sched)
    requires Inv(s) && s.Q(Ready(s.Proc())) != [] && s.Q(Ready(s.Proc()))[0] == Thread(s'.current)
    ensures s'.current != s.current
  {
    QueuedAt(s, Ready(s.Proc()), 0);
  }

  /** unlock of a locked mutex makes its first waiter the last ready thread and leaves the
      mutex locked exactly if others wait; on one that is not locked it does nothing. */
  lemma UnlockEffect(s: Sched, n: int)
    requires Inv(s) && UnlockGuard(s, n)
    ensures var s', r := MutexUnlock(s, n).0, MutexUnlock(s, n).1;
            && (r == -EINVAL <==> !(0 <= n < 20))
            && (r == 0 <==> 0 <= n < 20)
            && (r == -EINVAL || !s.mutexes[n].locked ==> s' == s)
  {
    if 0 <= n < 20 {
      assert MutexAgrees(s, n);
    }
  }

  lemma UnlockWakesEffect(s: Sched, n: nat)
    requires Inv(s) && UnlockGuard(s, n) && n < 20 && s.mutexes[n].locked
    ensures HandedOver(s, MutexUnlock(s, n).0, n)
  {
    var s' := Unlocked(s, n);
    StillLocked(s, s', n);
    HandedOverFrom(s, s', n);
  }

  lemma HandedOverFrom(s: Sched, s': Sched, n: nat)
    requires Shape(s) && s'.Sized() && s.Proc() < NR_TASKS && n < NR_MUTEX && HeadThread(s, Waiting(n))
    requires var t, p := FirstThread(s, Waiting(n)), s.Proc();
             && s'.rings == Enqueue(Dequeue(s, Thread(t)), Ready(p), Thread(t)).rings
             && s' == s.(rings := s'.rings, mutexes := s'.mutexes, threads := s.threads[t := s'.threads[t]])
             && s'.threads[t] == s.threads[t].(state := Runnable)
    requires s'.mutexes == s.mutexes || s'.mutexes == s.mutexes[n := s.mutexes[n].(locked := false)]
    requires s.mutexes[n].locked && (s'.mutexes[n].locked <==> s'.Q(Waiting(n)) != [])
    ensures HandedOver(s, s', n)
  {
    MovedQueues(s, Waiting(n), Ready(s.Proc()));
  }

  lemma StillLocked(s: Sched, s': Sched, n: nat)
    requires Inv(s) && UnlockGuard(s, n) && n < 20 && s.mutexes[n].locked && s' == MutexUnlock(s, n).0
    ensures s'.Sized() && (s'.mutexes[n].locked <==> s'.Q(Waiting(n)) != [])
  {
    assert MutexAgrees(s, n);
  }

  ghost predicate HandedOver(s: Sched, s': Sched, n: nat) {
    && s.Sized() && s'.Sized() && n < NR_MUTEX && s.Q(Waiting(n)) != [] && s.Q(Waiting(n))[0].Thread?
    && var t := s.Q(Waiting(n))[0].t;
    && t < THREAD_STRUCTS
    && s'.Q(Waiting(n)) == s.Q(Waiting(n))[1..]
    && s'.Q(Ready(s.Proc())) == s.Q(Ready(s.Proc())) + [Thread(t)]
    && (forall h | h != Waiting(n) && h != Ready(s.Proc()) :: s'.Q(h) == s.Q(h))
    && s'.threads == s.threads[t := s.threads[t].(state := Runnable)]
    && s'.mutexes == s.mutexes[n := s.mutexes[n].(locked := s'.Q(Waiting(n)) != [])]
    && s' == s.(rings := s'.rings, threads := s'.threads, mutexes := s'.mutexes)
  }

  /** destroy is for threads with the owner's TID, and leaves the mutex as before its init. */
  lemma DestroyEffect(s: Sched, n: int)
    requires Inv(s) && DestroyGuard(s, n)
    ensures var s', r := MutexDestroy(s, n).0, MutexDestroy(s, n).1;
            && (r == 0 <==> 0 <= n < 20 && s.mutexes[n].owner == s.threads[s.current].tid)
            && (r == -EPERM <==> 0 <= n < 20 && s.mutexes[n].owner > 0 && s.mutexes[n].owner != s.threads[s.current].tid)
            && (r == -EINVAL <==> !(0 <= n < 20) || s.mutexes[n].owner == 0)
            && (r != 0 ==> s' == s)
            && (r == 0 ==>
                  && s'.Sized() && s'.mutexes[n].owner == 0 && !s'.mutexes[n].locked
                  && (forall m: nat | m < NR_MUTEX && m != n :: s'.mutexes[m] == s.mutexes[m])
                  && s' == s.(mutexes := s'.mutexes))
  {
    if 0 <= n < 20 {
      assert MutexAgrees(s, n);
    }
  }

  // ------------------------------------------------------------------ pthread_create and fork

  /** A thread struct is asked for only with a good address, and nothing changes on failure. */
  lemma CreateAnswers(s: Sched, accessOk: bool)
    requires Inv(s)
    ensures var s', r := Create(s, accessOk).0, Create(s, accessOk).1;
            && (r == -EFAULT <==> !accessOk)
            && (r == -ENOMEM <==> accessOk && s.Q(FreeThreads) == [])
            && (r == 0 <==> accessOk && s.Q(FreeThreads) != [])
            && (s' == s <==> r != 0)
  {
    if accessOk && s.Q(FreeThreads) != [] {
      var s', t := Created(s);
    }
  }

  /** The new thread is its creator's copy with the next TID and a full quantum, READY behind
      the others of its process. */
  lemma CreateEffect(s: Sched) returns (t: nat)
    requires Inv(s) && s.Q(FreeThreads) != []
    ensures Create(s, true).0.Sized() && t < THREAD_STRUCTS && t != s.current && s.Q(FreeThreads)[0] == Thread(t)
    ensures var s', p := Create(s, true).0, s.Proc();
            && (forall h :: s'.Q(h) == if h == Ready(p) then s.Q(h) + [Thread(t)] else if h == FreeThreads then s.Q(h)[1..] else s.Q(h))
            && s'.threads[t] == ThreadStruct(s.tasks[p].nthread, p, Runnable, 10, s.threads[s.current].blockedBy)
            && (forall x: nat | x < THREAD_STRUCTS && x != t :: s'.threads[x] == s.threads[x])
            && s'.tasks == s.tasks[p := s.tasks[p].(nthread := s.tasks[p].nthread + 1)]
            && s' == s.(rings := s'.rings, threads := s'.threads, tasks := s'.tasks)
  {
    var s';
    s', t := Created(s);
    CreatedQueues(s);
    CreatedStruct(s, t);
  }

  lemma CreatedStruct(s: Sched, t: nat)
    requires Inv(s) && HeadThread(s, FreeThreads) && t == FirstThread(s, FreeThreads)
    ensures var s' := Create(s, true).0;
            && s'.Sized()
            && s'.threads[t] == ThreadStruct(s.tasks[s.Proc()].nthread, s.Proc(), Runnable, 10, s.threads[s.current].blockedBy)
            && s' == s.(rings := s'.rings, threads := s'.threads, tasks := s'.tasks)
  {
  }

  /** fork answers the child's PID; without a struct of either kind or twenty frames it fails. */
  lemma ForkAnswers(s: Sched, frames: bool)
    requires Inv(s) && s.lastPid >= 0
    ensures var s', r := Fork(s, frames).0, Fork(s, frames).1;
            && (r == -ENOMEM <==> s.Q(FreeTasks) == [] || s.Q(FreeThreads) == [])
            && (r == -EAGAIN <==> s.Q(FreeTasks) != [] && s.Q(FreeThreads) != [] && !frames)
            && (r > 0 <==> s.Q(FreeTasks) != [] && s.Q(FreeThreads) != [] && frames)
            && (r > 0 ==> r == s.lastPid + 1 == s'.lastPid)
            && (r == -ENOMEM ==> s' == s)
  {
  }

  /** The child is READY behind the other processes with a full quantum, one thread counted,
      and that thread, its parent's copy, is its only ready one. */
  lemma ForkEffect(s: Sched) returns (c: nat, t: nat)
    requires Inv(s) && CanFork(s)
    ensures Fork(s, true).0.Sized() && c < NR_TASKS && t < THREAD_STRUCTS
    ensures s.Q(FreeTasks)[0] == Task(c) && s.Q(FreeThreads)[0] == Thread(t) && s.Q(Ready(c)) == []
    ensures var s' := Fork(s, true).0;
            && s'.tasks == s.tasks[c := TaskStruct(Fork(s, true).1, Runnable, 20, 2)]
            && s'.threads == s.threads[t := s.threads[s.current].(tid := 1, state := Runnable, task := c)]
            && s' == s.(rings := s'.rings, threads := s'.threads, tasks := s'.tasks, lastPid := s.lastPid + 1)
            && (forall h :: s'.Q(h) == if h == FreeTasks || h == FreeThreads then s.Q(h)[1..]
                                       else if h == ReadyTasks then s.Q(h) + [Task(c)]
                                       else if h == Ready(c) then [Thread(t)] else s.Q(h))
  {
    var s';
    s', c, t := ForkedState(s);
    ForkFrame(s);
  }

  lemma ForkFrame(s: Sched)
    requires Inv(s) && CanFork(s)
    ensures var s' := Fork(s, true).0;
            && s' == s.(rings := s'.rings, threads := s'.threads, tasks := s'.tasks, lastPid := s.lastPid + 1)
            && Fork(s, true).1 == s.lastPid + 1
  {
    ForkCases(s, true);
  }

  // ------------------------------------------------------------------ one process for another

  /** The head of readyqueue and the head of its ready list run, with full quanta. `s1` is the
      state in which the process that leaves has been put where it goes. */
  ghost predicate NextRuns(s1: Sched, s': Sched) {
    && s1.Sized() && s'.Sized() && s'.Proc() < NR_TASKS
    && s1.Q(ReadyTasks) == [Task(s'.Proc())] + s'.Q(ReadyTasks)
    && s1.Q(Ready(s'.Proc())) == [Thread(s'.current)] + s'.Q(Ready(s'.Proc()))
    && (forall h | h != ReadyTasks && h != Ready(s'.Proc()) :: s'.Q(h) == s1.Q(h))
    && s'.tasks == s1.tasks[s'.Proc() := s1.tasks[s'.Proc()].(state := Running)]
    && s'.threads == s1.threads[s'.current := s1.threads[s'.current].(state := Running)]
    && s' == s1.(rings := s'.rings, tasks := s'.tasks, threads := s'.threads, current := s'.current,
                 remP := s1.tasks[s'.Proc()].quantum, remT := s1.threads[s'.current].quantum)
  }

  lemma NextProcessRuns(s1: Sched)
    requires Shape(s1) && Agrees(s1) && s1.Q(ReadyTasks) != []
    ensures HeadTask(s1, ReadyTasks) && HeadThread(s1, Ready(FirstTask(s1, ReadyTasks)))
    ensures NextRuns(s1, NextProcess(s1))
  {
    HeadOfReadyTasks(s1);
    NextProcessEffect(s1);
    NextProcessFrame(s1, FirstTask(s1, ReadyTasks));
  }

  lemma NextProcessFrame(s1: Sched, p: nat)
    requires s1.Sized() && HeadTask(s1, ReadyTasks) && p == FirstTask(s1, ReadyTasks) && HeadThread(s1, Ready(p))
    ensures var s', t := NextProcess(s1), FirstThread(s1, Ready(p));
            && s'.tasks == s1.tasks[p := s1.tasks[p].(state := Running)]
            && s'.threads == s1.threads[t := s1.threads[t].(state := Running)]
            && s' == s1.(rings := s'.rings, tasks := s'.tasks, threads := s'.threads, current := t,
                         remP := s1.tasks[p].quantum, remT := s1.threads[t].quantum)
  {
  }

  // ------------------------------------------------------------------ pthread_exit

  /** Beside queues and states a thread's exit changes who runs, with a full quantum, and
      nothing else. */
  lemma PthreadExitFrame(s: Sched)
    requires Inv(s) && PthreadExitGuard(s)
    ensures var s' := PthreadExit(s);
            && s'.current < THREAD_STRUCTS && |s'.threads| == THREAD_STRUCTS
            && s' == s.(rings := s'.rings, threads := s'.threads, current := s'.current, remT := s.threads[s'.current].quantum)
            && (forall t: nat | t < THREAD_STRUCTS :: s'.threads[t] == s.threads[t].(state := s'.threads[t].state))
            && s'.threads[s'.current].state == Running
  {
    var s1, s2 := ExitScan(s);
    WokenFrame(s1, s.Proc(), s.threads[s.current].tid);
    NextThreadFrame(s2);
  }

  lemma WokenFrame(s: Sched, p: nat, tid: int)
    requires Shape(s) && p < NR_TASKS && (s.Q(Joining(p)) != [] ==> HeadThread(s, Joining(p)))
    ensures var s' := Woken(s, p, tid);
            && |s'.threads| == THREAD_STRUCTS && s' == s.(rings := s'.rings, threads := s'.threads)
            && forall t: nat | t < THREAD_STRUCTS :: s'.threads[t] == s.threads[t].(state := s'.threads[t].state)
  {
  }

  // ------------------------------------------------------------------ the timer tick

  /** The running process and thread have gone to the tails of their queues, both READY. */
  ghost predicate BothParked(s: Sched, s1: Sched) {
    && s.Sized() && s1.Sized() && s.Proc() < NR_TASKS
    && (forall q :: s1.Q(q) == if q == Ready(s.Proc()) then s.Q(q) + [Thread(s.current)]
                               else if q == ReadyTasks then s.Q(q) + [Task(s.Proc())] else s.Q(q))
    && s1.tasks == s.tasks[s.Proc() := s.tasks[s.Proc()].(state := Runnable)]
    && s1.threads == s.threads[s.current := s.threads[s.current].(state := Runnable)]
    && s1 == s.(rings := s1.rings, tasks := s1.tasks, threads := s1.threads)
  }

  lemma ParkProcessParks(s: Sched)
    requires Settled(s)
    ensures BothParked(s, ParkProcess(s))
  {
    ParkProcessAgrees(s);
  }

  /** The tick takes one from both quanta. If that was the process's last and another process
      is ready, that one runs; if it was the thread's last and another thread of the process
      is, that one; and if not, what has run out is filled up from the struct it belongs to,
      and nothing else changes. */
  lemma TickEffect(s: Sched) returns (s2: Sched)
    requires Inv(s)
    ensures var s', s1 := Tick(s), s.(remP := s.remP - 1, remT := s.remT - 1);
            if s.remP == 1 && s.Q(ReadyTasks) != [] then
              BothParked(s1, s2) && NextRuns(s2, s')
            else if s.remT == 1 && s.Q(Ready(s.Proc())) != [] then
              Replaced(s1, s', Ready(s.Proc()), Runnable)
            else
              s' == s.(remP := if s.remP == 1 then s.tasks[s.Proc()].quantum else s.remP - 1,
                       remT := if s.remT == 1 then s.threads[s.current].quantum else s.remT - 1)
  {
    s2 := s;
    if s.remP == 1 && s.Q(ReadyTasks) != [] {
      s2 := TickOfProcess(s);
    } else if s.remT == 1 && s.Q(Ready(s.Proc())) != [] {
      TickOfThread(s);
    } else {
      QuietTick(s);
    }
  }

  lemma TickOfProcess(s: Sched) returns (s2: Sched)
    requires Inv(s) && s.remP == 1 && s.Q(ReadyTasks) != []
    ensures BothParked(s.(remP := s.remP - 1, remT := s.remT - 1), s2) && NextRuns(s2, Tick(s))
  {
    var s1, s' := TickSwitchesFrom(s);
    s2 := ProcessSwitchTo(s1, s');
  }

  lemma TickSwitchesFrom(s: Sched) returns (s1: Sched, s': Sched)
    requires Inv(s) && s.remP == 1 && s.Q(ReadyTasks) != []
    ensures s1 == s.(remP := s.remP - 1, remT := s.remT - 1) && Settled(s1) && s' == Tick(s)
    ensures HeadTask(ParkProcess(s1), ReadyTasks) && HeadThread(ParkProcess(s1), Ready(FirstTask(ParkProcess(s1), ReadyTasks)))
    ensures s' == NextProcess(ParkProcess(s1))
  {
    s1, s' := Decremented(s), Tick(s);
    SettledIgnoresQuanta(s, s1);
    ParkProcessDispatches(s1);
  }

  lemma ProcessSwitchTo(s: Sched, s': Sched) returns (s2: Sched)
    requires Settled(s)
    requires HeadTask(ParkProcess(s), ReadyTasks) && HeadThread(ParkProcess(s), Ready(FirstTask(ParkProcess(s), ReadyTasks)))
    requires s' == NextProcess(ParkProcess(s))
    ensures BothParked(s, s2) && NextRuns(s2, s')
  {
    s2 := ProcessSwitch(s);
  }

  lemma ProcessSwitch(s: Sched) returns (s2: Sched)
    requires Settled(s)
    ensures HeadTask(ParkProcess(s), ReadyTasks) && HeadThread(ParkProcess(s), Ready(FirstTask(ParkProcess(s), ReadyTasks)))
    ensures BothParked(s, s2) && NextRuns(s2, NextProcess(ParkProcess(s)))
  {
    ParkProcessParks(s);
    ParkProcessAgrees(s);
    s2 := ParkProcess(s);
    NextProcessRuns(s2);
  }

  lemma TickOfThread(s: Sched)
    requires Inv(s) && !(s.remP == 1 && s.Q(ReadyTasks) != []) && s.remT == 1 && s.Q(Ready(s.Proc())) != []
    ensures Replaced(s.(remP := s.remP - 1, remT := s.remT - 1), Tick(s), Ready(s.Proc()), Runnable)
  {
    var s1, s' := TickGoesOn(s);
    YieldReplaces(s1);
  }

  lemma TickGoesOn(s: Sched) returns (s1: Sched, s': Sched)
    requires Inv(s) && !(s.remP == 1 && s.Q(ReadyTasks) != []) && s.remT == 1 && s.Q(Ready(s.Proc())) != []
    ensures s1 == s.(remP := s.remP - 1, remT := s.remT - 1) && Settled(s1) && s' == Tick(s)
    ensures HeadThread(ParkInReady(s1), Ready(ParkInReady(s1).Proc())) && s' == NextThread(ParkInReady(s1))
  {
    s1, s' := Decremented(s), Tick(s);
    SettledIgnoresQuanta(s, s1);
    ParkInReadyDispatches(s1);
  }

  lemma QuietTick(s: Sched)
    requires Inv(s) && !(s.remP == 1 && s.Q(ReadyTasks) != []) && !(s.remT == 1 && s.Q(Ready(s.Proc())) != [])
    ensures Tick(s) == s.(remP := if s.remP == 1 then s.tasks[s.Proc()].quantum else s.remP - 1,
                          remT := if s.remT == 1 then s.threads[s.current].quantum else s.remT - 1)
  {
  }

  // ------------------------------------------------------------------ exit

  /** The task struct and the threads that were ready or joining are free, in that order, with
      PID and TIDs cleared. */
  ghost predicate AllFreed(s: Sched, s1: Sched) {
    && s.Sized() && s1.Sized() && s.Proc() < NR_TASKS
    && var p := s.Proc();
    && (forall q :: s1.Q(q) == if q == FreeTasks then s.Q(q) + [Task(p)]
                               else if q == FreeThreads then s.Q(q) + s.Q(Ready(p)) + s.Q(Joining(p))
                               else if q == Ready(p) || q == Joining(p) then [] else s.Q(q))
    && s1.tasks == s.tasks[p := s.tasks[p].(pid := -1)]
    && (forall t: nat | t < THREAD_STRUCTS ::
          s1.threads[t] == if Thread(t) in s.Q(Ready(p)) || Thread(t) in s.Q(Joining(p)) then s.threads[t].(tid := -1)
                           else s.threads[t])
    && s1 == s.(rings := s1.rings, tasks := s1.tasks, threads := s1.threads)
  }

  lemma ReleasedFrees(s: Sched)
    requires Inv(s)
    ensures AllFreed(s, Released(s))
  {
    ReleasedQueues(s);
    ReleasedTids(s, s.Proc());
    ReleasedElsewhere(s, Released(s), s.Proc());
  }

  lemma ReleasedElsewhere(s: Sched, s1: Sched, p: nat)
    requires s.Sized() && p < NR_TASKS && IsReleased(s, s1, p) && OthersKept(s, s1, p)
    ensures forall q :: s1.Q(q) == if q == FreeTasks then s.Q(q) + [Task(p)]
                                   else if q == FreeThreads then s.Q(q) + s.Q(Ready(p)) + s.Q(Joining(p))
                                   else if q == Ready(p) || q == Joining(p) then [] else s.Q(q)
  {
  }

  lemma ReleasedTids(s: Sched, p: nat)
    requires Inv(s) && p == s.Proc()
    ensures |Released(s).threads| == THREAD_STRUCTS
    ensures forall t: nat | t < THREAD_STRUCTS ::
              Released(s).threads[t] == if Thread(t) in s.Q(Ready(p)) || Thread(t) in s.Q(Joining(p)) then s.threads[t].(tid := -1)
                                        else s.threads[t]
  {
    FreedTaskShape(s);
    DrainedQueues(FreedTask(s), Ready(p));
  }

  lemma ExitEffect(s: Sched) returns (s1: Sched)
    requires Inv(s) && ExitGuard(s)
    ensures AllFreed(s, s1) && NextRuns(s1, Exit(s))
  {
    s1 := Released(s);
    ReleasedFrees(s);
    ExitDispatches(s);
    ReleasedAgrees(s);
    NextProcessRuns(s1);
  }
}
