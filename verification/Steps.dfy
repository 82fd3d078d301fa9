/** The kernel's steps: the timer tick and the scheduling calls, each a function of the
    state it starts in, and the invariant that all of them keep. */
module Steps {
  import opened Options
  import opened Rings
  import opened Scheduling
  import opened Agreement

  // ------------------------------------------------------------------ the timer tick

  /** needs_sched_rr's verdict after the two decrements: 1 another process, 2 another
      thread, 0 neither. */
  function NeedsSched(s: Sched): int
    requires s.Sized()
  {
    if s.remP == 0 && s.Q(ReadyTasks) != [] then 1
    else if s.remT == 0 && s.Q(Ready(s.Proc())) != [] then 2
    else 0
  }

  /** The quanta needs_sched_rr refills when it finds nothing to switch to. */
  function Refill(s: Sched): Sched
    requires s.Sized() && s.Proc() < NR_TASKS
  {
    s.(remP := if s.remP == 0 then s.tasks[s.Proc()].quantum else s.remP,
       remT := if s.remT == 0 then s.threads[s.current].quantum else s.remT)
  }

  function Decremented(s: Sched): Sched {
    s.(remP := s.remP - 1, remT := s.remT - 1)
  }

  /** The running process and thread go to the ends of their queues. */
  function ParkProcess(s: Sched): Sched
    requires Settled(s)
  {
    UpdateThread(UpdateProcess(s, s.Proc()), s.current, Some(Ready(s.Proc())))
  }

  function ParkInReady(s: Sched): Sched
    requires Settled(s)
  {
    UpdateThread(s, s.current, Some(Ready(s.Proc())))
  }

  lemma ParkInReadyAgrees(s: Sched)
    requires Settled(s)
    ensures Shape(ParkInReady(s)) && Agrees(ParkInReady(s))
    ensures ParkInReady(s).Proc() == s.Proc() && RunningTask(ParkInReady(s), s.Proc())
    ensures forall q :: ParkInReady(s).Q(q) == if q == Ready(s.Proc()) then s.Q(q) + [Thread(s.current)] else s.Q(q)
  {
    EnqueueQueues(s, Ready(s.Proc()), Thread(s.current));
    ParkThread(s, Ready(s.Proc()));
  }

  lemma ParkInReadyDispatches(s: Sched)
    requires Settled(s)
    ensures Shape(ParkInReady(s)) && Agrees(ParkInReady(s))
    ensures HeadThread(ParkInReady(s), Ready(s.Proc()))
    ensures ParkInReady(s).Proc() == s.Proc() && Inv(NextThread(ParkInReady(s)))
  {
    ParkInReadyAgrees(s);
    DispatchThread(ParkInReady(s));
  }

  /** Which of the two is parked first makes no difference. */
  lemma ParkOrder(s: Sched)
    requires Settled(s)
    ensures ParkInReady(s).tasks == s.tasks && ReadyTasks in ParkInReady(s).rings.seqs
    ensures ParkProcess(s) == UpdateProcess(ParkInReady(s), s.Proc())
  {
    var p := s.Proc();
    var r := s.rings;
    var a := Append(Append(r, ReadyTasks, Task(p)), Ready(p), Thread(s.current));
    var b := Append(Append(r, Ready(p), Thread(s.current)), ReadyTasks, Task(p));
    assert a.seqs == b.seqs;
    assert a.home == b.home;
  }

  lemma ParkProcessAgrees(s: Sched)
    requires Settled(s)
    ensures Shape(ParkProcess(s)) && Agrees(ParkProcess(s))
    ensures forall q :: ParkProcess(s).Q(q) ==
              if q == Ready(s.Proc()) then s.Q(q) + [Thread(s.current)]
              else if q == ReadyTasks then s.Q(q) + [Task(s.Proc())]
              else s.Q(q)
  {
    var p := s.Proc();
    var s1 := ParkInReady(s);
    ParkInReadyAgrees(s);
    ParkOrder(s);
    ParkTask(s1, p);
    ParkTaskQueues(s1, p);
  }

  lemma ParkTaskQueues(s: Sched, p: nat)
    requires Shape(s) && p < NR_TASKS && RunningTask(s, p)
    ensures forall q :: UpdateProcess(s, p).Q(q) == if q == ReadyTasks then s.Q(q) + [Task(p)] else s.Q(q)
  {
  }

  lemma ParkProcessDispatches(s: Sched)
    requires Settled(s)
    ensures Shape(ParkProcess(s)) && Agrees(ParkProcess(s))
    ensures HeadTask(ParkProcess(s), ReadyTasks)
    ensures HeadThread(ParkProcess(s), Ready(FirstTask(ParkProcess(s), ReadyTasks)))
    ensures Inv(NextProcess(ParkProcess(s)))
    ensures NextProcess(ParkProcess(s)).Proc() == FirstTask(ParkProcess(s), ReadyTasks)
  {
    ParkProcessAgrees(s);
    DispatchProcess(ParkProcess(s));
  }

  /** schedule() */
  function Tick(s: Sched): Sched
    requires Inv(s)
  {
    var s1 := Decremented(s);
    SettledIgnoresQuanta(s, s1);
    if NeedsSched(s1) == 1 then
      ParkProcessDispatches(s1);
      NextProcess(ParkProcess(s1))
    else if NeedsSched(s1) == 2 then
      ParkInReadyDispatches(s1);
      NextThread(ParkInReady(s1))
    else
      Refill(s1)
  }

  lemma TickInv(s: Sched)
    requires Inv(s)
    ensures Inv(Tick(s))
  {
    var s1 := Decremented(s);
    SettledIgnoresQuanta(s, s1);
    if NeedsSched(s1) == 1 {
      ParkProcessDispatches(s1);
    } else if NeedsSched(s1) == 2 {
      ParkInReadyDispatches(s1);
    } else {
      SettledIgnoresQuanta(s1, Refill(s1));
    }
  }

  lemma SettledIgnoresQuanta(s: Sched, s': Sched)
    requires Settled(s) && s' == s.(remP := s'.remP, remT := s'.remT)
    ensures Settled(s')
  {
    assert forall t | Thread(t) in s'.rings.home :: ThreadAgrees(s, t) ==> ThreadAgrees(s', t);
    assert forall p | Task(p) in s'.rings.home :: TaskAgrees(s, p) ==> TaskAgrees(s', p);
    assert forall m: nat | m < NR_MUTEX :: MutexAgrees(s, m) ==> MutexAgrees(s', m);
  }

  // ------------------------------------------------------------------ sys_yield

  function Yield(s: Sched): Sched
    requires Inv(s)
  {
    ParkInReadyDispatches(s);
    NextThread(ParkInReady(s))
  }

  lemma YieldInv(s: Sched)
    requires Inv(s)
    ensures Inv(Yield(s))
  {
    ParkInReadyDispatches(s);
  }

  // ------------------------------------------------------------------ sys_pthread_create

  lemma HeadOfFreeThreads(s: Sched)
    requires Shape(s) && Agrees(s) && s.Q(FreeThreads) != []
    ensures HeadThread(s, FreeThreads)
  {
    QueuedAt(s, FreeThreads, 0);
  }

  /** The queue part of sys_pthread_create; `accessOk` is access_ok's answer. The stack
      page it maps is in Paging.dfy. */
  function Create(s: Sched, accessOk: bool): (Sched, int)
    requires Inv(s)
  {
    if !accessOk then (s, -EFAULT)
    else if s.Q(FreeThreads) == [] then (s, -ENOMEM)
    else
      HeadOfFreeThreads(s);
      DequeueHead(s, FreeThreads);
      var p, t := s.Proc(), FirstThread(s, FreeThreads);
      var s1 := Dequeue(s, Thread(t));
      var s2 := SetThread(s1, t, s.threads[s.current].(tid := s.tasks[p].nthread, quantum := DEFAULT_QUANTUM_T, state := Runnable));
      var s3 := SetTask(s2, p, s.tasks[p].(nthread := s.tasks[p].nthread + 1));
      (Enqueue(s3, Ready(p), Thread(t)), 0)
  }

  /** Create in two parts, between which the stack page is mapped. */
  function CopiedThread(s: Sched): Sched
    requires s.Sized() && HeadThread(s, FreeThreads)
  {
    SetThread(Dequeue(s, Thread(FirstThread(s, FreeThreads))), FirstThread(s, FreeThreads), s.threads[s.current])
  }

  function StartedThread(s: Sched, t: nat): Sched
    requires s.Sized() && t < THREAD_STRUCTS && s.Proc() < NR_TASKS && Ready(s.Proc()) in s.rings.seqs
  {
    var p := s.Proc();
    s.(threads := s.threads[t := s.threads[t].(tid := s.tasks[p].nthread, quantum := DEFAULT_QUANTUM_T, state := Runnable)],
       tasks := s.tasks[p := s.tasks[p].(nthread := s.tasks[p].nthread + 1)],
       rings := Append(s.rings, Ready(p), Thread(t)))
  }

  lemma CreateInParts(s: Sched)
    requires Inv(s) && s.Q(FreeThreads) != []
    ensures HeadThread(s, FreeThreads) && FirstThread(s, FreeThreads) != s.current
    ensures var t, s1 := FirstThread(s, FreeThreads), CopiedThread(s);
            && s1.Sized() && s1.Proc() == s.Proc() && Ready(s.Proc()) in s1.rings.seqs
            && s1.threads[t].task == s.Proc() && Create(s, true).0 == StartedThread(s1, t)
            && Create(s, true).1 == 0
  {
    HeadOfFreeThreads(s);
  }

  lemma CreateInv(s: Sched, accessOk: bool)
    requires Inv(s)
    ensures Inv(Create(s, accessOk).0)
  {
    if accessOk && s.Q(FreeThreads) != [] {
      HeadOfFreeThreads(s);
      MoveToReady(s, Create(s, accessOk).0, FreeThreads, s.Proc());
    }
  }

  lemma MovedQueues(s: Sched, q: Queue, to: Queue)
    requires Shape(s) && HeadThread(s, q) && to in s.rings.seqs && to != q
    ensures var n := s.Q(q)[0];
            && Shape(Dequeue(s, n))
            && Shape(Enqueue(Dequeue(s, n), to, n))
            && Enqueue(Dequeue(s, n), to, n).rings.home == s.rings.home[n := to]
            && forall h :: Enqueue(Dequeue(s, n), to, n).Q(h) ==
                 if h == to then s.Q(to) + [n] else if h == q then s.Q(q)[1..] else s.Q(h)
  {
    DequeueHead(s, q);
    DeleteAppendMoves(s.rings, q, to);
  }

  /** The first thread of `q` becomes the last ready thread of `p`, a process that is in
      no queue. */
  lemma MoveToReady(s: Sched, s': Sched, q: Queue, p: nat)
    requires Shape(s) && Agrees(s) && HeadThread(s, q) && !q.Ready?
    requires p < NR_TASKS && !s.Linked(Task(p))
    requires s'.Sized()
    requires var t := FirstThread(s, q);
             && s'.rings == Enqueue(Dequeue(s, Thread(t)), Ready(p), Thread(t)).rings
             && s'.threads == s.threads[t := s'.threads[t]]
             && s'.threads[t].task == p && s'.threads[t].state == Runnable
             && s'.threads[t].quantum > 0 && s'.threads[t].tid > 0
             && s'.tasks == s.tasks[p := s'.tasks[p]]
    requires forall m: nat | m < NR_MUTEX ::
               s'.mutexes[m] == s.mutexes[m] || (s'.mutexes[m].owner == s.mutexes[m].owner && s'.Q(Waiting(m)) == [])
    ensures Shape(s') && Agrees(s')
  {
    var t := FirstThread(s, q);
    MovedRings(s, s', q, p);
    MovedThreadsAgree(s, s', t, p);
    MovedTasksAgree(s, s', q, p);
    MovedMutexesAgree(s, s', q, p);
  }

  lemma MovedRings(s: Sched, s': Sched, q: Queue, p: nat)
    requires Shape(s) && HeadThread(s, q) && !q.Ready? && p < NR_TASKS && s'.Sized()
    requires s'.rings == Enqueue(Dequeue(s, s.Q(q)[0]), Ready(p), s.Q(q)[0]).rings
    ensures Shape(s') && s'.rings.home == s.rings.home[s.Q(q)[0] := Ready(p)]
    ensures s'.rings.seqs.Keys == s.rings.seqs.Keys
    ensures forall h :: s'.Q(h) == if h == Ready(p) then s.Q(h) + [s.Q(q)[0]] else if h == q then s.Q(q)[1..] else s.Q(h)
  {
    MovedQueues(s, q, Ready(p));
    ShapeOfUpdate(Enqueue(Dequeue(s, s.Q(q)[0]), Ready(p), s.Q(q)[0]), s');
  }

  lemma MovedMutexesAgree(s: Sched, s': Sched, q: Queue, p: nat)
    requires Agrees(s) && s.Sized() && s'.Sized() && !q.Ready?
    requires s'.rings.seqs.Keys == s.rings.seqs.Keys && s.Q(q) != []
    requires forall h | h != Ready(p) && h != q :: s'.Q(h) == s.Q(h)
    requires forall m: nat | m < NR_MUTEX ::
               s'.mutexes[m] == s.mutexes[m] || (s'.mutexes[m].owner == s.mutexes[m].owner && s'.Q(Waiting(m)) == [])
    ensures forall m: nat | m < NR_MUTEX :: MutexAgrees(s', m)
  {
    forall m: nat | m < NR_MUTEX
      ensures MutexAgrees(s', m)
    {
      assert MutexAgrees(s, m);
    }
  }

  lemma MovedThreadsAgree(s: Sched, s': Sched, t: nat, p: nat)
    requires Agrees(s) && s.Sized() && s'.Sized() && t < THREAD_STRUCTS
    requires p < NR_TASKS && !s.Linked(Task(p))
    requires s'.rings.home == s.rings.home[Thread(t) := Ready(p)]
    requires s'.threads == s.threads[t := s'.threads[t]]
    requires s'.threads[t].task == p && s'.threads[t].state == Runnable
    requires s'.threads[t].quantum > 0 && s'.threads[t].tid > 0
    ensures forall x | Thread(x) in s'.rings.home :: ThreadAgrees(s', x)
  {
    forall x | Thread(x) in s'.rings.home
      ensures ThreadAgrees(s', x)
    {
      if x != t {
        assert ThreadAgrees(s, x);
      }
    }
  }

  lemma MovedTasksAgree(s: Sched, s': Sched, q: Queue, p: nat)
    requires Agrees(s) && s.Sized() && s'.Sized() && !q.Ready? && p < NR_TASKS && !s.Linked(Task(p))
    requires forall x | Task(x) in s'.rings.home :: s.In(Task(x), s'.rings.home[Task(x)])
    requires s'.tasks == s.tasks[p := s'.tasks[p]]
    requires forall h | h != Ready(p) && h != q :: s'.Q(h) == s.Q(h)
    requires |s'.Q(q)| < |s.Q(q)|
    ensures forall x | Task(x) in s'.rings.home :: TaskAgrees(s', x)
  {
    forall x | Task(x) in s'.rings.home
      ensures TaskAgrees(s', x)
    {
      assert TaskAgrees(s, x);
    }
  }

  // ------------------------------------------------------------------ sys_pthread_join

  function Join(s: Sched, id: int): (Sched, int)
    requires Inv(s) && JoinGuard(s)
  {
    var p := s.Proc();
    if s.tasks[p].nthread < 2 then (s, -EFAULT)
    else
      var s1 := SetThread(s, s.current, s.threads[s.current].(blockedBy := id));
      BlockedByIsFree(s, id);
      ParkElsewhereDispatches(s1, Joining(p));
      (NextThread(UpdateThread(s1, s.current, Some(Joining(p)))), 0)
  }

  /** sched_next_thread_rr takes the first ready thread without looking: there must be one. */
  predicate JoinGuard(s: Sched)
    requires s.Sized()
  {
    s.Q(Ready(s.Proc())) != []
  }

  lemma BlockedByIsFree(s: Sched, id: int)
    requires Inv(s)
    ensures Inv(SetThread(s, s.current, s.threads[s.current].(blockedBy := id)))
  {
    var s' := SetThread(s, s.current, s.threads[s.current].(blockedBy := id));
    assert forall t | Thread(t) in s'.rings.home :: ThreadAgrees(s, t) ==> ThreadAgrees(s', t);
    assert forall p | Task(p) in s'.rings.home :: TaskAgrees(s, p) ==> TaskAgrees(s', p);
    assert forall m: nat | m < NR_MUTEX :: MutexAgrees(s, m) ==> MutexAgrees(s', m);
  }

  /** Blocking the running thread, in join or on a mutex, and dispatching the next. */
  lemma ParkElsewhereDispatches(s: Sched, q: Queue)
    requires Inv(s) && Parkable(s, q) && !q.Ready?
    requires s.Q(Ready(s.Proc())) != []
    ensures var s1 := UpdateThread(s, s.current, Some(q));
            && s1.Proc() == s.Proc() && HeadThread(s1, Ready(s.Proc()))
            && Inv(NextThread(s1))
            && forall h :: s1.Q(h) == if h == q then s.Q(q) + [Thread(s.current)] else s.Q(h)
  {
    EnqueueQueues(s, q, Thread(s.current));
    ParkThread(s, q);
    DispatchThread(UpdateThread(s, s.current, Some(q)));
  }

  lemma JoinInv(s: Sched, id: int)
    requires Inv(s) && JoinGuard(s)
    ensures Inv(Join(s, id).0)
  {
    BlockedByIsFree(s, id);
    ParkElsewhereDispatches(SetThread(s, s.current, s.threads[s.current].(blockedBy := id)), Joining(s.Proc()));
  }

  // ------------------------------------------------------------------ mutex.c

  predicate ValidMutex(n: int) {
    0 <= n < NR_MUTEX
  }

  function MutexInit(s: Sched, n: int): (Sched, int)
    requires Inv(s)
  {
    if !ValidMutex(n) then (s, -EINVAL)
    else if s.mutexes[n].owner != 0 then (s, -EBUSY)
    else (SetMutex(s, n, MutexStruct(false, s.threads[s.current].tid)).(rings := Init(s.rings, Waiting(n))), 0)
  }

  lemma MutexInitInv(s: Sched, n: int)
    requires Inv(s)
    ensures Inv(MutexInit(s, n).0)
  {
    if ValidMutex(n) && s.mutexes[n].owner == 0 {
      var s' := MutexInit(s, n).0;
      assert MutexAgrees(s, n);
      InitWellFormed(s.rings, Waiting(n));
      assert forall q :: s'.Q(q) == s.Q(q);
      AgreesCarriesOver(s, s');
      forall m: nat | m < NR_MUTEX
        ensures MutexAgrees(s', m)
      {
        assert MutexAgrees(s, m);
      }
    }
  }

  /** Thread and task agreement look at no mutex, and at queues only through their members. */
  lemma AgreesCarriesOver(s: Sched, s': Sched)
    requires Shape(s) && Agrees(s) && s'.Sized()
    requires s'.rings.home == s.rings.home && s'.tasks == s.tasks && s'.threads == s.threads
    requires forall q :: s'.Q(q) == s.Q(q)
    ensures forall t | Thread(t) in s'.rings.home :: ThreadAgrees(s', t)
    ensures forall p | Task(p) in s'.rings.home :: TaskAgrees(s', p)
  {
    assert forall t | Thread(t) in s'.rings.home :: ThreadAgrees(s, t) ==> ThreadAgrees(s', t);
    assert forall p | Task(p) in s'.rings.home :: TaskAgrees(s, p) ==> TaskAgrees(s', p);
  }

  /** A mutex that is locked must have been initialised, and blocking needs a thread to
      run instead: neither is checked. */
  predicate LockGuard(s: Sched, n: int)
    requires s.Sized()
  {
    ValidMutex(n) && s.mutexes[n].locked ==> s.mutexes[n].owner > 0 && s.Q(Ready(s.Proc())) != []
  }

  function MutexLock(s: Sched, n: int): (Sched, int)
    requires Inv(s) && LockGuard(s, n)
  {
    if !ValidMutex(n) then (s, -EINVAL)
    else if s.mutexes[n].owner < 0 then (s, -EINVAL)
    else if s.mutexes[n].locked then
      assert MutexAgrees(s, n);
      ParkElsewhereDispatches(s, Waiting(n));
      (NextThread(UpdateThread(s, s.current, Some(Waiting(n)))), 0)
    else (SetMutex(s, n, s.mutexes[n].(locked := true)), 0)
  }

  lemma MutexLockInv(s: Sched, n: int)
    requires Inv(s) && LockGuard(s, n)
    ensures Inv(MutexLock(s, n).0)
  {
    if ValidMutex(n) {
      assert MutexAgrees(s, n);
      if s.mutexes[n].locked {
        ParkElsewhereDispatches(s, Waiting(n));
      } else {
        var s' := MutexLock(s, n).0;
        AgreesCarriesOver(s, s');
        assert forall m: nat | m < NR_MUTEX :: MutexAgrees(s, m) ==> MutexAgrees(s', m);
      }
    }
  }

  /** A locked mutex is unlocked by moving its first waiter, unchecked, to the ready list of
      the process that runs: there must be one, and it must be of that process. */
  predicate UnlockGuard(s: Sched, n: int)
    requires s.Sized()
  {
    ValidMutex(n) && s.mutexes[n].locked ==>
      && HeadThread(s, Waiting(n))
      && s.threads[FirstThread(s, Waiting(n))].task == s.Proc()
  }

  function MutexUnlock(s: Sched, n: int): (Sched, int)
    requires Inv(s) && UnlockGuard(s, n)
  {
    if !ValidMutex(n) then (s, -EINVAL)
    else if s.mutexes[n].owner < 0 then (s, -EINVAL)
    else if !s.mutexes[n].locked then (s, 0)
    else
      var s1 := UpdateThread(s, FirstThread(s, Waiting(n)), Some(Ready(s.Proc())));
      (if s1.Q(Waiting(n)) == [] then SetMutex(s1, n, s1.mutexes[n].(locked := false)) else s1, 0)
  }

  lemma MutexUnlockInv(s: Sched, n: int)
    requires Inv(s) && UnlockGuard(s, n)
    ensures Inv(MutexUnlock(s, n).0)
  {
    if ValidMutex(n) {
      assert MutexAgrees(s, n);
      if s.mutexes[n].locked {
        UnlockedInv(s, n);
      }
    }
  }

  lemma UnlockedInv(s: Sched, n: nat)
    requires Inv(s) && UnlockGuard(s, n) && ValidMutex(n) && s.mutexes[n].locked
    ensures Inv(MutexUnlock(s, n).0)
  {
    var s' := Unlocked(s, n);
    UnlockedSettles(s, s', n);
  }

  lemma UnlockedSettles(s: Sched, s': Sched, n: nat)
    requires Inv(s) && UnlockGuard(s, n) && ValidMutex(n) && s.mutexes[n].locked && s'.Sized()
    requires var t, p := FirstThread(s, Waiting(n)), s.Proc();
             && s'.rings == Enqueue(Dequeue(s, Thread(t)), Ready(p), Thread(t)).rings
             && s' == s.(rings := s'.rings, mutexes := s'.mutexes, threads := s.threads[t := s'.threads[t]])
             && s'.threads[t] == s.threads[t].(state := Runnable) && s'.threads[t].task == p
             && s'.threads[t].quantum > 0 && s'.threads[t].tid > 0
    requires s'.mutexes == s.mutexes || (s'.mutexes == s.mutexes[n := s.mutexes[n].(locked := false)] && s'.Q(Waiting(n)) == [])
    ensures Inv(s')
  {
    MoveToReady(s, s', Waiting(n), s.Proc());
  }

  /** What the unlock of a mutex with a waiter changes. */
  lemma Unlocked(s: Sched, n: nat) returns (s': Sched)
    requires Inv(s) && UnlockGuard(s, n) && ValidMutex(n) && s.mutexes[n].locked
    ensures s' == MutexUnlock(s, n).0 && s'.Sized()
    ensures var t, p := FirstThread(s, Waiting(n)), s.Proc();
            && s'.rings == Enqueue(Dequeue(s, Thread(t)), Ready(p), Thread(t)).rings
            && s' == s.(rings := s'.rings, mutexes := s'.mutexes, threads := s.threads[t := s'.threads[t]])
            && s'.threads[t] == s.threads[t].(state := Runnable) && s'.threads[t].task == p
            && s'.threads[t].quantum > 0 && s'.threads[t].tid > 0
    ensures s'.mutexes == s.mutexes || (s'.mutexes == s.mutexes[n := s.mutexes[n].(locked := false)] && s'.Q(Waiting(n)) == [])
  {
    assert MutexAgrees(s, n) && ThreadAgrees(s, FirstThread(s, Waiting(n)));
    s' := MutexUnlock(s, n).0;
  }

  /** A destroy that gets past its checks would unlink every waiter twice. */
  predicate DestroyGuard(s: Sched, n: int)
    requires s.Sized()
  {
    ValidMutex(n) && s.mutexes[n].owner == s.threads[s.current].tid ==> s.Q(Waiting(n)) == []
  }

  function MutexDestroy(s: Sched, n: int): (Sched, int)
    requires Inv(s) && DestroyGuard(s, n)
  {
    if !ValidMutex(n) then (s, -EINVAL)
    else if s.mutexes[n].owner <= 0 then (s, -EINVAL)
    else if s.threads[s.current].tid != s.mutexes[n].owner then (s, -EPERM)
    else (SetMutex(s, n, MutexStruct(false, 0)), 0)
  }

  lemma MutexDestroyInv(s: Sched, n: int)
    requires Inv(s) && DestroyGuard(s, n)
    ensures Inv(MutexDestroy(s, n).0)
  {
    if ValidMutex(n) && s.mutexes[n].owner > 0 && s.threads[s.current].tid == s.mutexes[n].owner {
      var s' := MutexDestroy(s, n).0;
      AgreesCarriesOver(s, s');
      assert forall m: nat | m < NR_MUTEX :: MutexAgrees(s, m) ==> MutexAgrees(s', m);
    }
  }

  // ------------------------------------------------------------------ sys_pthread_exit

  /** The joiner `n` waits for thread `tid`. */
  predicate WaitsFor(s: Sched, n: Node, tid: int) {
    n.Thread? && n.t < |s.threads| && s.threads[n.t].blockedBy == tid
  }

  /** What the scan over blocked_threads leaves: matches behind the head are marked READY
      but stay where they are; a matching head moves to the ready list. */
  function Woken(s: Sched, p: nat, tid: int): Sched
    requires s.Sized()
    requires s.Q(Joining(p)) != [] ==> HeadThread(s, Joining(p)) && Ready(p) in s.rings.seqs
  {
    var js := s.Q(Joining(p));
    if js == [] then s
    else
      var s1 := s.(threads := Marked(s, js[1..], tid));
      if WaitsFor(s, js[0], tid) then
        SetThread(Enqueue(Dequeue(s1, js[0]), Ready(p), js[0]), js[0].t, s1.threads[js[0].t].(state := Runnable))
      else s1
  }

  /** The thread structs with the joiners of `tid` among `ns` marked READY. */
  function Marked(s: Sched, ns: seq<Node>, tid: int): (ts: seq<ThreadStruct>)
    ensures |ts| == |s.threads|
    ensures forall t | 0 <= t < |ts| ::
              ts[t] == if Thread(t) in ns && WaitsFor(s, Thread(t), tid) then s.threads[t].(state := Runnable) else s.threads[t]
  {
    seq(|s.threads|, t requires 0 <= t < |s.threads| =>
      if Thread(t) in ns && WaitsFor(s, Thread(t), tid) then s.threads[t].(state := Runnable) else s.threads[t])
  }

  /** Someone is left to run once the scan is over. */
  predicate PthreadExitGuard(s: Sched)
    requires s.Sized()
  {
    var p := s.Proc();
    s.Q(Ready(p)) != [] || (s.Q(Joining(p)) != [] && WaitsFor(s, s.Q(Joining(p))[0], s.threads[s.current].tid))
  }

  lemma HeadOfJoining(s: Sched, p: nat)
    requires Shape(s) && Agrees(s) && p < NR_TASKS && s.Q(Joining(p)) != []
    ensures HeadThread(s, Joining(p))
    ensures var t := FirstThread(s, Joining(p));
            LiveThread(s, t) && s.threads[t].task == p && s.threads[t].state != Running
  {
    QueuedAt(s, Joining(p), 0);
  }

  lemma JoiningMembers(s: Sched, p: nat)
    requires Shape(s) && Agrees(s) && p < NR_TASKS
    ensures forall i | 0 <= i < |s.Q(Joining(p))| :: var n := s.Q(Joining(p))[i];
              n.Thread? && n.t < THREAD_STRUCTS && s.In(n, Joining(p)) && s.threads[n.t].state != Running
  {
    forall i | 0 <= i < |s.Q(Joining(p))|
      ensures var n := s.Q(Joining(p))[i];
              n.Thread? && n.t < THREAD_STRUCTS && s.In(n, Joining(p)) && s.threads[n.t].state != Running
    {
      QueuedAt(s, Joining(p), i);
    }
  }

  /** The scan after `k` of the joiners of `p` have been put back behind the others. */
  function Scanned(s: Sched, p: nat, tid: int, k: nat): Sched
    requires Joining(p) in s.rings.seqs && 1 <= k <= |s.Q(Joining(p))|
  {
    s.(rings := Rotated(s.rings, Joining(p), k), threads := Marked(s, s.Q(Joining(p))[1..k], tid))
  }

  /** What update_thread_state_rr does to a linked thread. */
  lemma UpdateLinked(s: Sched, t: nat, q: Queue)
    requires s.Sized() && t < THREAD_STRUCTS && WellFormed(s.rings) && s.Linked(Thread(t)) && q in s.rings.seqs
    requires s.threads[t].state != Running
    ensures var s' := UpdateThread(s, t, Some(q));
            && s'.rings == Append(Delete(s.rings, Thread(t)), q, Thread(t)) && s'.Linked(Thread(t))
            && s'.threads == s.threads[t := s.threads[t].(state := if q == Ready(s.Proc()) then Runnable else Blocked)]
  {
  }

  /** A joiner of `tid` is marked READY; like any other joiner it goes to the back. */
  function Visited(s: Sched, p: nat, tid: int, t: nat): Sched
    requires Joining(p) in s.rings.seqs && s.In(Thread(t), Joining(p)) && t < |s.threads|
  {
    SetThread(Enqueue(Dequeue(s, Thread(t)), Joining(p), Thread(t)), t,
              if s.threads[t].blockedBy == tid then s.threads[t].(state := Runnable) else s.threads[t])
  }

  lemma ScanStep(s: Sched, p: nat, tid: int, k: nat)
    requires Shape(s) && Agrees(s) && p < NR_TASKS && 1 <= k < |s.Q(Joining(p))|
    requires WellFormed(Scanned(s, p, tid, k).rings)
    ensures var n, sk := s.Q(Joining(p))[k], Scanned(s, p, tid, k);
            && n != s.Q(Joining(p))[0] && HeadThread(sk, Joining(p)) && sk.Q(Joining(p))[0] == n
            && sk.threads[n.t].state != Running
            && Visited(sk, p, tid, n.t) == Scanned(s, p, tid, k + 1)
  {
    JoiningMembers(s, p);
    RotateStep(s.rings, Joining(p), k);
    MarkStep(s, s.Q(Joining(p)), k, tid);
  }

  /** Marking one more joiner. */
  lemma MarkStep(s: Sched, js: seq<Node>, k: nat, tid: int)
    requires 1 <= k < |js| && js[k].Thread? && js[k].t < |s.threads|
    requires js[k] !in js[1..k]
    ensures var t, ts := js[k].t, Marked(s, js[1..k], tid);
            && ts[t] == s.threads[t]
            && Marked(s, js[1..k + 1], tid) == ts[t := if ts[t].blockedBy == tid then ts[t].(state := Runnable) else ts[t]]
  {
    assert js[1..k + 1] == js[1..k] + [js[k]];
  }

  lemma ScanKeepsCurrent(s: Sched, k: nat)
    requires Shape(s) && s.Proc() < NR_TASKS && 1 <= k <= |s.Q(Joining(s.Proc()))|
    requires !s.In(Thread(s.current), Joining(s.Proc()))
    ensures Scanned(s, s.Proc(), s.threads[s.current].tid, k).threads[s.current] == s.threads[s.current]
  {
    var js := s.rings.seqs[Joining(s.Proc())];
    assert forall i | 0 <= i < |js| :: s.rings.home[js[i]] == Joining(s.Proc());
  }

  /** Putting the first joiner behind the others starts the scan. */
  lemma ScanStart(s: Sched, p: nat, tid: int)
    requires Shape(s) && Agrees(s) && p < NR_TASKS && s.Q(Joining(p)) != []
    ensures HeadThread(s, Joining(p))
    ensures Enqueue(Dequeue(s, s.Q(Joining(p))[0]), Joining(p), s.Q(Joining(p))[0]) == Scanned(s, p, tid, 1)
  {
    HeadOfJoining(s, p);
    RotateFirst(s.rings, Joining(p));
    NothingMarked(s, tid);
    assert s.Q(Joining(p))[1..1] == [];
  }

  lemma NothingMarked(s: Sched, tid: int)
    ensures Marked(s, [], tid) == s.threads
  {
  }

  /** When the one that was first is first again, the queue is as it was. */
  lemma ScanEnd(s: Sched, p: nat, tid: int, k: nat)
    requires Shape(s) && Agrees(s) && p < NR_TASKS && 1 <= k <= |s.Q(Joining(p))|
    requires WellFormed(Scanned(s, p, tid, k).rings)
    requires Scanned(s, p, tid, k).Q(Joining(p))[0] == s.Q(Joining(p))[0]
    ensures var js, s1 := s.Q(Joining(p)), Scanned(s, p, tid, k);
            && HeadThread(s1, Joining(p)) && s1.Q(Joining(p)) == js && js[0].t < THREAD_STRUCTS
            && s1.threads[js[0].t].state != Running
            && s1 == s.(threads := Marked(s, js[1..], tid))
  {
    if k < |s.Q(Joining(p))| {
      ScanStep(s, p, tid, k);
    }
    JoiningMembers(s, p);
    NotRotated(s.rings, Joining(p));
  }

  /** The exiting thread's struct goes to the free queue, still marked RUN. */
  function Retired(s: Sched): Sched
    requires Inv(s)
  {
    Enqueue(s, FreeThreads, Thread(s.current))
  }

  lemma RetiredAgrees(s: Sched)
    requires Inv(s)
    ensures Shape(Retired(s)) && Agrees(Retired(s))
    ensures forall q :: Retired(s).Q(q) == if q == FreeThreads then s.Q(q) + [Thread(s.current)] else s.Q(q)
  {
    EnqueueQueues(s, FreeThreads, Thread(s.current));
    FreedThreadAgrees(s, Retired(s));
  }

  lemma FreedThreadAgrees(s: Sched, s': Sched)
    requires s.Sized() && Agrees(s) && s'.rings.home == s.rings.home[Thread(s.current) := FreeThreads]
    requires s' == s.(rings := s'.rings)
    requires forall q | q != FreeThreads :: s'.Q(q) == s.Q(q)
    requires forall q | q in s.rings.seqs :: q in s'.rings.seqs
    ensures Agrees(s')
  {
    forall t | Thread(t) in s'.rings.home
      ensures ThreadAgrees(s', t)
    {
      if t != s.current {
        assert ThreadAgrees(s, t);
      }
    }
    assert forall p | Task(p) in s'.rings.home :: TaskAgrees(s, p) ==> TaskAgrees(s', p);
    assert forall m: nat | m < NR_MUTEX :: MutexAgrees(s, m) ==> MutexAgrees(s', m);
  }

  lemma WokenAgrees(s: Sched, p: nat, tid: int)
    requires Shape(s) && Agrees(s) && p < NR_TASKS && !s.Linked(Task(p))
    ensures s.Q(Joining(p)) != [] ==> HeadThread(s, Joining(p))
    ensures Shape(Woken(s, p, tid)) && Agrees(Woken(s, p, tid))
  {
    var js := s.Q(Joining(p));
    if js != [] {
      HeadOfJoining(s, p);
      var s1 := s.(threads := Marked(s, js[1..], tid));
      MarkedAgrees(s, s1, js[1..], p, tid);
      if WaitsFor(s, js[0], tid) {
        MoveToReady(s1, Woken(s, p, tid), Joining(p), p);
      }
    }
  }

  /** Marking joiners READY is within what the agreement allows of them. */
  lemma MarkedAgrees(s: Sched, s1: Sched, ns: seq<Node>, p: nat, tid: int)
    requires Shape(s) && Agrees(s) && s1 == s.(threads := Marked(s, ns, tid))
    requires forall n | n in ns :: s.In(n, Joining(p))
    ensures Shape(s1) && Agrees(s1)
  {
    ShapeOfUpdate(s, s1);
    assert forall t | Thread(t) in s1.rings.home :: ThreadAgrees(s, t) ==> ThreadAgrees(s1, t);
    assert forall x | Task(x) in s1.rings.home :: TaskAgrees(s, x) ==> TaskAgrees(s1, x);
    assert forall m: nat | m < NR_MUTEX :: MutexAgrees(s, m) ==> MutexAgrees(s1, m);
  }

  lemma PthreadExitDispatches(s: Sched)
    requires Inv(s) && PthreadExitGuard(s)
    ensures Shape(Retired(s)) && Agrees(Retired(s))
    ensures Retired(s).Q(Joining(s.Proc())) != [] ==> HeadThread(Retired(s), Joining(s.Proc()))
    ensures var s2 := Woken(Retired(s), s.Proc(), s.threads[s.current].tid);
            s2.Proc() == s.Proc() && HeadThread(s2, Ready(s.Proc())) && Inv(NextThread(s2))
  {
    var p, tid := s.Proc(), s.threads[s.current].tid;
    RetiredAgrees(s);
    WokenAgrees(Retired(s), p, tid);
    WokenKeeps(Retired(s), p, tid);
    DispatchThread(Woken(Retired(s), p, tid));
  }

  /** The scan leaves the running process and thread alone. */
  lemma WokenKeeps(s: Sched, p: nat, tid: int)
    requires Shape(s) && Agrees(s) && p < NR_TASKS && !s.Linked(Task(p))
    requires s.Q(Joining(p)) != [] ==> HeadThread(s, Joining(p))
    ensures var s' := Woken(s, p, tid);
            && s'.tasks == s.tasks && s'.current == s.current && s'.Proc() == s.Proc()
            && (s'.Linked(Task(p)) <==> s.Linked(Task(p)))
            && (s.Q(Ready(p)) != [] || (s.Q(Joining(p)) != [] && WaitsFor(s, s.Q(Joining(p))[0], tid)) ==>
                  s'.Q(Ready(p)) != [])
  {
  }

  function PthreadExit(s: Sched): Sched
    requires Inv(s) && PthreadExitGuard(s)
  {
    PthreadExitDispatches(s);
    NextThread(Woken(Retired(s), s.Proc(), s.threads[s.current].tid))
  }

  lemma PthreadExitInv(s: Sched)
    requires Inv(s) && PthreadExitGuard(s)
    ensures Inv(PthreadExit(s))
  {
    PthreadExitDispatches(s);
  }

  // ------------------------------------------------------------------ sys_fork

  lemma FreeTaskAt(s: Sched, i: nat)
    requires Shape(s) && Agrees(s) && i < |s.Q(FreeTasks)|
    ensures var n := s.Q(FreeTasks)[i];
            n.Task? && n.p < NR_TASKS && s.In(n, FreeTasks) && s.Q(Ready(n.p)) == [] && s.Q(Joining(n.p)) == []
  {
    QueuedAt(s, FreeTasks, i);
  }

  lemma HeadOfFreeTasks(s: Sched)
    requires Shape(s) && Agrees(s) && s.Q(FreeTasks) != []
    ensures HeadTask(s, FreeTasks)
    ensures var c := FirstTask(s, FreeTasks);
            s.Q(Ready(c)) == [] && s.Q(Joining(c)) == []
  {
    FreeTaskAt(s, 0);
  }

  /** Both structs are taken off their free queues. */
  function TakenRings(r: Rings): Rings
    requires FreeTasks in r.seqs && r.seqs[FreeTasks] != []
    requires FreeThreads in r.seqs && r.seqs[FreeThreads] != []
  {
    PopHead(PopHead(r, FreeTasks), FreeThreads)
  }

  predicate CanFork(s: Sched) {
    s.Q(FreeTasks) != [] && s.Q(FreeThreads) != []
  }

  lemma TakenWellFormed(s: Sched)
    requires Shape(s) && Agrees(s) && CanFork(s)
    ensures HeadTask(s, FreeTasks) && HeadThread(s, FreeThreads)
    ensures WellFormed(TakenRings(s.rings))
  {
    HeadOfFreeTasks(s);
    HeadOfFreeThreads(s);
    DeleteHead(s.rings, FreeTasks);
    DeleteHead(PopHead(s.rings, FreeTasks), FreeThreads);
  }

  /** The queue part of sys_fork; `frames` says whether all data pages found a frame
      (Paging.dfy). A failed fork loses the thread struct it took. */
  function Fork(s: Sched, frames: bool): (Sched, int)
    requires Inv(s)
  {
    if s.Q(FreeTasks) == [] then (s, -ENOMEM)
    else if s.Q(FreeThreads) == [] then (s, -ENOMEM)
    else
      TakenWellFormed(s);
      var c, t := FirstTask(s, FreeTasks), FirstThread(s, FreeThreads);
      if frames then (ReadyChild(Taken(s), c, t), s.lastPid + 1)
      else (Enqueue(Taken(s), FreeTasks, Task(c)), -EAGAIN)
  }

  /** Both structs are taken, and the thread's becomes a copy of the running one. */
  function Taken(s: Sched): Sched
    requires s.Sized() && HeadTask(s, FreeTasks) && HeadThread(s, FreeThreads)
  {
    SetThread(s, FirstThread(s, FreeThreads), s.threads[s.current]).(rings := TakenRings(s.rings))
  }

  /** The child's structs are filled in and queued. */
  function ReadyChild(s: Sched, c: nat, t: nat): Sched
    requires s.Sized() && c < NR_TASKS && t < THREAD_STRUCTS && {ReadyTasks, Ready(c)} <= s.rings.seqs.Keys
  {
    s.(tasks := s.tasks[c := TaskStruct(s.lastPid + 1, Runnable, DEFAULT_QUANTUM_P, 2)],
       threads := s.threads[t := s.threads[t].(tid := 1, state := Runnable, task := c)],
       lastPid := s.lastPid + 1,
       rings := Append(Append(s.rings, ReadyTasks, Task(c)), Ready(c), Thread(t)))
  }

  lemma ForkCases(s: Sched, frames: bool)
    requires Inv(s) && CanFork(s)
    ensures HeadTask(s, FreeTasks) && HeadThread(s, FreeThreads)
    ensures var c, t, s1 := FirstTask(s, FreeTasks), FirstThread(s, FreeThreads), Taken(s);
            && s1.Sized() && {FreeTasks, ReadyTasks, Ready(c)} <= s1.rings.seqs.Keys
            && Fork(s, frames) == (if frames then (ReadyChild(s1, c, t), s.lastPid + 1)
                                   else (Enqueue(s1, FreeTasks, Task(c)), -EAGAIN))
  {
    TakenWellFormed(s);
  }

  /** A failed fork: `c` is back in freequeue, at its tail, and `t` is in no queue. */
  lemma ForkFailedAgrees(s: Sched, s': Sched, c: nat, t: nat)
    requires Shape(s) && Agrees(s) && s.In(Task(c), FreeTasks) && c < NR_TASKS && t < THREAD_STRUCTS
    requires s'.Sized() && s'.tasks == s.tasks && s'.mutexes == s.mutexes
    requires s'.rings.home == s.rings.home - {Thread(t)}
    requires s'.threads == s.threads[t := s'.threads[t]]
    requires forall q | q != FreeTasks && q != FreeThreads :: (q in s'.rings.seqs <==> q in s.rings.seqs) && s'.Q(q) == s.Q(q)
    ensures Agrees(s')
  {
    forall x | Thread(x) in s'.rings.home
      ensures ThreadAgrees(s', x)
    {
      assert ThreadAgrees(s, x);
    }
    forall x | Task(x) in s'.rings.home
      ensures TaskAgrees(s', x)
    {
      assert TaskAgrees(s, x);
    }
    assert forall m: nat | m < NR_MUTEX :: MutexAgrees(s, m) ==> MutexAgrees(s', m);
  }

  lemma ForkFailedInv(s: Sched)
    requires Inv(s) && CanFork(s)
    ensures Inv(Fork(s, false).0)
  {
    TakenWellFormed(s);
    var s' := Fork(s, false).0;
    var c, t := FirstTask(s, FreeTasks), FirstThread(s, FreeThreads);
    AppendWellFormed(TakenRings(s.rings), FreeTasks, Task(c));
    HomeAfterPutBack(s.rings.home, Task(c), FreeTasks, Thread(t));
    ForkFailedSettles(s, s', c, t);
  }

  lemma ForkFailedSettles(s: Sched, s': Sched, c: nat, t: nat)
    requires Inv(s) && CanFork(s) && HeadTask(s, FreeTasks) && HeadThread(s, FreeThreads)
    requires c == FirstTask(s, FreeTasks) && t == FirstThread(s, FreeThreads)
    requires s'.rings.seqs == s.rings.seqs[FreeTasks := s.Q(FreeTasks)[1..]][FreeThreads := s.Q(FreeThreads)[1..]]
                                          [FreeTasks := s.Q(FreeTasks)[1..] + [Task(c)]]
    requires WellFormed(s'.rings) && s'.rings.home == s.rings.home - {Thread(t)}
    requires s' == s.(rings := s'.rings, threads := s.threads[t := s.threads[s.current]])
    ensures Inv(s')
  {
    ForkFailedAgrees(s, s', c, t);
  }

  lemma HomeAfterPutBack(home: map<Node, Queue>, n: Node, q: Queue, t: Node)
    requires n in home && home[n] == q && t != n
    ensures (home - {n} - {t})[n := q] == home - {t}
  {
  }

  /** A successful fork: the child process waits in readyqueue with its one thread. */
  lemma ForkedAgrees(s: Sched, s': Sched, c: nat, t: nat)
    requires Shape(s) && Agrees(s) && c < NR_TASKS && t < THREAD_STRUCTS
    requires s.In(Task(c), FreeTasks)
    requires s'.Sized() && s'.mutexes == s.mutexes
    requires s'.rings.home == s.rings.home[Task(c) := ReadyTasks][Thread(t) := Ready(c)]
    requires forall q | q != FreeTasks && q != FreeThreads && q != ReadyTasks && q != Ready(c) ::
               (q in s'.rings.seqs <==> q in s.rings.seqs) && s'.Q(q) == s.Q(q)
    requires s'.Q(Ready(c)) == [Thread(t)]
    requires s'.threads == s.threads[t := s'.threads[t]]
    requires s'.threads[t].task == c && s'.threads[t].state == Runnable
    requires s'.threads[t].quantum > 0 && s'.threads[t].tid > 0
    requires s'.tasks == s.tasks[c := s'.tasks[c]]
    requires s'.tasks[c].state == Runnable && s'.tasks[c].quantum > 0 && s'.tasks[c].nthread >= 2
    ensures Agrees(s')
  {
    forall x | Thread(x) in s'.rings.home
      ensures ThreadAgrees(s', x)
    {
      if x != t {
        assert ThreadAgrees(s, x);
      }
    }
    forall x | Task(x) in s'.rings.home
      ensures TaskAgrees(s', x)
    {
      if x != c {
        assert TaskAgrees(s, x);
      }
    }
    assert forall m: nat | m < NR_MUTEX :: MutexAgrees(s, m) ==> MutexAgrees(s', m);
  }

  lemma AppendTwice(r: Rings, q: Queue, n: Node, h: Queue, t: Node)
    requires WellFormed(r) && q in r.seqs && h in r.seqs && n !in r.home && t !in r.home && n != t
    ensures WellFormed(Append(Append(r, q, n), h, t))
  {
    AppendWellFormed(r, q, n);
    AppendWellFormed(Append(r, q, n), h, t);
  }

  lemma HomeAfterReuse(home: map<Node, Queue>, n: Node, q: Queue, t: Node, h: Queue)
    ensures (home - {n} - {t})[n := q][t := h] == home[n := q][t := h]
  {
  }

  lemma ForkedInv(s: Sched)
    requires Inv(s) && CanFork(s)
    ensures Inv(Fork(s, true).0)
  {
    var s', c, t := ForkedState(s);
    ForkedSettles(s, s', c, t);
  }

  /** What a successful fork changes. */
  lemma ForkedState(s: Sched) returns (s': Sched, c: nat, t: nat)
    requires Inv(s) && CanFork(s)
    ensures s' == Fork(s, true).0 && HeadTask(s, FreeTasks) && HeadThread(s, FreeThreads)
    ensures c == FirstTask(s, FreeTasks) && t == FirstThread(s, FreeThreads)
    ensures s'.rings.seqs == s.rings.seqs[FreeTasks := s.Q(FreeTasks)[1..]][FreeThreads := s.Q(FreeThreads)[1..]]
                                         [ReadyTasks := s.Q(ReadyTasks) + [Task(c)]]
                                         [Ready(c) := s.Q(Ready(c)) + [Thread(t)]]
    ensures s.Q(Ready(c)) == []
    ensures WellFormed(s'.rings) && s'.rings.home == s.rings.home[Task(c) := ReadyTasks][Thread(t) := Ready(c)]
    ensures s'.Sized() && s'.mutexes == s.mutexes && s'.current == s.current && s'.remT == s.remT
    ensures s'.threads == s.threads[t := s.threads[s.current].(tid := 1, state := Runnable, task := c)]
    ensures s'.tasks == s.tasks[c := TaskStruct(s.lastPid + 1, Runnable, DEFAULT_QUANTUM_P, 2)]
  {
    ForkCases(s, true);
    c, t := FirstTask(s, FreeTasks), FirstThread(s, FreeThreads);
    var r := ForkedRings(s, c, t);
    s' := ForkedStructs(s, c, t);
  }

  lemma ForkedStructs(s: Sched, c: nat, t: nat) returns (s': Sched)
    requires s.Sized() && HeadTask(s, FreeTasks) && HeadThread(s, FreeThreads)
    requires c == FirstTask(s, FreeTasks) && t == FirstThread(s, FreeThreads)
    requires {ReadyTasks, Ready(c)} <= TakenRings(s.rings).seqs.Keys
    ensures Taken(s).Sized() && Taken(s).rings == TakenRings(s.rings) && s' == ReadyChild(Taken(s), c, t)
    ensures s'.rings == Append(Append(TakenRings(s.rings), ReadyTasks, Task(c)), Ready(c), Thread(t))
    ensures s'.Sized() && s'.mutexes == s.mutexes && s'.current == s.current && s'.remT == s.remT
    ensures s'.threads == s.threads[t := s.threads[s.current].(tid := 1, state := Runnable, task := c)]
    ensures s'.tasks == s.tasks[c := TaskStruct(s.lastPid + 1, Runnable, DEFAULT_QUANTUM_P, 2)]
  {
    s' := ReadyChild(Taken(s), c, t);
  }

  lemma ForkedRings(s: Sched, c: nat, t: nat) returns (r: Rings)
    requires Inv(s) && CanFork(s) && HeadTask(s, FreeTasks) && HeadThread(s, FreeThreads)
    requires c == FirstTask(s, FreeTasks) && t == FirstThread(s, FreeThreads)
    ensures {ReadyTasks, Ready(c)} <= TakenRings(s.rings).seqs.Keys && s.Q(Ready(c)) == []
    ensures r == Append(Append(TakenRings(s.rings), ReadyTasks, Task(c)), Ready(c), Thread(t)) && WellFormed(r)
    ensures r.seqs == s.rings.seqs[FreeTasks := s.Q(FreeTasks)[1..]][FreeThreads := s.Q(FreeThreads)[1..]]
                                  [ReadyTasks := s.Q(ReadyTasks) + [Task(c)]]
                                  [Ready(c) := s.Q(Ready(c)) + [Thread(t)]]
    ensures r.home == s.rings.home[Task(c) := ReadyTasks][Thread(t) := Ready(c)]
  {
    TakenWellFormed(s);
    HeadOfFreeTasks(s);
    AppendTwice(TakenRings(s.rings), ReadyTasks, Task(c), Ready(c), Thread(t));
    HomeAfterReuse(s.rings.home, Task(c), ReadyTasks, Thread(t), Ready(c));
    r := Append(Append(TakenRings(s.rings), ReadyTasks, Task(c)), Ready(c), Thread(t));
  }

  lemma ForkedSettles(s: Sched, s': Sched, c: nat, t: nat)
    requires Inv(s) && CanFork(s) && HeadTask(s, FreeTasks) && HeadThread(s, FreeThreads)
    requires c == FirstTask(s, FreeTasks) && t == FirstThread(s, FreeThreads)
    requires s'.rings.seqs == s.rings.seqs[FreeTasks := s.Q(FreeTasks)[1..]][FreeThreads := s.Q(FreeThreads)[1..]]
                                          [ReadyTasks := s.Q(ReadyTasks) + [Task(c)]]
                                          [Ready(c) := s.Q(Ready(c)) + [Thread(t)]]
    requires s.Q(Ready(c)) == []
    requires WellFormed(s'.rings) && s'.rings.home == s.rings.home[Task(c) := ReadyTasks][Thread(t) := Ready(c)]
    requires s'.Sized() && s'.mutexes == s.mutexes && s'.current == s.current && s'.remT == s.remT
    requires s'.threads == s.threads[t := s.threads[s.current].(tid := 1, state := Runnable, task := c)]
    requires s'.tasks == s.tasks[c := TaskStruct(s.lastPid + 1, Runnable, DEFAULT_QUANTUM_P, 2)]
    ensures Inv(s')
  {
    ForkedQueues(s, s', c, t);
    ForkedAgrees(s, s', c, t);
    ForkedCurrent(s, s', c, t);
  }

  lemma ForkedQueues(s: Sched, s': Sched, c: nat, t: nat)
    requires CanFork(s) && s.Q(Ready(c)) == []
    requires s'.rings.seqs == s.rings.seqs[FreeTasks := s.Q(FreeTasks)[1..]][FreeThreads := s.Q(FreeThreads)[1..]]
                                          [ReadyTasks := s.Q(ReadyTasks) + [Task(c)]]
                                          [Ready(c) := s.Q(Ready(c)) + [Thread(t)]]
    ensures forall q | q != FreeTasks && q != FreeThreads && q != ReadyTasks && q != Ready(c) ::
              (q in s'.rings.seqs <==> q in s.rings.seqs) && s'.Q(q) == s.Q(q)
    ensures s'.Q(Ready(c)) == [Thread(t)]
    ensures s.rings.seqs.Keys <= s'.rings.seqs.Keys
  {
  }

  lemma ForkedCurrent(s: Sched, s': Sched, c: nat, t: nat)
    requires CurrentAgrees(s) && s.In(Task(c), FreeTasks) && s.In(Thread(t), FreeThreads) && c < NR_TASKS && t < THREAD_STRUCTS
    requires s'.Sized() && s'.current == s.current
    requires s'.rings.home == s.rings.home[Task(c) := ReadyTasks][Thread(t) := Ready(c)]
    requires s'.threads == s.threads[t := s'.threads[t]] && s'.tasks == s.tasks[c := s'.tasks[c]]
    ensures CurrentAgrees(s')
  {
  }

  lemma ForkInv(s: Sched, frames: bool)
    requires Inv(s)
    ensures Inv(Fork(s, frames).0)
  {
    if CanFork(s) {
      if frames {
        ForkedInv(s);
      } else {
        ForkFailedInv(s);
      }
    }
  }

  // ------------------------------------------------------------------ sys_exit

  /** All threads of `q` return to the free queue, in order, with their TIDs cleared. */
  function DrainThreads(s: Sched, q: Queue): Sched
    requires {q, FreeThreads} <= s.rings.seqs.Keys
  {
    var ns := s.Q(q);
    s.(rings := Drained(s.rings, q, FreeThreads, |ns|), threads := Untagged(s.threads, ns))
  }

  /** The first `k` threads of `q` are free. */
  function PartlyDrained(s: Sched, q: Queue, k: nat): Sched
    requires {q, FreeThreads} <= s.rings.seqs.Keys && k <= |s.Q(q)|
  {
    s.(rings := Drained(s.rings, q, FreeThreads, k), threads := Untagged(s.threads, s.Q(q)[..k]))
  }

  function Untagged(ts: seq<ThreadStruct>, ns: seq<Node>): (ts': seq<ThreadStruct>)
    ensures |ts'| == |ts|
    ensures forall t | 0 <= t < |ts| :: ts'[t] == if Thread(t) in ns then ts[t].(tid := -1) else ts[t]
  {
    seq(|ts|, t requires 0 <= t < |ts| => if Thread(t) in ns then ts[t].(tid := -1) else ts[t])
  }

  /** The first thread of `q` becomes the last free one. */
  function OneDrained(s: Sched, q: Queue): Sched
    requires {q, FreeThreads} <= s.rings.seqs.Keys && s.Sized() && HeadThread(s, q)
  {
    var t := FirstThread(s, q);
    SetThread(s.(rings := Moved(s.rings, q, FreeThreads)), t, s.threads[t].(tid := -1))
  }

  lemma NoneDrained(s: Sched, q: Queue)
    requires {q, FreeThreads} <= s.rings.seqs.Keys && q != FreeThreads
    ensures PartlyDrained(s, q, 0) == s
  {
    assert s.Q(FreeThreads) + s.Q(q)[..0] == s.Q(FreeThreads);
    assert Untagged(s.threads, s.Q(q)[..0]) == s.threads;
    assert Drained(s.rings, q, FreeThreads, 0).home == s.rings.home;
  }

  lemma AllDrained(s: Sched, q: Queue)
    requires {q, FreeThreads} <= s.rings.seqs.Keys && q != FreeThreads
    ensures PartlyDrained(s, q, |s.Q(q)|) == DrainThreads(s, q)
  {
    assert s.Q(q)[..|s.Q(q)|] == s.Q(q);
  }

  lemma DrainOneMore(s: Sched, q: Queue, k: nat)
    requires s.Sized() && WellFormed(s.rings) && {q, FreeThreads} <= s.rings.seqs.Keys && q != FreeThreads
    requires k < |s.Q(q)| && s.Q(q)[k].Thread? && s.Q(q)[k].t < THREAD_STRUCTS
    ensures var sk := PartlyDrained(s, q, k);
            && sk.Sized() && HeadThread(sk, q)
            && OneDrained(sk, q) == PartlyDrained(s, q, k + 1)
  {
    var js := s.rings.seqs[q];
    assert s.rings.home[js[k]] == q;
    DrainedStep(s.rings, q, FreeThreads, k);
    assert js[..k + 1] == js[..k] + [js[k]];
    assert js[k] !in js[..k];
    UntagOneMore(s.threads, js[..k], js[k].t);
  }

  lemma UntagOneMore(ts: seq<ThreadStruct>, ns: seq<Node>, t: nat)
    requires t < |ts| && Thread(t) !in ns
    ensures Untagged(ts, ns + [Thread(t)]) == Untagged(ts, ns)[t := ts[t].(tid := -1)]
  {
  }

  /** There is a process to go on with, and nobody of this one waits on a mutex. */
  predicate ExitGuard(s: Sched)
    requires s.Sized()
  {
    && s.Q(ReadyTasks) != []
    && forall t | 0 <= t < THREAD_STRUCTS && s.Linked(Thread(t)) && s.rings.home[Thread(t)].Waiting? ::
         s.threads[t].task != s.Proc()
  }

  /** The process's struct and all its threads but the running one are free again. */
  function Released(s: Sched): Sched
    requires Inv(s)
  {
    DrainThreads(DrainThreads(FreedTask(s), Ready(s.Proc())), Joining(s.Proc()))
  }

  function FreedTask(s: Sched): Sched
    requires Inv(s)
  {
    var p := s.Proc();
    SetTask(Enqueue(s, FreeTasks, Task(p)), p, s.tasks[p].(pid := -1))
  }

  lemma FreedTaskShape(s: Sched)
    requires Inv(s)
    ensures Shape(FreedTask(s))
  {
    AppendWellFormed(s.rings, FreeTasks, Task(s.Proc()));
  }

  ghost predicate DrainOf(s: Sched, s': Sched, q: Queue)
    requires s.Sized() && s'.Sized()
  {
    && s'.Q(q) == [] && s'.Q(FreeThreads) == s.Q(FreeThreads) + s.Q(q)
    && (forall h | h != q && h != FreeThreads :: s'.Q(h) == s.Q(h))
    && s'.rings.seqs.Keys == s.rings.seqs.Keys
    && s'.rings.home.Keys == s.rings.home.Keys
    && (forall n | n in s.rings.home :: s'.rings.home[n] == if s.rings.home[n] == q then FreeThreads else s.rings.home[n])
    && (forall t | 0 <= t < THREAD_STRUCTS && !s.In(Thread(t), q) :: s'.threads[t] == s.threads[t])
    && s' == s.(rings := s'.rings, threads := s'.threads)
  }

  lemma DrainedQueues(s: Sched, q: Queue)
    requires Shape(s) && q in s.rings.seqs && q != FreeThreads
    ensures Shape(DrainThreads(s, q)) && DrainOf(s, DrainThreads(s, q), q)
  {
    DrainedWellFormed(s.rings, q, FreeThreads, |s.Q(q)|);
    DrainedAll(s.rings, Drained(s.rings, q, FreeThreads, |s.Q(q)|), q, FreeThreads);
    UntaggedOthers(s, q);
    DrainIs(s, DrainThreads(s, q), q);
  }

  lemma UntaggedOthers(s: Sched, q: Queue)
    requires Shape(s) && q in s.rings.seqs
    ensures forall t | 0 <= t < THREAD_STRUCTS && !s.In(Thread(t), q) :: Untagged(s.threads, s.Q(q))[t] == s.threads[t]
  {
  }

  lemma DrainIs(s: Sched, s': Sched, q: Queue)
    requires Shape(s) && q in s.rings.seqs && q != FreeThreads
    requires s' == s.(rings := s'.rings, threads := s'.threads) && |s'.threads| == THREAD_STRUCTS
    requires WellFormed(s'.rings) && s'.rings.seqs == s.rings.seqs[FreeThreads := s.rings.seqs[FreeThreads] + s.rings.seqs[q]][q := []]
    requires s'.rings.home.Keys == s.rings.home.Keys
    requires forall n | n in s.rings.home :: s'.rings.home[n] == if s.rings.home[n] == q then FreeThreads else s.rings.home[n]
    requires forall t | 0 <= t < THREAD_STRUCTS && !s.In(Thread(t), q) :: s'.threads[t] == s.threads[t]
    ensures Shape(s') && DrainOf(s, s', q)
  {
  }

  predicate AllThreads(ns: seq<Node>) {
    forall i | 0 <= i < |ns| :: ns[i].Thread? && ns[i].t < THREAD_STRUCTS
  }

  lemma QueuedThreads(s: Sched, q: Queue)
    requires Shape(s) && Agrees(s) && (q.Ready? || q.Joining?)
    ensures AllThreads(s.Q(q))
  {
    forall i | 0 <= i < |s.Q(q)|
      ensures s.Q(q)[i].Thread? && s.Q(q)[i].t < THREAD_STRUCTS
    {
      QueuedAt(s, q, i);
    }
  }

  /** The two loops of sys_exit meet threads only. */
  lemma ExitingThreads(s: Sched)
    requires Inv(s)
    ensures var s1, p := FreedTask(s), s.Proc();
            && {Ready(p), Joining(p), FreeThreads} <= s1.rings.seqs.Keys
            && AllThreads(s1.Q(Ready(p)))
            && AllThreads(DrainThreads(s1, Ready(p)).Q(Joining(p)))
            && {Joining(p), FreeThreads} <= DrainThreads(s1, Ready(p)).rings.seqs.Keys
  {
    FreedTaskShape(s);
    QueuedThreads(s, Ready(s.Proc()));
    QueuedThreads(s, Joining(s.Proc()));
    DrainedQueues(FreedTask(s), Ready(s.Proc()));
  }

  /** Queues and structs of an exited process, relative to those before. */
  ghost predicate IsReleased(s: Sched, s': Sched, p: nat)
    requires s.Sized() && p < NR_TASKS
  {
    && s'.Sized()
    && s'.Q(Ready(p)) == [] && s'.Q(Joining(p)) == []
    && s'.Q(FreeTasks) == s.Q(FreeTasks) + [Task(p)]
    && s'.Q(FreeThreads) == s.Q(FreeThreads) + s.Q(Ready(p)) + s.Q(Joining(p))
    && s'.In(Task(p), FreeTasks)
    && s' == s.(rings := s'.rings, threads := s'.threads, tasks := s.tasks[p := s.tasks[p].(pid := -1)])
  }

  ghost predicate OthersKept(s: Sched, s': Sched, p: nat)
    requires s.Sized() && s'.Sized()
  {
    && (forall h | h != FreeTasks && h != FreeThreads && h != Ready(p) && h != Joining(p) ::
          (h in s'.rings.seqs <==> h in s.rings.seqs) && s'.Q(h) == s.Q(h))
    && (forall n | n != Task(p) :: s.Linked(n) <==> s'.Linked(n))
    && (forall n | n != Task(p) && s.Linked(n) ::
          s'.rings.home[n] ==
            if s.rings.home[n] == Ready(p) || s.rings.home[n] == Joining(p) then FreeThreads else s.rings.home[n])
    && (forall t | 0 <= t < THREAD_STRUCTS && !s.In(Thread(t), Ready(p)) && !s.In(Thread(t), Joining(p)) ::
          s'.threads[t] == s.threads[t])
  }

  lemma ReleasedQueues(s: Sched)
    requires Inv(s)
    ensures Shape(Released(s))
    ensures IsReleased(s, Released(s), s.Proc())
    ensures OthersKept(s, Released(s), s.Proc())
  {
    FreedTaskShape(s);
    DrainsOf(s, FreedTask(s), s.Proc());
  }

  lemma DrainsOf(s: Sched, s1: Sched, p: nat)
    requires Shape(s) && p < NR_TASKS && !s.Linked(Task(p)) && Shape(s1)
    requires s1 == SetTask(Enqueue(s, FreeTasks, Task(p)), p, s.tasks[p].(pid := -1))
    ensures var s3 := DrainThreads(DrainThreads(s1, Ready(p)), Joining(p));
            Shape(s3) && IsReleased(s, s3, p) && OthersKept(s, s3, p)
  {
    var s2, s3 := DrainBoth(s1, p);
    TwoDrains(s, s1, s2, s3, p);
  }

  lemma DrainBoth(s1: Sched, p: nat) returns (s2: Sched, s3: Sched)
    requires p < NR_TASKS && Shape(s1)
    ensures s3 == DrainThreads(DrainThreads(s1, Ready(p)), Joining(p))
    ensures Shape(s2) && Shape(s3) && DrainOf(s1, s2, Ready(p)) && DrainOf(s2, s3, Joining(p))
  {
    DrainedQueues(s1, Ready(p));
    s2 := DrainThreads(s1, Ready(p));
    DrainedQueues(s2, Joining(p));
    s3 := DrainThreads(s2, Joining(p));
  }

  lemma TwoDrains(s: Sched, s1: Sched, s2: Sched, s3: Sched, p: nat)
    requires s.Sized() && p < NR_TASKS && s1.Sized() && s2.Sized() && s3.Sized()
    requires !s.Linked(Task(p)) && {FreeTasks, FreeThreads, Ready(p), Joining(p)} <= s.rings.seqs.Keys
    requires s1 == SetTask(Enqueue(s, FreeTasks, Task(p)), p, s.tasks[p].(pid := -1))
    requires DrainOf(s1, s2, Ready(p)) && DrainOf(s2, s3, Joining(p))
    ensures IsReleased(s, s3, p) && OthersKept(s, s3, p)
  {
    assert s1.rings.home == s.rings.home[Task(p) := FreeTasks];
    DrainedHomes(s, s1, s2, s3, p);
  }

  lemma DrainedHomes(s: Sched, s1: Sched, s2: Sched, s3: Sched, p: nat)
    requires s1.rings.home == s.rings.home[Task(p) := FreeTasks]
    requires s1.Sized() && s2.Sized() && s3.Sized() && DrainOf(s1, s2, Ready(p)) && DrainOf(s2, s3, Joining(p))
    ensures s3.In(Task(p), FreeTasks)
    ensures forall n | n != Task(p) :: s.Linked(n) <==> s3.Linked(n)
    ensures forall n | n != Task(p) && s.Linked(n) ::
              s3.rings.home[n] ==
                if s.rings.home[n] == Ready(p) || s.rings.home[n] == Joining(p) then FreeThreads else s.rings.home[n]
  {
    assert s3.rings.home.Keys == s1.rings.home.Keys;
    assert forall n | n in s1.rings.home :: n in s2.rings.home && n in s3.rings.home;
  }

  lemma ReleasedAgrees(s: Sched)
    requires Inv(s) && ExitGuard(s)
    ensures Shape(Released(s)) && Agrees(Released(s))
  {
    ReleasedQueues(s);
    ReleasedIsAgreed(s, Released(s), s.Proc());
  }

  lemma ReleasedIsAgreed(s: Sched, s': Sched, p: nat)
    requires Shape(s) && Agrees(s) && p < NR_TASKS && !s.Linked(Task(p)) && IsReleased(s, s', p)
    requires OthersKept(s, s', p)
    requires forall t | 0 <= t < THREAD_STRUCTS && s.Linked(Thread(t)) && s.rings.home[Thread(t)].Waiting? ::
               s.threads[t].task != p
    ensures Agrees(s')
  {
    ReleasedThreadsAgree(s, s', p);
    ReleasedTasksAgree(s, s', p);
    assert forall m: nat | m < NR_MUTEX :: MutexAgrees(s, m) ==> MutexAgrees(s', m);
  }

  lemma ReleasedThreadsAgree(s: Sched, s': Sched, p: nat)
    requires Shape(s) && Agrees(s) && p < NR_TASKS && !s.Linked(Task(p)) && IsReleased(s, s', p)
    requires OthersKept(s, s', p)
    requires forall t | 0 <= t < THREAD_STRUCTS && s.Linked(Thread(t)) && s.rings.home[Thread(t)].Waiting? ::
               s.threads[t].task != p
    ensures forall t: nat | Thread(t) in s'.rings.home :: ThreadAgrees(s', t)
  {
    forall t: nat | Thread(t) in s'.rings.home
      ensures ThreadAgrees(s', t)
    {
      assert s.Linked(Thread(t));
      assert ThreadAgrees(s, t);
      ReleasedLeavesLive(s, s', p, s.threads[t].task);
    }
  }

  lemma ReleasedTasksAgree(s: Sched, s': Sched, p: nat)
    requires Shape(s) && Agrees(s) && p < NR_TASKS && IsReleased(s, s', p) && OthersKept(s, s', p)
    ensures forall x: nat | Task(x) in s'.rings.home :: TaskAgrees(s', x)
  {
    forall x: nat | Task(x) in s'.rings.home
      ensures TaskAgrees(s', x)
    {
      if x != p {
        assert s.Linked(Task(x));
        assert TaskAgrees(s, x);
      }
    }
  }

  lemma ReleasedLeavesLive(s: Sched, s': Sched, p: nat, x: nat)
    requires s.Sized() && p < NR_TASKS && IsReleased(s, s', p) && OthersKept(s, s', p)
    ensures x != p && Live(s, x) ==> Live(s', x)
  {
    if x != p && s'.Linked(Task(x)) {
      assert s.Linked(Task(x));
    }
  }

  function Exit(s: Sched): Sched
    requires Inv(s) && ExitGuard(s)
  {
    ExitDispatches(s);
    NextProcess(Released(s))
  }

  lemma ExitDispatches(s: Sched)
    requires Inv(s) && ExitGuard(s)
    ensures Released(s).Sized() && HeadTask(Released(s), ReadyTasks)
    ensures HeadThread(Released(s), Ready(FirstTask(Released(s), ReadyTasks)))
    ensures Inv(NextProcess(Released(s)))
    ensures FirstTask(Released(s), ReadyTasks) == NextProcess(Released(s)).Proc()
  {
    ReleasedQueues(s);
    ReleasedAgrees(s);
    DispatchProcess(Released(s));
  }
}
