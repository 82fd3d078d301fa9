/** The building blocks of the scheduler's invariant: parking the running thread in a
    queue and dispatching another one. */
module Agreement {
  import opened Options
  import opened Rings
  import opened Scheduling

  /** Only the queue appended to changes, at its tail. */
  lemma EnqueueQueues(s: Sched, q: Queue, n: Node)
    requires Shape(s) && q in s.rings.seqs && !s.Linked(n)
    ensures Shape(Enqueue(s, q, n))
    ensures forall h :: Enqueue(s, q, n).Q(h) == if h == q then s.Q(q) + [n] else s.Q(h)
  {
    AppendWellFormed(s.rings, q, n);
  }

  /** Taking the head of a queue leaves its tail. */
  lemma DequeueHead(s: Sched, q: Queue)
    requires Shape(s) && q in s.rings.seqs && s.Q(q) != []
    ensures var n := s.Q(q)[0];
            && s.In(n, q)
            && Shape(Dequeue(s, n))
            && Dequeue(s, n).rings.home == s.rings.home - {n}
            && forall h :: Dequeue(s, n).Q(h) == if h == q then s.Q(q)[1..] else s.Q(h)
  {
    var n := s.Q(q)[0];
    assert s.rings.home[s.rings.seqs[q][0]] == q;
    DeleteWellFormed(s.rings, n);
    assert Without(s.rings.seqs[q], n) == s.rings.seqs[q][1..];
  }

  lemma ShapeOfUpdate(s: Sched, s': Sched)
    requires Shape(s) && s'.rings == s.rings && s'.Sized()
    ensures Shape(s')
  {
  }

  predicate Parkable(s: Sched, q: Queue)
    requires s.Sized()
  {
    q in s.rings.seqs &&
    match q
    case Ready(p) => p == s.Proc()
    case Joining(p) => p == s.Proc()
    case Waiting(m) => m < NR_MUTEX && s.mutexes[m].owner > 0 && s.mutexes[m].locked
    case _ => false
  }

  /** After parking the running thread everything agrees, but nobody runs. */
  lemma ParkThread(s: Sched, q: Queue)
    requires Settled(s) && Parkable(s, q)
    ensures var s' := UpdateThread(s, s.current, Some(q));
            && Shape(s') && Agrees(s')
            && s'.Proc() == s.Proc() && Live(s', s.Proc()) && RunningTask(s', s.Proc())
            && s'.tasks == s.tasks && s'.rings == Append(s.rings, q, Thread(s.current))
  {
    var s' := UpdateThread(s, s.current, Some(q));
    EnqueueQueues(s, q, Thread(s.current));
    ShapeOfUpdate(Enqueue(s, q, Thread(s.current)), s');
    forall t | Thread(t) in s'.rings.home
      ensures ThreadAgrees(s', t)
    {
      if t != s.current {
        assert ThreadAgrees(s, t);
      }
    }
    forall p | Task(p) in s'.rings.home
      ensures TaskAgrees(s', p)
    {
      assert TaskAgrees(s, p);
    }
    forall m: nat | m < NR_MUTEX
      ensures MutexAgrees(s', m)
    {
      assert MutexAgrees(s, m);
    }
  }

  /** sched_next_thread_rr after a park (or after an exit) re-establishes the invariant. */
  lemma DispatchThread(s: Sched)
    requires Shape(s) && Agrees(s)
    requires s.Proc() < NR_TASKS && RunningTask(s, s.Proc())
    requires s.Q(Ready(s.Proc())) != []
    ensures HeadThread(s, Ready(s.Proc()))
    ensures Inv(NextThread(s)) && NextThread(s).Proc() == s.Proc()
  {
    HeadOfReady(s, s.Proc());
    assert s.tasks == s.tasks[s.Proc() := s.tasks[s.Proc()].(state := Running)];
    RunHeadThread(s, NextThread(s), s.Proc());
  }

  predicate NodeAgrees(s: Sched, n: Node) {
    match n
    case Task(p) => TaskAgrees(s, p)
    case Thread(t) => ThreadAgrees(s, t)
  }

  /** Every member of a queue is linked there, and its struct agrees with that. */
  lemma QueuedAt(s: Sched, q: Queue, i: nat)
    requires Shape(s) && Agrees(s) && i < |s.Q(q)|
    ensures s.In(s.Q(q)[i], q) && NodeAgrees(s, s.Q(q)[i])
  {
    assert s.rings.home[s.rings.seqs[q][i]] == q;
  }

  lemma HeadOfReady(s: Sched, p: nat)
    requires Shape(s) && Agrees(s) && p < NR_TASKS && s.Q(Ready(p)) != []
    ensures HeadThread(s, Ready(p))
    ensures var t := FirstThread(s, Ready(p));
            LiveThread(s, t) && s.threads[t].task == p && s.threads[t].state == Runnable
  {
    QueuedAt(s, Ready(p), 0);
  }

  /** Unlinking the head of the ready list of a process that is itself unlinked, and
      changing only that thread's struct, keeps the agreement of everything else. */
  lemma TakenAgrees(s: Sched, s': Sched, q: Queue)
    requires Shape(s) && Agrees(s) && s'.Sized()
    requires q.Ready? && HeadThread(s, q) && !s.Linked(Task(q.p))
    requires s'.rings == Dequeue(s, s.Q(q)[0]).rings
    requires forall t: nat | t < THREAD_STRUCTS && t != s.Q(q)[0].t :: s'.threads[t] == s.threads[t]
    requires forall p: nat | p < NR_TASKS && s.Linked(Task(p)) :: s'.tasks[p] == s.tasks[p]
    requires s'.mutexes == s.mutexes
    ensures Agrees(s')
  {
    TakenHead(s, s', q);
    TakenThreadsAgree(s, s', s.Q(q)[0].t);
    TakenTasksAgree(s, s', q);
    TakenMutexesAgree(s, s', q);
  }

  lemma TakenHead(s: Sched, s': Sched, q: Queue)
    requires Shape(s) && HeadThread(s, q) && s'.rings == Dequeue(s, s.Q(q)[0]).rings
    ensures s'.rings.home == s.rings.home - {s.Q(q)[0]} && s'.rings.seqs.Keys == s.rings.seqs.Keys
    ensures forall h | h != q :: s'.Q(h) == s.Q(h)
  {
    DequeueHead(s, q);
  }

  lemma TakenThreadsAgree(s: Sched, s': Sched, x: nat)
    requires Agrees(s) && s.Sized() && s'.Sized()
    requires s'.rings.home == s.rings.home - {Thread(x)}
    requires forall t: nat | t < THREAD_STRUCTS && t != x :: s'.threads[t] == s.threads[t]
    ensures forall t | Thread(t) in s'.rings.home :: ThreadAgrees(s', t)
  {
    forall t | Thread(t) in s'.rings.home
      ensures ThreadAgrees(s', t)
    {
      assert ThreadAgrees(s, t);
    }
  }

  lemma TakenMutexesAgree(s: Sched, s': Sched, q: Queue)
    requires Agrees(s) && s.Sized() && s'.Sized() && q.Ready? && s'.mutexes == s.mutexes
    requires forall h | h != q :: s'.Q(h) == s.Q(h)
    requires s'.rings.seqs.Keys == s.rings.seqs.Keys
    ensures forall m: nat | m < NR_MUTEX :: MutexAgrees(s', m)
  {
    forall m: nat | m < NR_MUTEX
      ensures MutexAgrees(s', m)
    {
      assert MutexAgrees(s, m);
    }
  }

  lemma TakenTasksAgree(s: Sched, s': Sched, q: Queue)
    requires s.Sized() && Agrees(s) && s'.Sized()
    requires q.Ready? && !s.Linked(Task(q.p))
    requires forall h | h != q :: s'.Q(h) == s.Q(h)
    requires forall n | n in s'.rings.home :: n in s.rings.home && s'.rings.home[n] == s.rings.home[n]
    requires forall p: nat | p < NR_TASKS && s.Linked(Task(p)) :: s'.tasks[p] == s.tasks[p]
    ensures forall p | Task(p) in s'.rings.home :: TaskAgrees(s', p)
  {
    forall p | Task(p) in s'.rings.home
      ensures TaskAgrees(s', p)
    {
      assert TaskAgrees(s, p);
    }
  }

  /** The running process goes to the end of readyqueue once it has a thread to run. */
  lemma ParkTask(s: Sched, p: nat)
    requires Shape(s) && Agrees(s) && p < NR_TASKS && RunningTask(s, p)
    requires s.Q(Ready(p)) != []
    ensures Shape(UpdateProcess(s, p)) && Agrees(UpdateProcess(s, p))
  {
    var s' := UpdateProcess(s, p);
    var s1 := SetTask(s, p, s.tasks[p].(state := Runnable));
    ShapeOfUpdate(s, s1);
    EnqueueQueues(s1, ReadyTasks, Task(p));
    forall t | Thread(t) in s'.rings.home
      ensures ThreadAgrees(s', t)
    {
      assert ThreadAgrees(s, t);
    }
    forall x | Task(x) in s'.rings.home
      ensures TaskAgrees(s', x)
    {
      if x != p {
        assert TaskAgrees(s, x);
      }
    }
    forall m: nat | m < NR_MUTEX
      ensures MutexAgrees(s', m)
    {
      assert MutexAgrees(s, m);
    }
  }

  lemma HeadOfReadyTasks(s: Sched)
    requires Shape(s) && Agrees(s) && s.Q(ReadyTasks) != []
    ensures HeadTask(s, ReadyTasks)
    ensures var p := FirstTask(s, ReadyTasks);
            && s.tasks[p].quantum > 0 && s.tasks[p].nthread >= 2
            && HeadThread(s, Ready(p)) && Live(s, p)
            && LiveThread(s, FirstThread(s, Ready(p))) && s.threads[FirstThread(s, Ready(p))].task == p
  {
    QueuedAt(s, ReadyTasks, 0);
    HeadOfReady(s, s.Q(ReadyTasks)[0].p);
  }

  lemma UnlinkedTaskAgrees(s: Sched)
    requires Shape(s) && Agrees(s) && HeadTask(s, ReadyTasks)
    ensures Shape(Dequeue(s, s.Q(ReadyTasks)[0])) && Agrees(Dequeue(s, s.Q(ReadyTasks)[0]))
  {
    DequeueHead(s, ReadyTasks);
    UnlinkedKeepsAgreement(s, Dequeue(s, s.Q(ReadyTasks)[0]), FirstTask(s, ReadyTasks));
  }

  lemma UnlinkedKeepsAgreement(s: Sched, s': Sched, p: nat)
    requires s.Sized() && Agrees(s) && s' == s.(rings := s'.rings)
    requires s'.rings.home == s.rings.home - {Task(p)} && s'.rings.seqs.Keys == s.rings.seqs.Keys
    requires forall h | h != ReadyTasks :: s'.Q(h) == s.Q(h)
    ensures Agrees(s')
  {
    forall t | Thread(t) in s'.rings.home
      ensures ThreadAgrees(s', t)
    {
      assert ThreadAgrees(s, t);
    }
    forall x | Task(x) in s'.rings.home
      ensures TaskAgrees(s', x)
    {
      assert TaskAgrees(s, x);
    }
    forall m: nat | m < NR_MUTEX
      ensures MutexAgrees(s', m)
    {
      assert MutexAgrees(s, m);
    }
  }

  /** sched_next_process_rr always finds a real process with a real thread. */
  lemma DispatchProcess(s: Sched)
    requires Shape(s) && Agrees(s) && s.Q(ReadyTasks) != []
    ensures HeadTask(s, ReadyTasks)
    ensures HeadThread(s, Ready(FirstTask(s, ReadyTasks)))
    ensures Inv(NextProcess(s))
    ensures NextProcess(s).Proc() == FirstTask(s, ReadyTasks)
  {
    HeadOfReadyTasks(s);
    UnlinkedTaskAgrees(s);
    DequeueHead(s, ReadyTasks);
    var p := FirstTask(s, ReadyTasks);
    RunHeadThread(Dequeue(s, Task(p)), NextProcess(s), p);
  }

  /** Unlinking the first ready thread of an unlinked process and marking both RUN. */
  lemma RunHeadThread(s: Sched, s': Sched, p: nat)
    requires Shape(s) && Agrees(s) && p < NR_TASKS && !s.Linked(Task(p))
    requires HeadThread(s, Ready(p))
    requires var t := FirstThread(s, Ready(p));
             && LiveThread(s, t) && s.threads[t].task == p
             && s'.rings == Dequeue(s, Thread(t)).rings
             && s'.threads == s.threads[t := s.threads[t].(state := Running)]
             && s'.tasks == s.tasks[p := s.tasks[p].(state := Running)]
             && s'.current == t
    requires s.tasks[p].quantum > 0 && s.tasks[p].nthread >= 2
    requires s'.mutexes == s.mutexes
    ensures Settled(s')
  {
    DequeueHead(s, Ready(p));
    ShapeOfUpdate(Dequeue(s, Thread(FirstThread(s, Ready(p)))), s');
    TakenAgrees(s, s', Ready(p));
    HeadRuns(s, s', FirstThread(s, Ready(p)), p);
  }

  lemma HeadRuns(s: Sched, s': Sched, t: nat, p: nat)
    requires s.Sized() && t < THREAD_STRUCTS && p < NR_TASKS && !s.Linked(Task(p)) && LiveThread(s, t) && s.threads[t].task == p
    requires s'.rings.home == s.rings.home - {Thread(t)}
    requires s'.threads == s.threads[t := s.threads[t].(state := Running)] && s'.tasks == s.tasks[p := s.tasks[p].(state := Running)]
    requires s'.mutexes == s.mutexes && s'.current == t && s.tasks[p].quantum > 0 && s.tasks[p].nthread >= 2
    ensures CurrentAgrees(s')
  {
  }
}
