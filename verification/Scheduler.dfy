/** The scheduler and its system calls on the kernel's own data: pointer lists, arrays of
    structs, and the remaining quanta (sched.c, sys.c, mutex.c). Every method is proved to
    do what the corresponding function of Scheduling.dfy and Steps.dfy says. */
module Scheduler {
  import opened Options
  import opened Rings
  import opened ListHeap
  import opened Scheduling
  import opened Agreement
  import opened Steps
  import opened Boot

  class Scheduler {
    const heap: ListHeap
    const tasks: array<TaskStruct>
    const threads: array<ThreadStruct>
    const mutexes: array<MutexStruct>
    var current: nat
    var remP: int
    var remT: int
    var lastPid: int

    /** init_sched, init_idle and init_task1, on zeroed memory. */
    constructor ()
      ensures Valid() && fresh(Repr()) && Booted(View())
    {
      heap := new ListHeap();
      tasks := new TaskStruct[NR_TASKS](_ => TaskStruct(0, Running, 0, 0));
      threads := new ThreadStruct[THREAD_STRUCTS](_ => ThreadStruct(0, 0, Running, 0, 0));
      mutexes := new MutexStruct[NR_MUTEX](_ => MutexStruct(false, 0));
      current, remP, remT, lastPid := 0, 0, 0, 1000;
      new;
      Start();
      BootInv(View());
    }

    method Start()
      requires heap.Valid() && heap.rings == Rings(map[], map[])
      requires tasks.Length == NR_TASKS && threads.Length == THREAD_STRUCTS && mutexes.Length == NR_MUTEX
      requires forall p | 0 <= p < NR_TASKS :: tasks[p] == TaskStruct(0, Running, 0, 0)
      requires forall t | 0 <= t < THREAD_STRUCTS :: threads[t] == ThreadStruct(0, 0, Running, 0, 0)
      requires forall m | 0 <= m < NR_MUTEX :: mutexes[m] == MutexStruct(false, 0)
      requires lastPid == 1000
      modifies this, heap, tasks, threads
      ensures heap.Valid() && Booted(View())
    {
      InitSched();
      InitIdle();
      InitTask1();
      BootedView();
    }

    lemma BootedView()
      requires tasks.Length == NR_TASKS && threads.Length == THREAD_STRUCTS && mutexes.Length == NR_MUTEX
      requires FreeFrom(heap.rings, NR_TASKS, 2) && current == 1 && lastPid == 1000
      requires remP == DEFAULT_QUANTUM_P && remT == DEFAULT_QUANTUM_T
      requires forall p | 0 <= p < NR_TASKS :: tasks[p] == BootTasks()[p]
      requires forall t | 0 <= t < THREAD_STRUCTS :: threads[t] == BootThreads()[t]
      requires forall m | 0 <= m < NR_MUTEX :: mutexes[m] == MutexStruct(false, 0)
      ensures Booted(View())
    {
      assert tasks[..] == BootTasks();
      assert threads[..] == BootThreads();
    }

    method InitSched()
      requires heap.Valid() && heap.rings == Rings(map[], map[]) && tasks.Length <= threads.Length
      modifies heap, tasks, threads
      ensures heap.Valid() && FreeFrom(heap.rings, tasks.Length, 0)
      ensures forall p | 0 <= p < tasks.Length :: tasks[p] == old(tasks[p]).(pid := -1)
      ensures forall t | 0 <= t < threads.Length ::
                threads[t] == if t < tasks.Length then old(threads[t]).(tid := -1) else old(threads[t])
    {
      InitFreequeue();
      InitFreethreadqueue();
    }

    method InitFreequeue()
      requires heap.Valid() && heap.rings == Rings(map[], map[])
      modifies heap, tasks
      ensures heap.Valid() && TasksListed(heap.rings, tasks.Length)
      ensures forall p | 0 <= p < tasks.Length :: tasks[p] == old(tasks[p]).(pid := -1)
    {
      heap.InitListHead(FreeTasks);
      var i := 0;
      while i < tasks.Length
        invariant 0 <= i <= tasks.Length && heap.Valid() && TasksListed(heap.rings, i)
        invariant forall p | 0 <= p < tasks.Length :: tasks[p] == if p < i then old(tasks[p]).(pid := -1) else old(tasks[p])
      {
        tasks[i] := tasks[i].(pid := -1);
        InsertTask(i);
        i := i + 1;
      }
    }

    method InsertTask(i: nat)
      requires heap.Valid() && TasksListed(heap.rings, i)
      modifies heap
      ensures heap.Valid() && TasksListed(heap.rings, i + 1)
    {
      TasksListedStep(heap.rings, i);
      heap.InitListHead(Ready(i));
      heap.InitListHead(Joining(i));
      heap.ListAddTail(Task(i), FreeTasks);
    }

    method InitFreethreadqueue()
      requires heap.Valid() && TasksListed(heap.rings, tasks.Length) && tasks.Length <= threads.Length
      modifies heap, threads
      ensures heap.Valid() && FreeFrom(heap.rings, tasks.Length, 0)
      ensures forall t | 0 <= t < threads.Length ::
                threads[t] == if t < tasks.Length then old(threads[t]).(tid := -1) else old(threads[t])
    {
      InitReadyAndFree();
      var i := 0;
      while i < tasks.Length
        invariant 0 <= i <= tasks.Length && heap.Valid() && ThreadsListed(heap.rings, tasks.Length, i)
        invariant forall t | 0 <= t < threads.Length ::
                    threads[t] == if t < i then old(threads[t]).(tid := -1) else old(threads[t])
      {
        threads[i] := threads[i].(tid := -1);
        InsertThread(i);
        i := i + 1;
      }
      AllListed(heap.rings, tasks.Length);
    }

    method InitReadyAndFree()
      requires heap.Valid() && TasksListed(heap.rings, tasks.Length)
      modifies heap
      ensures heap.Valid() && ThreadsListed(heap.rings, tasks.Length, 0)
    {
      NoThreadsListed(heap.rings, tasks.Length);
      heap.InitListHead(ReadyTasks);
      heap.InitListHead(FreeThreads);
    }

    method InsertThread(i: nat)
      requires heap.Valid() && ThreadsListed(heap.rings, tasks.Length, i)
      modifies heap
      ensures heap.Valid() && ThreadsListed(heap.rings, tasks.Length, i + 1)
    {
      ThreadsListedStep(heap.rings, tasks.Length, i);
      heap.ListAddTail(Thread(i), FreeThreads);
    }

    method InitIdle()
      requires heap.Valid() && FreeFrom(heap.rings, tasks.Length, 0) && 0 < tasks.Length <= threads.Length
      modifies heap, tasks, threads
      ensures heap.Valid() && FreeFrom(heap.rings, tasks.Length, 1)
      ensures forall p | 0 <= p < tasks.Length ::
                tasks[p] == if p == 0 then old(tasks[p]).(pid := 0, quantum := DEFAULT_QUANTUM_P) else old(tasks[p])
      ensures forall t | 0 <= t < threads.Length ::
                threads[t] == if t == 0 then old(threads[t]).(tid := 0) else old(threads[t])
    {
      var p, t := TakeFreeHeads(0);
      tasks[p] := tasks[p].(pid := 0);
      threads[t] := threads[t].(tid := 0);
      tasks[p] := tasks[p].(quantum := DEFAULT_QUANTUM_P);
    }

    method TakeFreeHeads(ghost k: nat) returns (p: nat, t: nat)
      requires heap.Valid() && FreeFrom(heap.rings, tasks.Length, k) && k < tasks.Length
      modifies heap
      ensures p == t == k && heap.Valid() && FreeFrom(heap.rings, tasks.Length, k + 1)
    {
      HeadsTaken(heap.rings, tasks.Length, k);
      p, t := TakeFreeStructs();
    }

    /** The first free structs leave their queues. */
    method TakeFreeStructs() returns (p: nat, t: nat)
      requires heap.Valid() && {FreeTasks, FreeThreads} <= heap.rings.seqs.Keys
      requires heap.rings.seqs[FreeTasks] != [] && heap.rings.seqs[FreeTasks][0].Task?
      requires heap.rings.seqs[FreeThreads] != [] && heap.rings.seqs[FreeThreads][0].Thread?
      modifies heap
      ensures heap.Valid() && heap.rings == TakenRings(old(heap.rings))
      ensures Task(p) == old(heap.rings).seqs[FreeTasks][0] && Thread(t) == old(heap.rings).seqs[FreeThreads][0]
      ensures Task(p) !in heap.rings.home && Thread(t) !in heap.rings.home
    {
      DeleteHead(heap.rings, FreeTasks);
      DeleteHead(PopHead(heap.rings, FreeTasks), FreeThreads);
      var c := heap.ListFirst(FreeTasks);
      var ts := heap.ListFirst(FreeThreads);
      heap.ListDel(c.n);
      heap.ListDel(ts.n);
      p, t := c.n.p, ts.n.t;
    }

    method InitTask1()
      requires heap.Valid() && FreeFrom(heap.rings, tasks.Length, 1) && 1 < tasks.Length <= threads.Length
      modifies this, heap, tasks, threads
      ensures heap.Valid() && FreeFrom(heap.rings, tasks.Length, 2)
      ensures forall p | 0 <= p < tasks.Length ::
                tasks[p] == if p == 1 then old(tasks[p]).(pid := 1, state := Running, quantum := DEFAULT_QUANTUM_P, nthread := 2)
                            else old(tasks[p])
      ensures forall t | 0 <= t < threads.Length ::
                threads[t] == if t == 1 then old(threads[t]).(tid := 1, task := 1, state := Running, quantum := DEFAULT_QUANTUM_T)
                              else old(threads[t])
      ensures current == 1 && remP == DEFAULT_QUANTUM_P && remT == DEFAULT_QUANTUM_T && lastPid == old(lastPid)
    {
      var p, t := TakeFreeHeads(1);
      tasks[p] := tasks[p].(pid := 1, quantum := DEFAULT_QUANTUM_P, state := Running, nthread := 1);
      remP := tasks[p].quantum;
      var tid := tasks[p].nthread;
      tasks[p] := tasks[p].(nthread := tid + 1);
      threads[t] := threads[t].(tid := tid, task := p, state := Running, quantum := DEFAULT_QUANTUM_T);
      remT := threads[t].quantum;
      current := t;
    }

    ghost function Repr(): set<object> {
      {this, heap, tasks, threads, mutexes}
    }

    ghost function View(): Sched
      reads this, heap, tasks, threads, mutexes
    {
      Sched(heap.rings, tasks[..], threads[..], mutexes[..], current, remP, remT, lastPid)
    }

    /** The lists are circles and the arrays have the kernel's sizes. */
    ghost predicate Coherent()
      reads this, heap, tasks, threads, mutexes
    {
      heap.Valid() && View().Sized()
    }

    ghost predicate Valid()
      reads this, heap, tasks, threads, mutexes
    {
      Coherent() && Inv(View())
    }

    /** current_p() */
    function CurrentP(): nat
      requires current < threads.Length
      reads this, threads
    {
      threads[current].task
    }

    method FirstThreadOf(q: Queue) returns (t: nat)
      requires Coherent() && HeadThread(View(), q)
      ensures t == FirstThread(View(), q) && t < THREAD_STRUCTS
    {
      var a := heap.ListFirst(q);
      t := a.n.t;
    }

    method FirstTaskOf(q: Queue) returns (p: nat)
      requires Coherent() && HeadTask(View(), q)
      ensures p == FirstTask(View(), q) && p < NR_TASKS
    {
      var a := heap.ListFirst(q);
      p := a.n.p;
    }

    /** list_first and list_del. */
    method TakeFirstThread(q: Queue) returns (t: nat)
      requires Coherent() && HeadThread(View(), q)
      modifies heap
      ensures Coherent() && t == FirstThread(old(View()), q) && t < THREAD_STRUCTS
      ensures View() == Dequeue(old(View()), Thread(t))
    {
      t := FirstThreadOf(q);
      heap.ListDel(Thread(t));
    }

    method TakeFirstTask(q: Queue) returns (p: nat)
      requires Coherent() && HeadTask(View(), q)
      modifies heap
      ensures Coherent() && p == FirstTask(old(View()), q) && p < NR_TASKS
      ensures View() == Dequeue(old(View()), Task(p))
    {
      p := FirstTaskOf(q);
      heap.ListDel(Task(p));
    }

    // ---------------------------------------------------------------- sched.c

    method UpdateSchedData()
      requires Coherent()
      modifies this`remP, this`remT
      ensures Coherent() && View() == Decremented(old(View()))
    {
      remT := remT - 1;
      remP := remP - 1;
    }

    method NeedsSchedRr() returns (r: int)
      requires Coherent() && Shape(View()) && CurrentP() < NR_TASKS
      modifies this`remP, this`remT
      ensures Coherent() && r == NeedsSched(old(View()))
      ensures View() == if r == 0 then Refill(old(View())) else old(View())
    {
      var noProcess := heap.ListEmpty(ReadyTasks);
      if remP == 0 && !noProcess {
        return 1;
      }
      var noThread := heap.ListEmpty(Ready(CurrentP()));
      if remT == 0 && !noThread {
        return 2;
      }
      if remP == 0 {
        remP := tasks[CurrentP()].quantum;
      }
      if remT == 0 {
        remT := threads[current].quantum;
      }
      r := 0;
    }

    method UpdateProcessState(p: nat)
      requires Coherent() && p < NR_TASKS && ReadyTasks in View().rings.seqs
      requires tasks[p].state != Running <==> View().Linked(Task(p))
      modifies heap, tasks
      ensures Coherent() && View() == UpdateProcess(old(View()), p)
    {
      if tasks[p].state != Running {
        DeleteWellFormed(heap.rings, Task(p));
        heap.ListDel(Task(p));
      }
      heap.ListAddTail(Task(p), ReadyTasks);
      tasks[p] := tasks[p].(state := Runnable);
    }

    /** update_thread_state_rr. Neither list operation is safe for every thread: the state
        must say truly whether the thread is linked. */
    method UpdateThreadState(t: nat, dst: Option<Queue>)
      requires Coherent() && t < THREAD_STRUCTS
      requires threads[t].state != Running <==> View().Linked(Thread(t))
      requires dst.Some? ==> dst.value in View().rings.seqs
      modifies heap, threads
      ensures Coherent() && View() == UpdateThread(old(View()), t, dst)
    {
      if threads[t].state != Running {
        DeleteWellFormed(heap.rings, Thread(t));
        heap.ListDel(Thread(t));
      }
      if dst.Some? {
        heap.ListAddTail(Thread(t), dst.value);
        threads[t] := threads[t].(state := if dst.value == Ready(CurrentP()) then Runnable else Blocked);
      } else {
        threads[t] := threads[t].(state := Running);
      }
    }

    method SchedNextThread()
      requires Coherent() && HeadThread(View(), Ready(View().Proc()))
      requires threads[FirstThread(View(), Ready(View().Proc()))].state != Running
      modifies this, heap, threads
      ensures Coherent() && View() == NextThread(old(View()))
    {
      var t := FirstThreadOf(Ready(CurrentP()));
      UpdateThreadState(t, None);
      remT := threads[t].quantum;
      current := t;
    }

    /** sched_next_process_rr, with a process in readyqueue. */
    method SchedNextProcess()
      requires Coherent() && HeadTask(View(), ReadyTasks)
      requires HeadThread(View(), Ready(FirstTask(View(), ReadyTasks)))
      modifies this, heap, tasks, threads
      ensures Coherent() && View() == NextProcess(old(View()))
    {
      var p := TakeFirstTask(ReadyTasks);
      var t := TakeFirstThread(Ready(p));
      tasks[p] := tasks[p].(state := Running);
      remP := tasks[p].quantum;
      threads[t] := threads[t].(state := Running);
      remT := threads[t].quantum;
      current := t;
    }

    method Schedule()
      requires Valid()
      modifies this, heap, tasks, threads
      ensures Valid() && View() == Tick(old(View()))
    {
      TickInv(View());
      ghost var s := View();
      UpdateSchedData();
      SettledIgnoresQuanta(s, View());
      var verdict := NeedsSchedRr();
      if verdict == 1 {
        ParkProcessDispatches(View());
        UpdateProcessState(CurrentP());
        UpdateThreadState(current, Some(Ready(CurrentP())));
        SchedNextProcess();
      } else if verdict == 2 {
        ForceThreadSwitch();
      }
    }

    method ForceThreadSwitch()
      requires Coherent() && Settled(View())
      modifies this, heap, threads
      ensures Coherent() && Settled(old(View())) && HeadThread(ParkInReady(old(View())), Ready(old(View()).Proc()))
      ensures ParkInReady(old(View())).Proc() == old(View()).Proc() && View() == NextThread(ParkInReady(old(View())))
    {
      ParkInReadyDispatches(View());
      HeadOfReady(ParkInReady(View()), View().Proc());
      UpdateThreadState(current, Some(Ready(CurrentP())));
      SchedNextThread();
    }

    // ---------------------------------------------------------------- sys.c

    method SysYield() returns (r: int)
      requires Valid()
      modifies this, heap, threads
      ensures Valid() && View() == Yield(old(View())) && r == 0
    {
      YieldInv(View());
      ForceThreadSwitch();
      r := 0;
    }

    /** The first free thread struct leaves its queue and becomes a copy of the running one. */
    method CopyThread() returns (t: nat)
      requires Coherent() && HeadThread(View(), FreeThreads)
      modifies heap, threads
      ensures Coherent() && HeadThread(old(View()), FreeThreads)
      ensures t == FirstThread(old(View()), FreeThreads) && t < THREAD_STRUCTS && Thread(t) !in heap.rings.home
      ensures View() == CopiedThread(old(View()))
    {
      DeleteWellFormed(heap.rings, View().Q(FreeThreads)[0]);
      t := TakeFirstThread(FreeThreads);
      threads[t] := threads[current];
    }

    /** The rest of sys_pthread_create's work on structs and queues. */
    method StartThread(t: nat)
      requires Coherent() && t < THREAD_STRUCTS && Thread(t) !in heap.rings.home && t != current
      requires CurrentP() < NR_TASKS && Ready(CurrentP()) in heap.rings.seqs && threads[t].task == CurrentP()
      modifies heap, tasks, threads
      ensures Coherent() && View() == StartedThread(old(View()), t)
    {
      var p := CurrentP();
      threads[t] := threads[t].(tid := tasks[p].nthread);
      tasks[p] := tasks[p].(nthread := tasks[p].nthread + 1);
      threads[t] := threads[t].(quantum := DEFAULT_QUANTUM_T, state := Runnable, task := p);
      heap.ListAddTail(Thread(t), Ready(p));
    }

    method SysPthreadJoin(id: int) returns (r: int)
      requires Valid() && JoinGuard(View())
      modifies this, heap, threads
      ensures Valid() && View() == Join(old(View()), id).0 && r == Join(old(View()), id).1
    {
      JoinInv(View(), id);
      if tasks[CurrentP()].nthread < 2 {
        return -EFAULT;
      }
      BlockedByIsFree(View(), id);
      threads[current] := threads[current].(blockedBy := id);
      BlockCurrent(Joining(CurrentP()));
      r := 0;
    }

    /** update_thread_state_rr to a queue of blocked threads, then sched_next_thread_rr. */
    method BlockCurrent(q: Queue)
      requires Coherent() && Inv(View()) && Parkable(View(), q) && !q.Ready?
      requires View().Q(Ready(View().Proc())) != []
      modifies this, heap, threads
      ensures Coherent()
      ensures HeadThread(UpdateThread(old(View()), old(current), Some(q)), Ready(old(View()).Proc()))
      ensures UpdateThread(old(View()), old(current), Some(q)).Proc() == old(View()).Proc()
      ensures View() == NextThread(UpdateThread(old(View()), old(current), Some(q)))
    {
      ParkElsewhereDispatches(View(), q);
      ParkThread(View(), q);
      HeadOfReady(UpdateThread(View(), current, Some(q)), View().Proc());
      UpdateThreadState(current, Some(q));
      SchedNextThread();
    }

    /** The scan over blocked_threads: each joiner in turn goes to the back of the queue,
        until the one that was first is first again. Then that one is looked at. */
    method ScanJoiners()
      requires Coherent() && Shape(View()) && Agrees(View()) && View().Proc() < NR_TASKS
      requires View().Q(Joining(View().Proc())) != []
      requires !View().In(Thread(current), Joining(View().Proc()))
      modifies heap, threads
      ensures HeadThread(old(View()), Joining(old(View()).Proc()))
      ensures Coherent() && View() == Woken(old(View()), old(View()).Proc(), old(threads[current].tid))
    {
      ghost var s := View();
      ScanStart(s, s.Proc(), threads[current].tid);
      var first := StartScan();
      FinishScan(s, first);
      LookAtFirst(first);
    }

    /** The joiner that was first, looked at last. */
    method LookAtFirst(first: Addr)
      requires Coherent() && View().Proc() < NR_TASKS && Ready(View().Proc()) in View().rings.seqs
      requires HeadThread(View(), Joining(View().Proc())) && first == Of(View().Q(Joining(View().Proc()))[0])
      requires threads[FirstThread(View(), Joining(View().Proc()))].state != Running
      modifies heap, threads
      ensures Coherent()
      ensures var s := old(View());
              var p, n := s.Proc(), s.Q(Joining(s.Proc()))[0];
              View() == if WaitsFor(s, n, s.threads[s.current].tid)
                        then SetThread(Enqueue(Dequeue(s, n), Ready(p), n), n.t, s.threads[n.t].(state := Runnable))
                        else s
    {
      if threads[first.n.t].blockedBy == threads[current].tid {
        UpdateThreadState(first.n.t, Some(Ready(CurrentP())));
      }
    }

    method StartScan() returns (first: Addr)
      requires Coherent() && HeadThread(View(), Joining(View().Proc()))
      modifies heap
      ensures Coherent() && first == Of(old(View()).Q(Joining(View().Proc()))[0])
      ensures var n := old(View()).Q(Joining(View().Proc()))[0];
              View() == Enqueue(Dequeue(old(View()), n), Joining(View().Proc()), n)
    {
      first := heap.ListFirst(Joining(CurrentP()));
      DeleteWellFormed(heap.rings, first.n);
      heap.ListDel(first.n);
      heap.ListAddTail(first.n, Joining(CurrentP()));
    }

    method FinishScan(ghost s: Sched, first: Addr)
      requires Shape(s) && Agrees(s) && s.Proc() < NR_TASKS && s.Q(Joining(s.Proc())) != []
      requires Coherent() && View() == Scanned(s, s.Proc(), s.threads[s.current].tid, 1)
      requires !s.In(Thread(s.current), Joining(s.Proc())) && first == Of(s.Q(Joining(s.Proc()))[0])
      modifies heap, threads
      ensures Coherent() && View() == s.(threads := Marked(s, s.Q(Joining(s.Proc()))[1..], s.threads[s.current].tid))
      ensures HeadThread(View(), Joining(View().Proc()))
      ensures View().threads[FirstThread(View(), Joining(View().Proc()))].state != Running
      ensures threads[current] == old(threads[current])
    {
      ghost var k := 1;
      var it := heap.ListFirst(Joining(CurrentP()));
      while it != first
        invariant 1 <= k <= |s.Q(Joining(s.Proc()))| && Coherent()
        invariant View() == Scanned(s, s.Proc(), s.threads[s.current].tid, k)
        invariant it == Of(heap.rings.seqs[Joining(s.Proc())][0])
        decreases |s.Q(Joining(s.Proc()))| - k
      {
        ScanOne(s, k);
        it := heap.ListFirst(Joining(CurrentP()));
        k := k + 1;
      }
      ScanEnd(s, s.Proc(), s.threads[s.current].tid, k);
    }

    method ScanOne(ghost s: Sched, ghost k: nat)
      requires Shape(s) && Agrees(s) && s.Proc() < NR_TASKS && 1 <= k < |s.Q(Joining(s.Proc()))|
      requires Coherent() && View() == Scanned(s, s.Proc(), s.threads[s.current].tid, k)
      requires !s.In(Thread(s.current), Joining(s.Proc()))
      modifies heap, threads
      ensures Coherent() && View() == Scanned(s, s.Proc(), s.threads[s.current].tid, k + 1)
    {
      ScanKeepsCurrent(s, k);
      ScanStep(s, s.Proc(), s.threads[s.current].tid, k);
      var it := heap.ListFirst(Joining(CurrentP()));
      VisitJoiner(it.n.t, threads[current].tid);
    }

    method SysPthreadExit()
      requires Valid() && PthreadExitGuard(View())
      modifies this, heap, threads
      ensures Valid() && View() == PthreadExit(old(View()))
    {
      PthreadExitInv(View());
      PthreadExitDispatches(View());
      RetiredAgrees(View());
      heap.ListAddTail(Thread(current), FreeThreads);
      var empty := heap.ListEmpty(Joining(CurrentP()));
      if !empty {
        ScanJoiners();
      }
      SchedNextThread();
    }

    /** One turn of the scan: a joiner of `tid` goes to the ready list and, like any other
        joiner, from where it is to the back of the join queue. */
    method VisitJoiner(t: nat, tid: int)
      requires Coherent() && t < THREAD_STRUCTS && threads[t].state != Running
      requires View().In(Thread(t), Joining(CurrentP())) && Ready(CurrentP()) in heap.rings.seqs
      modifies heap, threads
      ensures Coherent()
      ensures heap.rings == Append(Delete(old(heap.rings), Thread(t)), Joining(old(CurrentP())), Thread(t))
      ensures threads[..] == old(threads[..])[t := if old(threads[t]).blockedBy == tid then old(threads[t]).(state := Runnable) else old(threads[t])]
    {
      DeleteWellFormed(heap.rings, Thread(t));
      UnlinkJoiner(t, tid);
      heap.ListAddTail(Thread(t), Joining(CurrentP()));
    }

    method UnlinkJoiner(t: nat, tid: int)
      requires Coherent() && t < THREAD_STRUCTS && threads[t].state != Running
      requires View().In(Thread(t), Joining(CurrentP())) && Ready(CurrentP()) in heap.rings.seqs
      modifies heap, threads
      ensures Coherent()
      ensures heap.rings == Delete(old(heap.rings), Thread(t))
      ensures threads[..] == old(threads[..])[t := if old(threads[t]).blockedBy == tid then old(threads[t]).(state := Runnable) else old(threads[t])]
    {
      ghost var r := heap.rings;
      DeleteWellFormed(r, Thread(t));
      if threads[t].blockedBy == tid {
        MoveJoiner(t);
        DeleteUndoesAppend(Delete(r, Thread(t)), Ready(CurrentP()), Thread(t));
      }
      heap.ListDel(Thread(t));
    }

    method MoveJoiner(t: nat)
      requires Coherent() && t < THREAD_STRUCTS && threads[t].state != Running
      requires View().In(Thread(t), Joining(CurrentP())) && Ready(CurrentP()) in heap.rings.seqs
      modifies heap, threads
      ensures Coherent() && CurrentP() == old(CurrentP())
      ensures heap.rings == Append(Delete(old(heap.rings), Thread(t)), Ready(CurrentP()), Thread(t))
      ensures Thread(t) in heap.rings.home
      ensures threads[..] == old(threads[..])[t := old(threads[t]).(state := Runnable)]
    {
      UpdateLinked(View(), t, Ready(CurrentP()));
      UpdateThreadState(t, Some(Ready(CurrentP())));
    }

    /** The first free structs leave their queues, and the thread's becomes a copy. */
    method TakeStructs() returns (c: nat, t: nat)
      requires Coherent() && HeadTask(View(), FreeTasks) && HeadThread(View(), FreeThreads)
      modifies heap, threads
      ensures Coherent() && {FreeTasks, FreeThreads} <= old(View()).rings.seqs.Keys
      ensures c == FirstTask(old(View()), FreeTasks) && t == FirstThread(old(View()), FreeThreads)
      ensures c < NR_TASKS && t < THREAD_STRUCTS && Task(c) !in heap.rings.home && Thread(t) !in heap.rings.home
      ensures View() == Taken(old(View()))
    {
      c, t := TakeFreeStructs();
      threads[t] := threads[current];
    }

    /** The end of sys_fork begun in state `s`: the child is queued, or its task struct put
        back. */
    method FinishFork(ghost s: Sched, c: nat, t: nat, frames: bool) returns (r: int)
      requires Inv(s) && CanFork(s) && HeadTask(s, FreeTasks) && HeadThread(s, FreeThreads)
      requires c == FirstTask(s, FreeTasks) && t == FirstThread(s, FreeThreads)
      requires Coherent() && View() == Taken(s)
      requires Task(c) !in heap.rings.home && Thread(t) !in heap.rings.home
      modifies this, heap, tasks, threads
      ensures Coherent() && View() == Fork(s, frames).0 && r == Fork(s, frames).1
    {
      ForkCases(s, frames);
      if frames {
        r := QueueChild(c, t);
      } else {
        r := AbandonChild(c);
      }
    }

    method AbandonChild(c: nat) returns (r: int)
      requires Coherent() && Task(c) !in heap.rings.home && FreeTasks in heap.rings.seqs
      modifies heap
      ensures Coherent() && View() == Enqueue(old(View()), FreeTasks, Task(c)) && r == -EAGAIN
    {
      heap.ListAddTail(Task(c), FreeTasks);
      r := -EAGAIN;
    }

    /** The child's structs are filled in and queued. */
    method QueueChild(c: nat, t: nat) returns (pid: int)
      requires Coherent() && c < NR_TASKS && t < THREAD_STRUCTS
      requires {ReadyTasks, Ready(c)} <= View().rings.seqs.Keys
      requires Task(c) !in heap.rings.home && Thread(t) !in heap.rings.home
      modifies this, heap, tasks, threads
      ensures Coherent() && View() == ReadyChild(old(View()), c, t) && pid == old(lastPid) + 1
    {
      lastPid := lastPid + 1;
      FillInChild(c, t);
      heap.ListAddTail(Task(c), ReadyTasks);
      heap.ListAddTail(Thread(t), Ready(c));
      pid := tasks[c].pid;
    }

    method FillInChild(c: nat, t: nat)
      requires c < tasks.Length && t < threads.Length
      modifies tasks, threads
      ensures tasks[..] == old(tasks[..])[c := TaskStruct(lastPid, Runnable, DEFAULT_QUANTUM_P, 2)]
      ensures threads[..] == old(threads[..])[t := old(threads[t]).(tid := 1, state := Runnable, task := c)]
    {
      tasks[c] := TaskStruct(lastPid, Runnable, DEFAULT_QUANTUM_P, 1);
      threads[t] := threads[t].(tid := tasks[c].nthread);
      tasks[c] := tasks[c].(nthread := tasks[c].nthread + 1);
      threads[t] := threads[t].(state := Runnable);
      threads[t] := threads[t].(task := c);
      tasks[c] := tasks[c].(state := Runnable);
    }

    /** One of the loops of sys_exit. */
    method FreeAll(q: Queue)
      requires Coherent() && {q, FreeThreads} <= heap.rings.seqs.Keys && q != FreeThreads
      requires AllThreads(View().Q(q))
      modifies heap, threads
      ensures Coherent() && View() == DrainThreads(old(View()), q)
    {
      ghost var s, k := View(), 0;
      NoneDrained(s, q);
      var empty := heap.ListEmpty(q);
      while !empty
        invariant k <= |s.Q(q)| && Coherent() && View() == PartlyDrained(s, q, k)
        invariant empty <==> k == |s.Q(q)|
        decreases |s.Q(q)| - k
      {
        DrainOneMore(s, q, k);
        FreeOne(q);
        empty := heap.ListEmpty(q);
        k := k + 1;
      }
      AllDrained(s, q);
    }

    method FreeOne(q: Queue)
      requires Coherent() && HeadThread(View(), q) && FreeThreads in heap.rings.seqs && q != FreeThreads
      modifies heap, threads
      ensures Coherent() && {q, FreeThreads} <= old(heap.rings).seqs.Keys
      ensures View() == OneDrained(old(View()), q)
    {
      DeleteAppendMoves(heap.rings, q, FreeThreads);
      var t := TakeFirstThread(q);
      heap.ListAddTail(Thread(t), FreeThreads);
      threads[t] := threads[t].(tid := -1);
    }

    method SysExit()
      requires Valid() && ExitGuard(View())
      modifies this, heap, tasks, threads
      ensures Valid() && View() == Exit(old(View()))
    {
      ExitDispatches(View());
      LeaveProcess();
    }

    method LeaveProcess()
      requires Coherent() && Inv(View()) && ExitGuard(View())
      modifies this, heap, tasks, threads
      ensures Coherent() && View() == Exit(old(View()))
    {
      ExitDispatches(View());
      ExitingThreads(View());
      FreeTaskAndThreads();
      SchedNextProcess();
    }

    method FreeTaskAndThreads()
      requires Valid()
      requires {Ready(View().Proc()), Joining(View().Proc()), FreeThreads} <= FreedTask(View()).rings.seqs.Keys
      requires AllThreads(FreedTask(View()).Q(Ready(View().Proc())))
      requires AllThreads(DrainThreads(FreedTask(View()), Ready(View().Proc())).Q(Joining(View().Proc())))
      modifies heap, tasks, threads
      ensures Inv(old(View())) && Coherent() && View() == Released(old(View()))
    {
      ghost var p := CurrentP();
      heap.ListAddTail(Task(CurrentP()), FreeTasks);
      tasks[CurrentP()] := tasks[CurrentP()].(pid := -1);
      FreeAll(Ready(CurrentP()));
      assert CurrentP() == p;
      FreeAll(Joining(CurrentP()));
    }

    // ---------------------------------------------------------------- mutex.c

    method SysMutexInit(n: int) returns (r: int)
      requires Valid()
      modifies heap, mutexes
      ensures Valid() && View() == MutexInit(old(View()), n).0 && r == MutexInit(old(View()), n).1
    {
      MutexInitInv(View(), n);
      if !ValidMutex(n) {
        return -EINVAL;
      }
      if mutexes[n].owner != 0 {
        return -EBUSY;
      }
      assert MutexAgrees(View(), n);
      mutexes[n] := mutexes[n].(owner := threads[current].tid);
      mutexes[n] := mutexes[n].(locked := false);
      assert mutexes[..] == old(mutexes[..])[n := MutexStruct(false, threads[current].tid)];
      heap.InitListHead(Waiting(n));
      r := 0;
    }

    method SysMutexLock(n: int) returns (r: int)
      requires Valid() && LockGuard(View(), n)
      modifies this, heap, threads, mutexes
      ensures Valid() && View() == MutexLock(old(View()), n).0 && r == MutexLock(old(View()), n).1
    {
      MutexLockInv(View(), n);
      if !ValidMutex(n) || mutexes[n].owner < 0 {
        return -EINVAL;
      }
      if mutexes[n].locked {
        assert MutexAgrees(View(), n);
        ParkElsewhereDispatches(View(), Waiting(n));
        ParkThread(View(), Waiting(n));
        HeadOfReady(UpdateThread(View(), current, Some(Waiting(n))), View().Proc());
        threads[current] := threads[current].(state := Blocked);
        heap.ListAddTail(Thread(current), Waiting(n));
        SchedNextThread();
      } else {
        mutexes[n] := mutexes[n].(locked := true);
      }
      r := 0;
    }

    method SysMutexUnlock(n: int) returns (r: int)
      requires Valid() && UnlockGuard(View(), n)
      modifies heap, threads, mutexes
      ensures Valid() && View() == MutexUnlock(old(View()), n).0 && r == MutexUnlock(old(View()), n).1
    {
      MutexUnlockInv(View(), n);
      if !ValidMutex(n) || mutexes[n].owner < 0 {
        return -EINVAL;
      }
      if mutexes[n].locked {
        assert ThreadAgrees(View(), FirstThread(View(), Waiting(n)));
        HandOver(n);
      }
      r := 0;
    }

    method HandOver(n: nat)
      requires Coherent() && HeadThread(View(), Waiting(n)) && n < NR_MUTEX
      requires threads[FirstThread(View(), Waiting(n))].state != Running
      requires Ready(View().Proc()) in View().rings.seqs
      modifies heap, threads, mutexes
      ensures Coherent()
      ensures var s1 := UpdateThread(old(View()), FirstThread(old(View()), Waiting(n)), Some(Ready(old(View()).Proc())));
              View() == if s1.Q(Waiting(n)) == [] then SetMutex(s1, n, s1.mutexes[n].(locked := false)) else s1
    {
      var t := FirstThreadOf(Waiting(n));
      UpdateThreadState(t, Some(Ready(CurrentP())));
      var empty := heap.ListEmpty(Waiting(n));
      if empty {
        mutexes[n] := mutexes[n].(locked := false);
      }
    }

    method SysMutexDestroy(n: int) returns (r: int)
      requires Valid() && DestroyGuard(View(), n)
      modifies mutexes
      ensures Valid() && View() == MutexDestroy(old(View()), n).0 && r == MutexDestroy(old(View()), n).1
    {
      MutexDestroyInv(View(), n);
      if !ValidMutex(n) || mutexes[n].owner <= 0 {
        return -EINVAL;
      }
      if threads[current].tid != mutexes[n].owner {
        return -EPERM;
      }
      mutexes[n] := mutexes[n].(locked := false);
      mutexes[n] := mutexes[n].(owner := 0);
      assert mutexes[..] == old(mutexes[..])[n := MutexStruct(false, 0)];
      r := 0;
    }
  }
}
