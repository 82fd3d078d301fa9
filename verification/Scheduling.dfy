/** What the scheduler, the thread calls and the mutexes do to the kernel's state
    (sched.c, sys.c, mutex.c), as functions from state to state. */
module Scheduling {
  import opened Options
  import opened Rings

  const NR_TASKS: nat := 10
  const NR_THREADS: nat := 20
  /** thread_tasks has two structs more (sched.h). */
  const THREAD_STRUCTS: nat := NR_THREADS + 2
  const NR_MUTEX: nat := 20
  const DEFAULT_QUANTUM_P := 20
  const DEFAULT_QUANTUM_T := 10

  const EPERM := 1
  const EAGAIN := 11
  const ENOMEM := 12
  const EFAULT := 14
  const EBUSY := 16
  const EINVAL := 22

  datatype RunState = Running | Runnable | Blocked

  datatype TaskStruct = TaskStruct(pid: int, state: RunState, quantum: int, nthread: int)

  datatype ThreadStruct = ThreadStruct(tid: int, task: nat, state: RunState, quantum: int, blockedBy: int)

  datatype MutexStruct = MutexStruct(locked: bool, owner: int)

  /** `remP` and `remT` are the remaining quanta of the running process and thread. */
  datatype Sched = Sched(
    rings: Rings,
    tasks: seq<TaskStruct>,
    threads: seq<ThreadStruct>,
    mutexes: seq<MutexStruct>,
    current: nat,
    remP: int,
    remT: int,
    lastPid: int)
  {
    /** A queue's members; an uninitialised queue has none. */
    function Q(q: Queue): seq<Node> {
      if q in rings.seqs then rings.seqs[q] else []
    }

    predicate In(n: Node, q: Queue) {
      n in rings.home && rings.home[n] == q
    }

    predicate Linked(n: Node) {
      n in rings.home
    }

    predicate Sized() {
      |tasks| == NR_TASKS && |threads| == THREAD_STRUCTS && |mutexes| == NR_MUTEX && current < THREAD_STRUCTS
    }

    /** current_t()->p */
    function Proc(): nat
      requires current < |threads|
    {
      threads[current].task
    }
  }

  function SetThread(s: Sched, t: nat, v: ThreadStruct): Sched
    requires t < |s.threads|
  {
    s.(threads := s.threads[t := v])
  }

  function SetTask(s: Sched, p: nat, v: TaskStruct): Sched
    requires p < |s.tasks|
  {
    s.(tasks := s.tasks[p := v])
  }

  function SetMutex(s: Sched, m: nat, v: MutexStruct): Sched
    requires m < |s.mutexes|
  {
    s.(mutexes := s.mutexes[m := v])
  }

  function Enqueue(s: Sched, q: Queue, n: Node): Sched
    requires q in s.rings.seqs
  {
    s.(rings := Append(s.rings, q, n))
  }

  function Dequeue(s: Sched, n: Node): Sched
    requires n in s.rings.home && s.rings.home[n] in s.rings.seqs
  {
    s.(rings := Delete(s.rings, n))
  }

  // ------------------------------------------------------------------ invariant

  /** The queues exist, and every linked node is linked once. */
  ghost predicate Shape(s: Sched) {
    && s.Sized()
    && WellFormed(s.rings)
    && {FreeTasks, ReadyTasks, FreeThreads} <= s.rings.seqs.Keys
    && (forall p | 0 <= p < NR_TASKS :: Ready(p) in s.rings.seqs)
    && (forall p | 0 <= p < NR_TASKS :: Joining(p) in s.rings.seqs)
  }

  /** A process that is not in freequeue. */
  predicate Live(s: Sched, p: nat) {
    p < NR_TASKS && !s.In(Task(p), FreeTasks)
  }

  predicate LiveThread(s: Sched, t: nat)
    requires t < |s.threads|
  {
    Live(s, s.threads[t].task) && s.threads[t].quantum > 0 && s.threads[t].tid > 0
  }

  /** The agreement between where a thread is linked and what its struct says. A thread
      that waits in join may carry either non-running state (see Joining.dfy). */
  predicate ThreadAgrees(s: Sched, t: nat) {
    && s.Sized() && t < THREAD_STRUCTS
    && (s.Linked(Thread(t)) ==>
          match s.rings.home[Thread(t)]
          case FreeThreads => true
          case Ready(p) => LiveThread(s, t) && s.threads[t].task == p && s.threads[t].state == Runnable
          case Joining(p) => LiveThread(s, t) && s.threads[t].task == p && s.threads[t].state != Running
          case Waiting(m) => LiveThread(s, t) && m < NR_MUTEX && s.threads[t].state == Blocked
          case _ => false)
  }

  /** Ready processes are READY and have a thread to run; free ones have no threads. */
  predicate TaskAgrees(s: Sched, p: nat) {
    && s.Sized() && p < NR_TASKS
    && (s.Linked(Task(p)) ==>
          match s.rings.home[Task(p)]
          case FreeTasks => s.Q(Ready(p)) == [] && s.Q(Joining(p)) == []
          case ReadyTasks =>
            && s.tasks[p].state == Runnable && s.tasks[p].quantum > 0 && s.tasks[p].nthread >= 2
            && s.Q(Ready(p)) != []
          case _ => false)
  }

  predicate MutexAgrees(s: Sched, m: nat) {
    && s.Sized() && m < NR_MUTEX
    && s.mutexes[m].owner >= 0
    && (s.mutexes[m].owner > 0 ==> Waiting(m) in s.rings.seqs)
    && (s.Q(Waiting(m)) != [] ==> s.mutexes[m].owner > 0 && s.mutexes[m].locked)
  }

  ghost predicate Agrees(s: Sched) {
    && (forall t | Thread(t) in s.rings.home :: ThreadAgrees(s, t))
    && (forall p | Task(p) in s.rings.home :: TaskAgrees(s, p))
    && (forall m: nat | m < NR_MUTEX :: MutexAgrees(s, m))
  }

  /** The running thread and its process are in no queue and are the ones marked RUN. */
  predicate CurrentAgrees(s: Sched) {
    && s.Sized()
    && !s.Linked(Thread(s.current))
    && LiveThread(s, s.current) && s.threads[s.current].state == Running
    && RunningTask(s, s.Proc())
  }

  predicate RunningTask(s: Sched, p: nat)
    requires s.Sized() && p < NR_TASKS
  {
    !s.Linked(Task(p)) && s.tasks[p].state == Running && s.tasks[p].quantum > 0 && s.tasks[p].nthread >= 2
  }

  ghost predicate Settled(s: Sched) {
    Shape(s) && Agrees(s) && CurrentAgrees(s)
  }

  ghost predicate Inv(s: Sched) {
    Settled(s) && s.remT > 0
  }

  // ------------------------------------------------------------------ sched.c

  /** update_process_state_rr with its only destination in use, readyqueue: a task that is
      not RUN is unlinked first. */
  function UpdateProcess(s: Sched, p: nat): Sched
    requires s.Sized() && p < NR_TASKS && ReadyTasks in s.rings.seqs
    requires s.tasks[p].state != Running ==> s.Linked(Task(p)) && s.rings.home[Task(p)] in s.rings.seqs
  {
    var s1 := if s.tasks[p].state != Running then Dequeue(s, Task(p)) else s;
    Enqueue(SetTask(s1, p, s1.tasks[p].(state := Runnable)), ReadyTasks, Task(p))
  }

  /** update_thread_state_rr: a thread that is not RUN is unlinked first. */
  function UpdateThread(s: Sched, t: nat, dst: Option<Queue>): Sched
    requires s.Sized() && t < THREAD_STRUCTS
    requires s.threads[t].state != Running ==> s.Linked(Thread(t)) && s.rings.home[Thread(t)] in s.rings.seqs
    requires dst.Some? ==> dst.value in s.rings.seqs
  {
    var s1 := if s.threads[t].state != Running then Dequeue(s, Thread(t)) else s;
    match dst
    case None => SetThread(s1, t, s1.threads[t].(state := Running))
    case Some(q) =>
      SetThread(Enqueue(s1, q, Thread(t)), t,
                s1.threads[t].(state := if q == Ready(s.Proc()) then Runnable else Blocked))
  }

  function FirstThread(s: Sched, q: Queue): nat
    requires s.Q(q) != [] && s.Q(q)[0].Thread?
  {
    s.Q(q)[0].t
  }

  function FirstTask(s: Sched, q: Queue): nat
    requires s.Q(q) != [] && s.Q(q)[0].Task?
  {
    s.Q(q)[0].p
  }

  /** The head of `q` is a linked thread. */
  predicate HeadThread(s: Sched, q: Queue) {
    && q in s.rings.seqs && s.Q(q) != [] && s.Q(q)[0].Thread?
    && s.Q(q)[0].t < THREAD_STRUCTS
    && s.In(s.Q(q)[0], q)
  }

  predicate HeadTask(s: Sched, q: Queue) {
    && q in s.rings.seqs && s.Q(q) != [] && s.Q(q)[0].Task?
    && s.Q(q)[0].p < NR_TASKS
    && s.In(s.Q(q)[0], q)
  }

  /** sched_next_thread_rr */
  function NextThread(s: Sched): Sched
    requires s.Sized() && HeadThread(s, Ready(s.Proc()))
  {
    var t := FirstThread(s, Ready(s.Proc()));
    UpdateThread(s, t, None).(remT := s.threads[t].quantum, current := t)
  }

  /** sched_next_process_rr with a process waiting */
  function NextProcess(s: Sched): Sched
    requires s.Sized() && HeadTask(s, ReadyTasks)
    requires HeadThread(s, Ready(FirstTask(s, ReadyTasks)))
  {
    var p := FirstTask(s, ReadyTasks);
    var t := FirstThread(s, Ready(p));
    var s1 := Dequeue(Dequeue(s, Task(p)), Thread(t));
    var s2 := SetTask(s1, p, s1.tasks[p].(state := Running));
    SetThread(s2, t, s2.threads[t].(state := Running)).(
      remP := s.tasks[p].quantum, remT := s.threads[t].quantum, current := t)
  }
}
