/** The kernel's queues and structs as init_sched, init_idle and init_task1 leave them. */
module Boot {
  import opened Rings
  import opened Scheduling
  import opened Steps

  /** freequeue lists tasks 0 to i - 1, and those have their thread queues. */
  ghost predicate TasksListed(r: Rings, i: nat) {
    && WellFormed(r)
    && FreeTasks in r.seqs && |r.seqs[FreeTasks]| == i
    && (forall k | 0 <= k < i :: r.seqs[FreeTasks][k] == Task(k))
    && (forall p: nat | p < i :: Ready(p) in r.seqs)
    && (forall p: nat | p < i :: Joining(p) in r.seqs)
    && (forall q | q in r.seqs && q != FreeTasks :: (q.Ready? || q.Joining?) && q.p < i && r.seqs[q] == [])
    && (forall n :: n in r.home <==> n.Task? && n.p < i)
    && (forall n | n in r.home :: r.home[n] == FreeTasks)
  }

  /** All queues exist, freequeue is full, and free_threadqueue lists threads 0 to i - 1. */
  ghost predicate ThreadsListed(r: Rings, n: nat, i: nat) {
    && WellFormed(r)
    && {FreeTasks, FreeThreads, ReadyTasks} <= r.seqs.Keys
    && (forall p: nat | p < n :: Ready(p) in r.seqs)
    && (forall p: nat | p < n :: Joining(p) in r.seqs)
    && |r.seqs[FreeTasks]| == n && |r.seqs[FreeThreads]| == i
    && (forall k | 0 <= k < n :: r.seqs[FreeTasks][k] == Task(k))
    && (forall k | 0 <= k < i :: r.seqs[FreeThreads][k] == Thread(k))
    && (forall q | q in r.seqs && q != FreeTasks && q != FreeThreads :: r.seqs[q] == [])
    && (forall x :: x in r.home <==> if x.Task? then x.p < n else x.t < i)
    && (forall x | x in r.home :: r.home[x] == FreeQueueOf(x))
  }

  function FreeQueueOf(n: Node): Queue {
    if n.Task? then FreeTasks else FreeThreads
  }

  lemma TasksListedStep(r: Rings, i: nat)
    requires TasksListed(r, i)
    ensures Ready(i) !in r.seqs && Joining(i) !in r.seqs && Task(i) !in r.home
    ensures TasksListed(Append(Init(Init(r, Ready(i)), Joining(i)), FreeTasks, Task(i)), i + 1)
  {
    InitWellFormed(r, Ready(i));
    InitWellFormed(Init(r, Ready(i)), Joining(i));
    AppendWellFormed(Init(Init(r, Ready(i)), Joining(i)), FreeTasks, Task(i));
  }

  lemma NoThreadsListed(r: Rings, n: nat)
    requires TasksListed(r, n)
    ensures ThreadsListed(Init(Init(r, ReadyTasks), FreeThreads), n, 0)
  {
    InitWellFormed(r, ReadyTasks);
    InitWellFormed(Init(r, ReadyTasks), FreeThreads);
    NothingListed(r, Init(Init(r, ReadyTasks), FreeThreads), n);
  }

  lemma NothingListed(r: Rings, r': Rings, n: nat)
    requires TasksListed(r, n) && WellFormed(r') && r'.home == r.home
    requires r'.seqs == r.seqs[ReadyTasks := []][FreeThreads := []]
    ensures ThreadsListed(r', n, 0)
  {
    NoThreadsQueued(r.seqs, r'.seqs, n);
    OnlyTasksHome(r.home, n);
  }

  lemma NoThreadsQueued(seqs: map<Queue, seq<Node>>, seqs': map<Queue, seq<Node>>, n: nat)
    requires FreeTasks in seqs && seqs' == seqs[ReadyTasks := []][FreeThreads := []]
    requires forall q | q in seqs && q != FreeTasks :: seqs[q] == []
    ensures forall q | q in seqs' && q != FreeTasks :: seqs'[q] == []
    ensures seqs.Keys <= seqs'.Keys && seqs'[FreeTasks] == seqs[FreeTasks]
  {
  }

  lemma OnlyTasksHome(home: map<Node, Queue>, n: nat)
    requires forall x :: x in home <==> x.Task? && x.p < n
    requires forall x | x in home :: home[x] == FreeTasks
    ensures forall x :: x in home <==> if x.Task? then x.p < n else x.t < 0
    ensures forall x | x in home :: home[x] == FreeQueueOf(x)
  {
  }

  lemma ThreadsListedStep(r: Rings, n: nat, i: nat)
    requires ThreadsListed(r, n, i)
    ensures Thread(i) !in r.home && ThreadsListed(Append(r, FreeThreads, Thread(i)), n, i + 1)
  {
    AppendWellFormed(r, FreeThreads, Thread(i));
    OneMoreListed(r, Append(r, FreeThreads, Thread(i)), n, i);
  }

  lemma OneMoreListed(r: Rings, r': Rings, n: nat, i: nat)
    requires ThreadsListed(r, n, i) && WellFormed(r')
    requires r'.seqs == r.seqs[FreeThreads := r.seqs[FreeThreads] + [Thread(i)]]
    requires r'.home == r.home[Thread(i) := FreeThreads]
    ensures ThreadsListed(r', n, i + 1)
  {
    ThreadQueued(r.seqs, r'.seqs, i);
    ThreadHome(r.home, r'.home, n, i);
  }

  lemma ThreadQueued(seqs: map<Queue, seq<Node>>, seqs': map<Queue, seq<Node>>, i: nat)
    requires {FreeTasks, FreeThreads} <= seqs.Keys && |seqs[FreeThreads]| == i
    requires seqs' == seqs[FreeThreads := seqs[FreeThreads] + [Thread(i)]]
    requires forall k | 0 <= k < i :: seqs[FreeThreads][k] == Thread(k)
    requires forall q | q in seqs && q != FreeTasks && q != FreeThreads :: seqs[q] == []
    ensures seqs'.Keys == seqs.Keys && seqs'[FreeTasks] == seqs[FreeTasks] && |seqs'[FreeThreads]| == i + 1
    ensures forall k | 0 <= k < i + 1 :: seqs'[FreeThreads][k] == Thread(k)
    ensures forall q | q in seqs' && q != FreeTasks && q != FreeThreads :: seqs'[q] == []
  {
  }

  lemma ThreadHome(home: map<Node, Queue>, home': map<Node, Queue>, n: nat, i: nat)
    requires forall x :: x in home <==> if x.Task? then x.p < n else x.t < i
    requires forall x | x in home :: home[x] == FreeQueueOf(x)
    requires home' == home[Thread(i) := FreeThreads]
    ensures forall x :: x in home' <==> if x.Task? then x.p < n else x.t < i + 1
    ensures forall x | x in home' :: home'[x] == FreeQueueOf(x)
  {
  }

  /** Structs `k` to `n` - 1, tasks and threads, are free and nothing else is queued. */
  ghost predicate FreeFrom(r: Rings, n: nat, k: nat) {
    && k <= n && WellFormed(r)
    && {FreeTasks, FreeThreads, ReadyTasks} <= r.seqs.Keys
    && (forall p: nat | p < n :: Ready(p) in r.seqs)
    && (forall p: nat | p < n :: Joining(p) in r.seqs)
    && |r.seqs[FreeTasks]| == |r.seqs[FreeThreads]| == n - k
    && (forall i | 0 <= i < n - k :: r.seqs[FreeTasks][i] == Task(k + i))
    && (forall i | 0 <= i < n - k :: r.seqs[FreeThreads][i] == Thread(k + i))
    && (forall q | q in r.seqs && q != FreeTasks && q != FreeThreads :: r.seqs[q] == [])
    && (forall x :: x in r.home <==> k <= Index(x) < n)
    && (forall x | x in r.home :: r.home[x] == FreeQueueOf(x))
  }

  function Index(x: Node): nat {
    if x.Task? then x.p else x.t
  }

  lemma AllListed(r: Rings, n: nat)
    requires ThreadsListed(r, n, n)
    ensures FreeFrom(r, n, 0)
  {
  }

  /** init_idle and init_task1 each take the heads of both free queues. */
  lemma HeadsTaken(r: Rings, n: nat, k: nat)
    requires FreeFrom(r, n, k) && k < n
    ensures FreeFrom(TakenRings(r), n, k + 1)
  {
    var r' := TakenRings(r);
    BothTaken(r);
    SeqsTaken(r, r', n, k);
    HomeTaken(r.home, r'.home, n, k);
  }

  lemma BothTaken(r: Rings)
    requires WellFormed(r)
    requires FreeTasks in r.seqs && r.seqs[FreeTasks] != [] && FreeThreads in r.seqs && r.seqs[FreeThreads] != []
    ensures WellFormed(TakenRings(r))
  {
    DeleteHead(r, FreeTasks);
    DeleteHead(PopHead(r, FreeTasks), FreeThreads);
  }

  lemma SeqsTaken(r: Rings, r': Rings, n: nat, k: nat)
    requires FreeFrom(r, n, k) && k < n && r' == TakenRings(r)
    ensures r'.seqs.Keys == r.seqs.Keys
    ensures r'.seqs[FreeTasks] == r.seqs[FreeTasks][1..] && r'.seqs[FreeThreads] == r.seqs[FreeThreads][1..]
    ensures forall q | q in r.seqs && q != FreeTasks && q != FreeThreads :: r'.seqs[q] == r.seqs[q]
    ensures r'.home == r.home - {Task(k)} - {Thread(k)}
  {
  }

  lemma HomeTaken(home: map<Node, Queue>, home': map<Node, Queue>, n: nat, k: nat)
    requires forall x :: x in home <==> k <= Index(x) < n
    requires home' == home - {Task(k)} - {Thread(k)}
    ensures forall x :: x in home' <==> k < Index(x) < n
    ensures forall x | x in home' :: home'[x] == home[x]
  {
  }

  function BootTasks(): (ts: seq<TaskStruct>)
    ensures |ts| == NR_TASKS
  {
    seq(NR_TASKS, p => if p == 0 then TaskStruct(0, Running, DEFAULT_QUANTUM_P, 0)
                       else if p == 1 then TaskStruct(1, Running, DEFAULT_QUANTUM_P, 2)
                       else TaskStruct(-1, Running, 0, 0))
  }

  function BootThreads(): (ts: seq<ThreadStruct>)
    ensures |ts| == THREAD_STRUCTS
  {
    seq(THREAD_STRUCTS, t => if t == 1 then ThreadStruct(1, 1, Running, DEFAULT_QUANTUM_T, 0)
                         else ThreadStruct(if 2 <= t < NR_TASKS then -1 else 0, 0, Running, 0, 0))
  }

  /** Agreement asks nothing of structs that are all free. */
  lemma AllFreeAgrees(s: Sched)
    requires s.Sized()
    requires forall x | x in s.rings.home :: 2 <= Index(x) < NR_TASKS && s.rings.home[x] == FreeQueueOf(x)
    requires forall q | q != FreeTasks && q != FreeThreads :: s.Q(q) == []
    requires forall m: nat | m < NR_MUTEX :: s.mutexes[m].owner == 0
    ensures Agrees(s)
  {
  }

  /** The kernel after init_sched, init_idle and init_task1. */
  ghost predicate Booted(s: Sched) {
    && s.Sized() && FreeFrom(s.rings, NR_TASKS, 2)
    && s.tasks == BootTasks() && s.threads == BootThreads()
    && (forall m: nat | m < NR_MUTEX :: s.mutexes[m] == MutexStruct(false, 0))
    && s.current == 1 && s.remP == DEFAULT_QUANTUM_P && s.remT == DEFAULT_QUANTUM_T && s.lastPid == 1000
  }

  lemma BootInv(s: Sched)
    requires Booted(s)
    ensures Inv(s)
  {
    AllFreeAgrees(s);
    assert Index(Task(1)) == Index(Thread(1)) == 1;
  }
}
