/** Whom an exiting thread wakes. */
module Joining {
  import opened Rings
  import opened Scheduling
  import opened Agreement
  import opened Steps
  import opened Runs
  import opened Switching

  /** Some joiner of the running thread is behind the head of its process's join queue. */
  predicate JoinerBehindHead(s: Sched)
    requires s.Sized()
  {
    exists i | 1 <= i < |s.Q(Joining(s.Proc()))| ::
      WaitsFor(s, s.Q(Joining(s.Proc()))[i], s.threads[s.current].tid)
  }

  predicate SomeoneJoins(s: Sched, p: nat, tid: int) {
    exists i | 0 <= i < |s.Q(Joining(p))| :: WaitsFor(s, s.Q(Joining(p))[i], tid)
  }

  /** Every thread in the join queue of `p` is marked BLOCKED. */
  predicate JoinersBlocked(s: Sched, p: nat)
    requires s.Sized()
  {
    forall i | 0 <= i < |s.Q(Joining(p))| ::
      var n := s.Q(Joining(p))[i];
      n.Thread? && n.t < THREAD_STRUCTS ==> s.threads[n.t].state == Blocked
  }

  /** What pthread_exit does to the queues: the exiting thread's struct is free, a matching
      head joins the ready list before its first thread is dispatched, and that is all. */
  predicate QueuesAfterExit(s: Sched, s': Sched)
    requires s.Sized()
  {
    var p := s.Proc();
    var js := s.Q(Joining(p));
    var headJoins := js != [] && WaitsFor(s, js[0], s.threads[s.current].tid);
    && s'.Q(FreeThreads) == s.Q(FreeThreads) + [Thread(s.current)]
    && s'.Q(Joining(p)) == (if headJoins then js[1..] else js)
    && [Thread(s'.current)] + s'.Q(Ready(p)) == s.Q(Ready(p)) + (if headJoins then [js[0]] else [])
  }

  /** And to the structs: they change in their `state` alone. The scan marks the joiners
      behind the head READY; apart from that only a joining head and the dispatched thread
      can differ. */
  predicate StateAfterExit(s: Sched, t: nat, v: ThreadStruct, dispatched: nat)
    requires s.Sized() && t < THREAD_STRUCTS
  {
    var js, tid := s.Q(Joining(s.Proc())), s.threads[s.current].tid;
    && v == s.threads[t].(state := v.state)
    && (t != dispatched && (js == [] || Thread(t) != js[0] || !WaitsFor(s, js[0], tid)) ==>
          v.state == if js != [] && Thread(t) in js[1..] && WaitsFor(s, Thread(t), tid)
                     then Runnable else s.threads[t].state)
  }

  ghost predicate AfterExit(s: Sched, s': Sched) {
    && s.Sized() && s'.Sized() && QueuesAfterExit(s, s')
    && (forall q | q != FreeThreads && q != Joining(s.Proc()) && q != Ready(s.Proc()) :: s'.Q(q) == s.Q(q))
    && (forall t: nat | t < THREAD_STRUCTS :: StateAfterExit(s, t, s'.threads[t], s'.current))
  }

  lemma PthreadExitEffect(s: Sched)
    requires Inv(s) && PthreadExitGuard(s)
    ensures AfterExit(s, PthreadExit(s))
  {
    var s1, s2 := ExitScan(s);
    AfterScan(s, s1, s2);
  }

  /** The states before and after the scan of pthread_exit. */
  lemma ExitScan(s: Sched) returns (s1: Sched, s2: Sched)
    requires Inv(s) && PthreadExitGuard(s)
    ensures Shape(s1) && s1 == s.(rings := s1.rings) && IsParked(s, s2)
    ensures forall q :: s1.Q(q) == if q == FreeThreads then s.Q(q) + [Thread(s.current)] else s.Q(q)
    ensures var p, tid := s.Proc(), s.threads[s.current].tid;
            && (s1.Q(Joining(p)) != [] ==> HeadThread(s1, Joining(p)))
            && s2.rings == (if s1.Q(Joining(p)) != [] && WaitsFor(s1, s1.Q(Joining(p))[0], tid)
                            then Moved(s1.rings, Joining(p), Ready(p)) else s1.rings)
            && s2 == Woken(s1, p, tid)
    ensures PthreadExit(s) == NextThread(s2)
  {
    var p, tid := s.Proc(), s.threads[s.current].tid;
    PthreadExitDispatches(s);
    RetiredAgrees(s);
    s1 := Retired(s);
    s2 := ScanOfExit(s, p, tid);
    WokenRings(s1, p, tid);
  }

  lemma AfterScan(s: Sched, s1: Sched, s2: Sched)
    requires s.Sized() && s.Proc() < NR_TASKS && Shape(s1) && s1 == s.(rings := s1.rings) && IsParked(s, s2)
    requires forall q :: s1.Q(q) == if q == FreeThreads then s.Q(q) + [Thread(s.current)] else s.Q(q)
    requires var p, tid := s.Proc(), s.threads[s.current].tid;
             && (s1.Q(Joining(p)) != [] ==> HeadThread(s1, Joining(p)))
             && s2.rings == (if s1.Q(Joining(p)) != [] && WaitsFor(s1, s1.Q(Joining(p))[0], tid)
                             then Moved(s1.rings, Joining(p), Ready(p)) else s1.rings)
             && s2 == Woken(s1, p, tid)
    ensures AfterExit(s, NextThread(s2))
  {
    ScanQueues(s, s1, s2);
    ScanStructs(s, s1, s2);
  }

  lemma ScanQueues(s: Sched, s1: Sched, s2: Sched)
    requires s.Sized() && s.Proc() < NR_TASKS && Shape(s1) && IsParked(s, s2) && s1.threads == s.threads
    requires forall q :: s1.Q(q) == if q == FreeThreads then s.Q(q) + [Thread(s.current)] else s.Q(q)
    requires var p, tid := s.Proc(), s.threads[s.current].tid;
             && s2.rings == (if s1.Q(Joining(p)) != [] && WaitsFor(s1, s1.Q(Joining(p))[0], tid)
                             then Moved(s1.rings, Joining(p), Ready(p)) else s1.rings)
    ensures QueuesAfterExit(s, NextThread(s2))
    ensures forall q | q != FreeThreads && q != Joining(s.Proc()) && q != Ready(s.Proc()) :: NextThread(s2).Q(q) == s.Q(q)
  {
    NextThreadEffect(s2);
    ScannedQueues(s, s1, s2);
    QueuesFrom(s, s2, NextThread(s2));
  }

  /** The scan moves a matching head to the ready list. */
  predicate HeadMoved(s: Sched, s2: Sched)
    requires s.Sized()
  {
    var p := s.Proc();
    var js := s.Q(Joining(p));
    var headJoins := js != [] && WaitsFor(s, js[0], s.threads[s.current].tid);
    && s2.Q(FreeThreads) == s.Q(FreeThreads) + [Thread(s.current)]
    && s2.Q(Joining(p)) == (if headJoins then js[1..] else js)
    && s2.Q(Ready(p)) == s.Q(Ready(p)) + (if headJoins then [js[0]] else [])
  }

  lemma ScannedQueues(s: Sched, s1: Sched, s2: Sched)
    requires s.Sized() && s.Proc() < NR_TASKS && Shape(s1) && s1.threads == s.threads
    requires forall q :: s1.Q(q) == if q == FreeThreads then s.Q(q) + [Thread(s.current)] else s.Q(q)
    requires var p, tid := s.Proc(), s.threads[s.current].tid;
             && s2.rings == (if s1.Q(Joining(p)) != [] && WaitsFor(s1, s1.Q(Joining(p))[0], tid)
                             then Moved(s1.rings, Joining(p), Ready(p)) else s1.rings)
    ensures HeadMoved(s, s2)
    ensures forall q | q != FreeThreads && q != Joining(s.Proc()) && q != Ready(s.Proc()) :: s2.Q(q) == s.Q(q)
  {
    var p, js := s.Proc(), s.Q(Joining(s.Proc()));
    if js != [] && WaitsFor(s, js[0], s.threads[s.current].tid) {
      MovedGrows(s1, s2, Joining(p), p);
    }
  }

  lemma QueuesFrom(s: Sched, s2: Sched, s': Sched)
    requires s.Sized() && HeadMoved(s, s2)
    requires forall q | q != FreeThreads && q != Joining(s.Proc()) && q != Ready(s.Proc()) :: s2.Q(q) == s.Q(q)
    requires s2.Q(Ready(s.Proc())) == [Thread(s'.current)] + s'.Q(Ready(s.Proc()))
    requires forall h | h != Ready(s.Proc()) :: s'.Q(h) == s2.Q(h)
    ensures QueuesAfterExit(s, s')
    ensures forall q | q != FreeThreads && q != Joining(s.Proc()) && q != Ready(s.Proc()) :: s'.Q(q) == s.Q(q)
  {
  }

  lemma ScanStructs(s: Sched, s1: Sched, s2: Sched)
    requires s.Sized() && s.Proc() < NR_TASKS && Shape(s1) && IsParked(s, s2) && s1.threads == s.threads && s1.current == s.current
    requires s1.Q(Joining(s.Proc())) == s.Q(Joining(s.Proc()))
    requires s1.Q(Joining(s.Proc())) != [] ==> HeadThread(s1, Joining(s.Proc()))
    requires s2 == Woken(s1, s.Proc(), s.threads[s.current].tid)
    ensures forall t: nat | t < THREAD_STRUCTS ::
              StateAfterExit(s, t, NextThread(s2).threads[t], NextThread(s2).current)
  {
    WokenMarks(s1, s.Proc(), s.threads[s.current].tid);
    NextThreadFrame(s2);
    MarksAfterExit(s, s1, s2, NextThread(s2));
  }

  /** What the scan does to a struct: a joiner of `tid` is marked READY. */
  predicate WokenStruct(s: Sched, p: nat, tid: int, t: nat, v: ThreadStruct)
    requires t < |s.threads|
  {
    var js := s.Q(Joining(p));
    v == if js != [] && Thread(t) in js && WaitsFor(s, Thread(t), tid) then s.threads[t].(state := Runnable) else s.threads[t]
  }

  lemma WokenMarks(s: Sched, p: nat, tid: int)
    requires Shape(s) && p < NR_TASKS && (s.Q(Joining(p)) != [] ==> HeadThread(s, Joining(p)))
    ensures |Woken(s, p, tid).threads| == THREAD_STRUCTS
    ensures forall t: nat | t < THREAD_STRUCTS :: WokenStruct(s, p, tid, t, Woken(s, p, tid).threads[t])
  {
    var js := s.Q(Joining(p));
    if js != [] {
      assert js == [js[0]] + js[1..] && NoDup(s.rings.seqs[Joining(p)]);
      assert js[0] !in js[1..];
    }
  }

  lemma MarksAfterExit(s: Sched, s1: Sched, s2: Sched, s': Sched)
    requires s.Sized() && s1.Sized() && s1.threads == s.threads && s1.Q(Joining(s.Proc())) == s.Q(Joining(s.Proc()))
    requires |s2.threads| == |s'.threads| == THREAD_STRUCTS && s'.current < THREAD_STRUCTS
    requires forall t: nat | t < THREAD_STRUCTS :: WokenStruct(s1, s.Proc(), s.threads[s.current].tid, t, s2.threads[t])
    requires s'.threads == s2.threads[s'.current := s2.threads[s'.current].(state := Running)]
    ensures forall t: nat | t < THREAD_STRUCTS :: StateAfterExit(s, t, s'.threads[t], s'.current)
  {
    var js := s.Q(Joining(s.Proc()));
    assert js != [] ==> js == [js[0]] + js[1..];
    forall t: nat | t < THREAD_STRUCTS
      ensures StateAfterExit(s, t, s'.threads[t], s'.current)
    {
      assert WokenStruct(s1, s.Proc(), s.threads[s.current].tid, t, s2.threads[t]);
    }
  }

  lemma OtherJoiners(s: Sched, p: nat)
    requires Inv(s)
    ensures forall i | 0 <= i < |s.Q(Joining(p))| ::
              var n := s.Q(Joining(p))[i]; n.Thread? && n.t < THREAD_STRUCTS && n.t != s.current
    ensures NoDup(s.Q(Joining(p)))
  {
    forall i | 0 <= i < |s.Q(Joining(p))|
      ensures var n := s.Q(Joining(p))[i]; n.Thread? && n.t < THREAD_STRUCTS && n.t != s.current
    {
      QueuedAt(s, Joining(p), i);
    }
  }

  /** pthread_exit wakes every joiner of the exiting thread exactly when none of them is
      behind the head of the join queue. */
  lemma ExitWakesAllIff(s: Sched)
    requires Inv(s) && PthreadExitGuard(s)
    ensures PthreadExit(s).Sized()
    ensures !SomeoneJoins(PthreadExit(s), s.Proc(), s.threads[s.current].tid) <==> !JoinerBehindHead(s)
  {
    PthreadExitEffect(s);
    OtherJoiners(s, s.Proc());
    WakesAllFrom(s, PthreadExit(s));
  }

  lemma WakesAllFrom(s: Sched, s': Sched)
    requires AfterExit(s, s')
    requires forall i | 0 <= i < |s.Q(Joining(s.Proc()))| :: var n := s.Q(Joining(s.Proc()))[i]; n.Thread? && n.t < THREAD_STRUCTS
    ensures !SomeoneJoins(s', s.Proc(), s.threads[s.current].tid) <==> !JoinerBehindHead(s)
  {
    var tid := s.threads[s.current].tid;
    var js, js' := s.Q(Joining(s.Proc())), s'.Q(Joining(s.Proc()));
    forall i | 0 <= i < |js|
      ensures WaitsFor(s', js[i], tid) == WaitsFor(s, js[i], tid)
    {
      assert StateAfterExit(s, js[i].t, s'.threads[js[i].t], s'.current);
    }
    if i :| 1 <= i < |js| && WaitsFor(s, js[i], tid) {
      assert js' == js || js'[i - 1] == js[i];
    }
    if i :| 0 <= i < |js'| && WaitsFor(s', js'[i], tid) {
      assert js' == js || js'[i] == js[i + 1];
    }
  }

  /** The READY/BLOCKED marks agree with the queues afterwards under the same condition. */
  lemma ExitKeepsMarksIff(s: Sched)
    requires Inv(s) && PthreadExitGuard(s) && JoinersBlocked(s, s.Proc())
    ensures PthreadExit(s).Sized()
    ensures JoinersBlocked(PthreadExit(s), s.Proc()) <==> !JoinerBehindHead(s)
  {
    PthreadExitEffect(s);
    PthreadExitInv(s);
    OtherJoiners(s, s.Proc());
    OtherJoiners(PthreadExit(s), s.Proc());
    MarksFrom(s, PthreadExit(s));
  }

  lemma MarksFrom(s: Sched, s': Sched)
    requires AfterExit(s, s') && JoinersBlocked(s, s.Proc())
    requires NoDup(s.Q(Joining(s.Proc())))
    requires forall i | 0 <= i < |s.Q(Joining(s.Proc()))| :: var n := s.Q(Joining(s.Proc()))[i]; n.Thread? && n.t < THREAD_STRUCTS
    requires forall i | 0 <= i < |s'.Q(Joining(s.Proc()))| :: s'.Q(Joining(s.Proc()))[i] != Thread(s'.current)
    ensures JoinersBlocked(s', s.Proc()) <==> !JoinerBehindHead(s)
  {
    if JoinerBehindHead(s) {
      var i: nat :| 1 <= i < |s.Q(Joining(s.Proc()))| && WaitsFor(s, s.Q(Joining(s.Proc()))[i], s.threads[s.current].tid);
      var j := JoinerAfter(s, s', i);
    } else {
      forall j: nat | j < |s'.Q(Joining(s.Proc()))|
        ensures s'.threads[s'.Q(Joining(s.Proc()))[j].t].state == Blocked
      {
        var i := JoinerBefore(s, s', j);
      }
    }
  }

  /** Where the joiner at index i is afterwards, and its mark. */
  lemma JoinerAfter(s: Sched, s': Sched, i: nat) returns (j: nat)
    requires AfterExit(s, s') && 1 <= i < |s.Q(Joining(s.Proc()))|
    requires NoDup(s.Q(Joining(s.Proc())))
    requires var n := s.Q(Joining(s.Proc()))[i]; n.Thread? && n.t < THREAD_STRUCTS && WaitsFor(s, n, s.threads[s.current].tid)
    requires forall k | 0 <= k < |s'.Q(Joining(s.Proc()))| :: s'.Q(Joining(s.Proc()))[k] != Thread(s'.current)
    ensures j < |s'.Q(Joining(s.Proc()))| && s'.Q(Joining(s.Proc()))[j] == s.Q(Joining(s.Proc()))[i]
    ensures s'.threads[s.Q(Joining(s.Proc()))[i].t].state == Runnable
  {
    j := if s'.Q(Joining(s.Proc())) == s.Q(Joining(s.Proc())) then i else i - 1;
    assert s'.Q(Joining(s.Proc()))[j] == s.Q(Joining(s.Proc()))[i];
    MarkOf(s, s', i);
  }

  /** Where the joiner at index j came from, when no other than the head joined. */
  lemma JoinerBefore(s: Sched, s': Sched, j: nat) returns (i: nat)
    requires AfterExit(s, s') && !JoinerBehindHead(s) && JoinersBlocked(s, s.Proc())
    requires NoDup(s.Q(Joining(s.Proc()))) && j < |s'.Q(Joining(s.Proc()))|
    requires forall k | 0 <= k < |s.Q(Joining(s.Proc()))| :: var n := s.Q(Joining(s.Proc()))[k]; n.Thread? && n.t < THREAD_STRUCTS
    requires s'.Q(Joining(s.Proc()))[j] != Thread(s'.current)
    ensures i < |s.Q(Joining(s.Proc()))| && s'.Q(Joining(s.Proc()))[j] == s.Q(Joining(s.Proc()))[i]
    ensures s'.threads[s.Q(Joining(s.Proc()))[i].t].state == Blocked
  {
    i := if s'.Q(Joining(s.Proc())) == s.Q(Joining(s.Proc())) then j else j + 1;
    assert s'.Q(Joining(s.Proc()))[j] == s.Q(Joining(s.Proc()))[i];
    MarkOf(s, s', i);
  }

  /** The mark of the joiner at index i, unless it is a head that moved. */
  lemma MarkOf(s: Sched, s': Sched, i: nat)
    requires AfterExit(s, s') && i < |s.Q(Joining(s.Proc()))|
    requires NoDup(s.Q(Joining(s.Proc())))
    requires var n := s.Q(Joining(s.Proc()))[i]; n.Thread? && n.t < THREAD_STRUCTS && n.t != s'.current
    requires i == 0 ==> !WaitsFor(s, s.Q(Joining(s.Proc()))[0], s.threads[s.current].tid)
    ensures var n := s.Q(Joining(s.Proc()))[i];
            s'.threads[n.t].state ==
              if i > 0 && WaitsFor(s, n, s.threads[s.current].tid) then Runnable else s.threads[n.t].state
  {
    var js := s.Q(Joining(s.Proc()));
    assert StateAfterExit(s, js[i].t, s'.threads[js[i].t], s'.current);
    assert i > 0 ==> js[1..][i - 1] == js[i];
  }
}
