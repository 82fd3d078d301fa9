/** Joiners that nobody will ever wake: those behind the head of the join queue when the
    thread they wait for exits. */
module Stranded {
  import opened Options
  import opened Rings
  import opened Scheduling
  import opened Agreement
  import opened Steps
  import opened Runs
  import opened Boot
  import opened Switching
  import opened Reachable
  import opened Identities
  import opened Joining

  /** Thread `t` of process `p` waits in join for a TID that is past and gone. */
  ghost predicate WaitsInVain(s: Sched, p: nat, t: nat, id: int) {
    && s.Sized() && p < NR_TASKS && t < THREAD_STRUCTS
    && s.In(Thread(t), Joining(p)) && s.threads[t].blockedBy == id
    && id < s.tasks[p].nthread
    && forall u: nat | Member(s, u) :: !HasId(s, u, p, id)
  }

  predicate HasId(s: Sched, u: nat, p: nat, id: int)
    requires u < |s.threads|
  {
    s.threads[u].task == p && s.threads[u].tid == id
  }

  // ------------------------------------------------------------------ who stays in the queue

  /** The joiners of `p` stay, waiting for whom they waited. */
  ghost predicate JoinersKept(s: Sched, s': Sched, p: nat) {
    && s.Sized() && s'.Sized()
    && forall t: nat | t < THREAD_STRUCTS && s.In(Thread(t), Joining(p)) ::
         s'.In(Thread(t), Joining(p)) && s'.threads[t].blockedBy == s.threads[t].blockedBy
  }

  lemma JoinersKeptInSteps(s: Sched, s1: Sched, s2: Sched, p: nat)
    requires JoinersKept(s, s1, p) && JoinersKept(s1, s2, p)
    ensures JoinersKept(s, s2, p)
  {
  }

  lemma UpdateKeepsJoiners(s: Sched, t: nat, dst: Option<Queue>, p: nat)
    requires s.Sized() && t < THREAD_STRUCTS && !s.In(Thread(t), Joining(p))
    requires s.threads[t].state != Running ==> s.Linked(Thread(t)) && s.rings.home[Thread(t)] in s.rings.seqs
    requires dst.Some? ==> dst.value in s.rings.seqs
    ensures JoinersKept(s, UpdateThread(s, t, dst), p)
  {
  }

  lemma NextThreadKeepsJoiners(s: Sched, p: nat)
    requires s.Sized() && HeadThread(s, Ready(s.Proc()))
    ensures JoinersKept(s, NextThread(s), p)
  {
    UpdateKeepsJoiners(s, FirstThread(s, Ready(s.Proc())), None, p);
  }

  lemma NextProcessKeepsJoiners(s: Sched, p: nat)
    requires s.Sized() && HeadTask(s, ReadyTasks)
    requires HeadThread(s, Ready(FirstTask(s, ReadyTasks)))
    ensures JoinersKept(s, NextProcess(s), p)
  {
  }

  lemma ParkingTaskKeepsJoiners(s: Sched, p: nat)
    requires Settled(s)
    ensures JoinersKept(s, UpdateProcess(s, s.Proc()), p)
    ensures !UpdateProcess(s, s.Proc()).In(Thread(s.current), Joining(p))
  {
  }

  lemma ParkingKeepsJoiners(s: Sched, p: nat) returns (s2: Sched)
    requires Settled(s)
    ensures JoinersKept(s, s2, p) && HeadTask(s2, ReadyTasks) && HeadThread(s2, Ready(FirstTask(s2, ReadyTasks)))
    ensures s2 == ParkProcess(s)
  {
    ParkProcessDispatches(s);
    var s1 := UpdateProcess(s, s.Proc());
    ParkingTaskKeepsJoiners(s, p);
    UpdateKeepsJoiners(s1, s.current, Some(Ready(s.Proc())), p);
    s2 := ParkProcess(s);
    JoinersKeptInSteps(s, s1, s2, p);
  }

  lemma ProcessSwitchKeepsJoiners(s: Sched, p: nat)
    requires Settled(s)
    ensures HeadTask(ParkProcess(s), ReadyTasks) && HeadThread(ParkProcess(s), Ready(FirstTask(ParkProcess(s), ReadyTasks)))
    ensures JoinersKept(s, NextProcess(ParkProcess(s)), p)
  {
    var s2 := ParkingKeepsJoiners(s, p);
    NextProcessKeepsJoiners(s2, p);
    JoinersKeptInSteps(s, s2, NextProcess(s2), p);
  }

  lemma SwitchKeepsJoiners(s: Sched, p: nat)
    requires Settled(s)
    ensures HeadThread(ParkInReady(s), Ready(ParkInReady(s).Proc()))
    ensures JoinersKept(s, NextThread(ParkInReady(s)), p)
  {
    ParkInReadyDispatches(s);
    UpdateKeepsJoiners(s, s.current, Some(Ready(s.Proc())), p);
    NextThreadKeepsJoiners(ParkInReady(s), p);
    JoinersKeptInSteps(s, ParkInReady(s), NextThread(ParkInReady(s)), p);
  }

  lemma TickKeepsJoiners(s: Sched, p: nat)
    requires Inv(s)
    ensures JoinersKept(s, Tick(s), p)
  {
    var s1 := Decremented(s);
    SettledIgnoresQuanta(s, s1);
    if NeedsSched(s1) == 1 {
      ProcessSwitchKeepsJoiners(s1, p);
    } else if NeedsSched(s1) == 2 {
      SwitchKeepsJoiners(s1, p);
    }
  }

  lemma BlockingKeepsJoiners(s: Sched, q: Queue, p: nat)
    requires Inv(s) && Parkable(s, q) && !q.Ready?
    requires s.Q(Ready(s.Proc())) != []
    ensures var s1 := UpdateThread(s, s.current, Some(q));
            HeadThread(s1, Ready(s1.Proc())) && JoinersKept(s, NextThread(s1), p)
  {
    var s1 := UpdateThread(s, s.current, Some(q));
    ParkElsewhereDispatches(s, q);
    UpdateKeepsJoiners(s, s.current, Some(q), p);
    NextThreadKeepsJoiners(s1, p);
    JoinersKeptInSteps(s, s1, NextThread(s1), p);
  }

  lemma JoinKeepsJoiners(s: Sched, id: int, p: nat)
    requires Inv(s) && JoinGuard(s)
    ensures JoinersKept(s, Join(s, id).0, p)
  {
    var s1 := SetThread(s, s.current, s.threads[s.current].(blockedBy := id));
    BlockedByIsFree(s, id);
    BlockingKeepsJoiners(s1, Joining(s.Proc()), p);
    JoinersKeptInSteps(s, s1, Join(s, id).0, p);
  }

  lemma MutexStepKeepsJoiners(s: Sched, step: Step, p: nat)
    requires Inv(s) && Guard(s, step)
    requires step.DoMutexInit? || step.DoMutexLock? || step.DoMutexUnlock? || step.DoMutexDestroy?
    ensures JoinersKept(s, Apply(s, step), p)
  {
    if step.DoMutexLock? && ValidMutex(step.m) && s.mutexes[step.m].locked {
      assert MutexAgrees(s, step.m);
      BlockingKeepsJoiners(s, Waiting(step.m), p);
    } else if step.DoMutexUnlock? && ValidMutex(step.m) && s.mutexes[step.m].locked {
      assert ThreadAgrees(s, FirstThread(s, Waiting(step.m)));
      UpdateKeepsJoiners(s, FirstThread(s, Waiting(step.m)), Some(Ready(s.Proc())), p);
    }
  }

  lemma CreateKeepsJoiners(s: Sched, ok: bool, p: nat)
    requires Inv(s)
    ensures JoinersKept(s, Create(s, ok).0, p)
  {
    if ok && s.Q(FreeThreads) != [] {
      var s', t := Created(s);
    }
  }

  lemma ForkKeepsJoiners(s: Sched, frames: bool, p: nat)
    requires Inv(s)
    ensures JoinersKept(s, Fork(s, frames).0, p)
  {
    if CanFork(s) {
      ForkCases(s, frames);
    }
  }

  lemma ExitKeepsJoiners(s: Sched, p: nat)
    requires Inv(s) && ExitGuard(s) && p != s.Proc()
    ensures JoinersKept(s, Exit(s), p)
  {
    ExitDispatches(s);
    ReleasedQueues(s);
    ReleasedKeepsJoiners(s, Released(s), p);
    NextProcessKeepsJoiners(Released(s), p);
    JoinersKeptInSteps(s, Released(s), Exit(s), p);
  }

  lemma ReleasedKeepsJoiners(s: Sched, s': Sched, p: nat)
    requires s.Sized() && s.Proc() < NR_TASKS && p != s.Proc()
    requires IsReleased(s, s', s.Proc()) && OthersKept(s, s', s.Proc())
    ensures JoinersKept(s, s', p)
  {
    forall t: nat | t < THREAD_STRUCTS && s.In(Thread(t), Joining(p))
      ensures s'.In(Thread(t), Joining(p)) && s'.threads[t].blockedBy == s.threads[t].blockedBy
    {
      assert s.Linked(Thread(t)) && s'.Linked(Thread(t));
    }
  }

  /** Of a thread exit's own process, only a head that waited for it leaves. */
  lemma PthreadExitKeepsJoiner(s: Sched, p: nat, t: nat)
    requires Inv(s) && PthreadExitGuard(s) && t < THREAD_STRUCTS && s.In(Thread(t), Joining(p))
    requires p == s.Proc() ==> s.threads[t].blockedBy != s.threads[s.current].tid || s.Q(Joining(p))[0] != Thread(t)
    ensures PthreadExit(s).Sized()
    ensures PthreadExit(s).In(Thread(t), Joining(p)) && PthreadExit(s).threads[t].blockedBy == s.threads[t].blockedBy
  {
    PthreadExitEffect(s);
    PthreadExitInv(s);
    StillQueued(s, PthreadExit(s), p, t);
    assert StateAfterExit(s, t, PthreadExit(s).threads[t], PthreadExit(s).current);
  }

  lemma StillQueued(s: Sched, s': Sched, p: nat, t: nat)
    requires AfterExit(s, s') && WellFormed(s.rings) && WellFormed(s'.rings)
    requires t < THREAD_STRUCTS && s.In(Thread(t), Joining(p))
    requires p == s.Proc() ==> s.threads[t].blockedBy != s.threads[s.current].tid || s.Q(Joining(p))[0] != Thread(t)
    ensures s'.In(Thread(t), Joining(p))
  {
    var js, js' := s.rings.seqs[Joining(p)], s'.Q(Joining(p));
    var i :| 0 <= i < |js| && js[i] == Thread(t);
    var j := if js' == js then i else i - 1;
    assert js'[j] == Thread(t);
    assert s'.rings.home[s'.rings.seqs[Joining(p)][j]] == Joining(p);
  }

  // ------------------------------------------------------------------ nobody has the TID again

  /** No step but the exit of `p` gives a past TID back to one of its threads. */
  ghost predicate IdStaysGone(s: Sched, s': Sched, p: nat, id: int) {
    && s.Sized() && s'.Sized() && p < NR_TASKS
    && (id < s.tasks[p].nthread && (forall u: nat | Member(s, u) :: !HasId(s, u, p, id)) ==>
          id < s'.tasks[p].nthread && forall u: nat | Member(s', u) :: !HasId(s', u, p, id))
  }

  lemma KeptIdsStayGone(s: Sched, s': Sched, p: nat, id: int)
    requires IdsKept(s, s') && p < NR_TASKS
    ensures IdStaysGone(s, s', p, id)
  {
    assert forall u: nat | Member(s', u) && HasId(s', u, p, id) :: HasId(s, u, p, id);
  }

  lemma AddedIdIsOther(s: Sched, step: Step, p: nat, id: int)
    requires Inv(s) && AddsThread(s, step) && p < NR_TASKS && Live(s, p)
    ensures IdStaysGone(s, Apply(s, step), p, id)
  {
    if step.DoCreate? {
      HeadOfFreeThreads(s);
      var s', t := Created(s);
      NewIdIsOther(s, s', t, p, id);
    } else {
      ForkCases(s, true);
      ForkedIdIsOther(s, Fork(s, true).0, FirstTask(s, FreeTasks), FirstThread(s, FreeThreads), p, id);
    }
  }

  lemma NewIdIsOther(s: Sched, s': Sched, t: nat, p: nat, id: int)
    requires s.Sized() && s'.Sized() && s.Proc() < NR_TASKS && p < NR_TASKS && t < THREAD_STRUCTS
    requires s'.rings.home == s.rings.home[Thread(t) := Ready(s.Proc())] && s'.current == s.current
    requires s'.threads == s.threads[t := s'.threads[t]]
    requires s'.threads[t].task == s.Proc() && s'.threads[t].tid == s.tasks[s.Proc()].nthread
    requires s'.tasks == s.tasks[s.Proc() := s.tasks[s.Proc()].(nthread := s.tasks[s.Proc()].nthread + 1)]
    ensures IdStaysGone(s, s', p, id)
  {
    assert forall u: nat | u != t && Member(s', u) :: Member(s, u) && (HasId(s', u, p, id) <==> HasId(s, u, p, id));
  }

  lemma ForkedIdIsOther(s: Sched, s': Sched, c: nat, t: nat, p: nat, id: int)
    requires s.Sized() && s'.Sized() && p < NR_TASKS && c < NR_TASKS && t < THREAD_STRUCTS && c != p
    requires forall u: nat | u != t :: s'.Linked(Thread(u)) <==> s.Linked(Thread(u))
    requires forall u: nat | u != t && s.Linked(Thread(u)) && s'.Linked(Thread(u)) :: s'.rings.home[Thread(u)] == s.rings.home[Thread(u)]
    requires s'.current == s.current && s'.threads == s.threads[t := s'.threads[t]] && s'.threads[t].task == c
    requires s'.tasks == s.tasks[c := s'.tasks[c]]
    ensures IdStaysGone(s, s', p, id)
  {
    assert forall u: nat | u != t && Member(s', u) :: Member(s, u) && (HasId(s', u, p, id) <==> HasId(s, u, p, id));
  }

  lemma StepKeepsGone(s: Sched, step: Step, p: nat, id: int)
    requires Inv(s) && Guard(s, step) && p < NR_TASKS && Live(s, p)
    ensures IdStaysGone(s, Apply(s, step), p, id)
  {
    if AddsThread(s, step) {
      AddedIdIsOther(s, step, p, id);
    } else {
      StepKeepsIds(s, step);
      KeptIdsStayGone(s, Apply(s, step), p, id);
    }
  }

  // ------------------------------------------------------------------ for ever

  lemma StepKeepsJoiner(s: Sched, step: Step, p: nat, t: nat, id: int)
    requires Inv(s) && Guard(s, step) && WaitsInVain(s, p, t, id) && !(step.DoExit? && s.Proc() == p)
    ensures Apply(s, step).Sized()
    ensures Apply(s, step).In(Thread(t), Joining(p)) && Apply(s, step).threads[t].blockedBy == id
  {
    match step
    case TimerTick => TickKeepsJoiners(s, p);
    case DoYield => SwitchKeepsJoiners(s, p);
    case DoCreate(ok) => CreateKeepsJoiners(s, ok, p);
    case DoJoin(j) => JoinKeepsJoiners(s, j, p);
    case DoPthreadExit =>
      assert Member(s, s.current) && !HasId(s, s.current, p, id);
      PthreadExitKeepsJoiner(s, p, t);
    case DoFork(frames) => ForkKeepsJoiners(s, frames, p);
    case DoExit => ExitKeepsJoiners(s, p);
    case _ => MutexStepKeepsJoiners(s, step, p);
  }

  lemma JoinersProcessIsLive(s: Sched, p: nat, t: nat)
    requires Inv(s) && s.In(Thread(t), Joining(p))
    ensures Live(s, p)
  {
    assert ThreadAgrees(s, t);
  }

  lemma StillInVain(s: Sched, step: Step, s': Sched, p: nat, t: nat, id: int)
    requires IsStep(s, step, s') && WaitsInVain(s, p, t, id) && !(step.DoExit? && s.Proc() == p)
    ensures WaitsInVain(s', p, t, id)
  {
    JoinersProcessIsLive(s, p, t);
    StepKeepsJoiner(s, step, p, t, id);
    StepKeepsGone(s, step, p, id);
  }

  /** The step keeps it so. */
  ghost predicate StaysInVain(s: Sched, step: Step, s': Sched, p: nat, t: nat, id: int) {
    WaitsInVain(s, p, t, id) && !(step.DoExit? && s.Proc() == p) ==> WaitsInVain(s', p, t, id)
  }

  lemma TraceStaysInVain(ks: seq<Sched>, steps: seq<Step>, p: nat, t: nat, id: int)
    requires Trace(ks, steps)
    ensures forall j | 0 <= j < |steps| :: StaysInVain(ks[j], steps[j], ks[j + 1], p, t, id)
  {
    forall j | 0 <= j < |steps|
      ensures StaysInVain(ks[j], steps[j], ks[j + 1], p, t, id)
    {
      assert IsStep(ks[j], steps[j], ks[j + 1]);
      if WaitsInVain(ks[j], p, t, id) && !(steps[j].DoExit? && ks[j].Proc() == p) {
        StillInVain(ks[j], steps[j], ks[j + 1], p, t, id);
      }
    }
  }

  lemma {:induction false} InVainOverRun(ks: seq<Sched>, steps: seq<Step>, p: nat, t: nat, id: int, n: nat)
    requires |ks| == |steps| + 1 && n <= |steps|
    requires forall j | 0 <= j < |steps| :: StaysInVain(ks[j], steps[j], ks[j + 1], p, t, id)
    requires WaitsInVain(ks[0], p, t, id)
    requires forall j | 0 <= j < n :: !(steps[j].DoExit? && ks[j].Sized() && ks[j].Proc() == p)
    ensures WaitsInVain(ks[n], p, t, id)
  {
    if n > 0 {
      InVainOverRun(ks, steps, p, t, id, n - 1);
      assert StaysInVain(ks[n - 1], steps[n - 1], ks[n], p, t, id);
    }
  }

  /** In every state of every run until its process exits, the thread is in the join queue
      still, waiting for the same TID, which none of the process's threads has. */
  lemma InVainForEver(ks: seq<Sched>, steps: seq<Step>, p: nat, t: nat, id: int, n: nat)
    requires Trace(ks, steps) && n <= |steps| && WaitsInVain(ks[0], p, t, id)
    requires forall j | 0 <= j < n :: !(steps[j].DoExit? && ks[j].Sized() && ks[j].Proc() == p)
    ensures WaitsInVain(ks[n], p, t, id)
  {
    TraceStaysInVain(ks, steps, p, t, id);
    InVainOverRun(ks, steps, p, t, id, n);
  }

  // ------------------------------------------------------------------ how one gets there

  /** The exit of a thread strands every joiner of it that is not the head. */
  lemma ExitStrands(s: Sched, i: nat)
    requires Inv(s) && Identified(s) && PthreadExitGuard(s)
    requires 1 <= i < |s.Q(Joining(s.Proc()))| && WaitsFor(s, s.Q(Joining(s.Proc()))[i], s.threads[s.current].tid)
    ensures WaitsInVain(PthreadExit(s), s.Proc(), s.Q(Joining(s.Proc()))[i].t, s.threads[s.current].tid)
  {
    var p, t, id := s.Proc(), s.Q(Joining(s.Proc()))[i].t, s.threads[s.current].tid;
    var js := s.rings.seqs[Joining(p)];
    assert js[0] != js[i] && s.rings.home[js[i]] == Joining(p);
    JoiningMembers(s, p);
    PthreadExitKeepsJoiner(s, p, t);
    PthreadExitKeepsIds(s);
    ExitedIdIsGone(s);
  }

  lemma ExitedIdIsGone(s: Sched)
    requires Inv(s) && Identified(s) && PthreadExitGuard(s)
    ensures var s', p, id := PthreadExit(s), s.Proc(), s.threads[s.current].tid;
            s'.Sized() && id < s'.tasks[p].nthread && forall u: nat | Member(s', u) :: !HasId(s', u, p, id)
  {
    var s' := PthreadExit(s);
    PthreadExitKeepsIds(s);
    ExitedIsFree(s);
    assert Member(s, s.current) && TidBelow(s, s.current);
    forall u: nat | Member(s', u)
      ensures !HasId(s', u, s.Proc(), s.threads[s.current].tid)
    {
      assert u != s.current ==> !SameIds(s, u, s.current);
    }
  }

  lemma ExitedIsFree(s: Sched)
    requires Inv(s) && PthreadExitGuard(s)
    ensures !Member(PthreadExit(s), s.current)
  {
    var s' := PthreadExit(s);
    PthreadExitEffect(s);
    PthreadExitInv(s);
    var fs := s'.rings.seqs[FreeThreads];
    assert fs[|s.Q(FreeThreads)|] == Thread(s.current);
    assert s'.rings.home[fs[|s.Q(FreeThreads)|]] == FreeThreads;
  }
}
