/** Runs from boot that end where the code does not do what one would expect of it. */
module FailingRuns {
  import opened Options
  import opened Rings
  import opened Scheduling
  import opened Agreement
  import opened Steps
  import opened Runs
  import opened Boot
  import opened Switching
  import opened Reachable
  import opened Identities
  import opened Joining
  import opened Stranded
  import opened LiveProcesses
  import opened Frames
  import opened Paging
  import opened AddressSpaces
  import opened Kernel
  import opened Timing
  import System

  // ------------------------------------------------------------------ a joiner left behind

  /** Thread `t`, the first free one, is ready behind the others, with the next TID. */
  ghost predicate AddsReady(s: Sched, s': Sched, t: nat) {
    && s.Sized() && s'.Sized() && s'.current == s.current && s'.Proc() == s.Proc() < NR_TASKS
    && s.Q(FreeThreads) == [Thread(t)] + s'.Q(FreeThreads)
    && s'.Q(Ready(s.Proc())) == s.Q(Ready(s.Proc())) + [Thread(t)]
    && s'.Q(Joining(s.Proc())) == s.Q(Joining(s.Proc()))
    && t < THREAD_STRUCTS && s'.threads[t].tid == s.tasks[s.Proc()].nthread
    && (forall x: nat | x < THREAD_STRUCTS && x != t :: s'.threads[x] == s.threads[x])
    && s'.tasks[s.Proc()].nthread == s.tasks[s.Proc()].nthread + 1
  }

  lemma CreateEffect(s: Sched) returns (s': Sched, t: nat)
    requires Inv(s) && s.Q(FreeThreads) != []
    ensures IsStep(s, DoCreate(true), s') && Inv(s') && AddsReady(s, s', t)
  {
    s' := CreateIsStep(s);
    t := CreatedThread(s, s');
    AddsIt(s, s', t);
  }

  lemma CreatedThread(s: Sched, s': Sched) returns (t: nat)
    requires Inv(s) && s.Q(FreeThreads) != [] && s' == Create(s, true).0
    ensures s'.Sized() && t < THREAD_STRUCTS && t != s.current && s.Proc() < NR_TASKS && s'.current == s.current
    ensures s'.threads == s.threads[t := s'.threads[t]]
    ensures s'.threads[t].task == s.Proc() && s'.threads[t].tid == s.tasks[s.Proc()].nthread
    ensures s'.tasks == s.tasks[s.Proc() := s.tasks[s.Proc()].(nthread := s.tasks[s.Proc()].nthread + 1)]
    ensures s.Q(FreeThreads)[0] == Thread(t)
    ensures forall q :: s'.Q(q) == if q == Ready(s.Proc()) then s.Q(q) + [Thread(t)]
                                   else if q == FreeThreads then s.Q(q)[1..] else s.Q(q)
  {
    var s1;
    s1, t := Created(s);
    CreatedQueues(s);
  }

  lemma AddsIt(s: Sched, s': Sched, t: nat)
    requires s.Sized() && s'.Sized() && t < THREAD_STRUCTS && t != s.current && s.Proc() < NR_TASKS && s'.current == s.current
    requires s'.threads == s.threads[t := s'.threads[t]]
    requires s'.threads[t].task == s.Proc() && s'.threads[t].tid == s.tasks[s.Proc()].nthread
    requires s'.tasks == s.tasks[s.Proc() := s.tasks[s.Proc()].(nthread := s.tasks[s.Proc()].nthread + 1)]
    requires s.Q(FreeThreads) != [] && s.Q(FreeThreads)[0] == Thread(t)
    requires forall q :: s'.Q(q) == if q == Ready(s.Proc()) then s.Q(q) + [Thread(t)]
                                    else if q == FreeThreads then s.Q(q)[1..] else s.Q(q)
    ensures AddsReady(s, s', t)
  {
  }

  lemma CreateIsStep(s: Sched) returns (s': Sched)
    requires Inv(s)
    ensures s' == Create(s, true).0 && IsStep(s, DoCreate(true), s') && Inv(s')
  {
    CreateInv(s, true);
    s' := Create(s, true).0;
  }

  /** The running thread is the last to join, and the first ready one takes over. */
  ghost predicate JoinsLast(s: Sched, s': Sched, id: int) {
    && s.Sized() && s'.Sized() && s'.Proc() == s.Proc()
    && s.Q(Ready(s.Proc())) == [Thread(s'.current)] + s'.Q(Ready(s.Proc()))
    && s'.Q(Joining(s.Proc())) == s.Q(Joining(s.Proc())) + [Thread(s.current)]
    && (forall x: nat | x < THREAD_STRUCTS :: s'.threads[x].tid == s.threads[x].tid)
    && (forall x: nat | x < THREAD_STRUCTS ::
          s'.threads[x].blockedBy == if x == s.current then id else s.threads[x].blockedBy)
  }

  lemma JoinEffect(s: Sched, id: int) returns (s': Sched)
    requires Inv(s) && JoinGuard(s)
    ensures IsStep(s, DoJoin(id), s') && Inv(s') && JoinsLast(s, s', id)
  {
    JoinInv(s, id);
    JoinIsStep(s, id);
    var s1, s2 := JoinParts(s, id);
    s' := NextThread(s2);
    NextThreadEffect(s2);
    JoinIds(s, s1, s2, s', id);
    ProcKept(s2, s');
  }

  lemma JoinIsStep(s: Sched, id: int)
    requires Inv(s) && JoinGuard(s)
    ensures IsStep(s, DoJoin(id), Join(s, id).0)
  {
  }

  lemma JoinParts(s: Sched, id: int) returns (s1: Sched, s2: Sched)
    requires Inv(s) && JoinGuard(s)
    ensures s1 == SetThread(s, s.current, s.threads[s.current].(blockedBy := id))
    ensures Joining(s.Proc()) in s1.rings.seqs && s1.threads[s1.current].state == Running
    ensures s2 == UpdateThread(s1, s1.current, Some(Joining(s.Proc()))) && s2.Proc() == s.Proc()
    ensures Shape(s2) && HeadThread(s2, Ready(s2.Proc())) && Join(s, id).0 == NextThread(s2)
    ensures s2.threads[FirstThread(s2, Ready(s2.Proc()))].state != Running
    ensures s2.threads[FirstThread(s2, Ready(s2.Proc()))].task == s2.Proc()
    ensures forall h :: s2.Q(h) == if h == Joining(s.Proc()) then s.Q(h) + [Thread(s.current)] else s.Q(h)
  {
    s1 := SetThread(s, s.current, s.threads[s.current].(blockedBy := id));
    BlockedByIsFree(s, id);
    s2 := ParkedJoiner(s1);
  }

  lemma ParkedJoiner(s: Sched) returns (s1: Sched)
    requires Inv(s) && s.Q(Ready(s.Proc())) != []
    ensures Joining(s.Proc()) in s.rings.seqs && s.threads[s.current].state == Running
    ensures s1 == UpdateThread(s, s.current, Some(Joining(s.Proc()))) && s1.Proc() == s.Proc()
    ensures Shape(s1) && HeadThread(s1, Ready(s1.Proc()))
    ensures s1.threads[FirstThread(s1, Ready(s1.Proc()))].state != Running
    ensures s1.threads[FirstThread(s1, Ready(s1.Proc()))].task == s1.Proc()
    ensures forall h :: s1.Q(h) == if h == Joining(s.Proc()) then s.Q(h) + [Thread(s.current)] else s.Q(h)
  {
    var q := Joining(s.Proc());
    s1 := UpdateThread(s, s.current, Some(q));
    ParkElsewhereDispatches(s, q);
    ParkThread(s, q);
    HeadOfReady(s1, s.Proc());
  }

  lemma JoinIds(s: Sched, s1: Sched, s2: Sched, s': Sched, id: int)
    requires s.Sized() && s1 == SetThread(s, s.current, s.threads[s.current].(blockedBy := id))
    requires Joining(s.Proc()) in s1.rings.seqs && s1.threads[s1.current].state == Running
    requires s2 == UpdateThread(s1, s1.current, Some(Joining(s.Proc())))
    requires s2.Sized() && HeadThread(s2, Ready(s2.Proc())) && s' == NextThread(s2)
    ensures forall x: nat | x < THREAD_STRUCTS :: s'.threads[x].tid == s.threads[x].tid
    ensures forall x: nat | x < THREAD_STRUCTS ::
              s'.threads[x].blockedBy == if x == s.current then id else s.threads[x].blockedBy
  {
  }

  lemma ProcKept(s: Sched, s': Sched)
    requires s.Sized() && HeadThread(s, Ready(s.Proc())) && s' == NextThread(s)
    requires s.threads[FirstThread(s, Ready(s.Proc()))].task == s.Proc()
    ensures s'.Proc() == s.Proc()
  {
  }

  /** Threads 2 and 3 have been created, and threads 1 and 2 have joined thread 3. */
  ghost predicate TwoWait(s: Sched) {
    && s.Sized() && s.Proc() == 1 && s.threads[s.current].tid == 3
    && s.Q(Joining(1)) == [Thread(1), Thread(2)] && WaitsFor(s, Thread(1), 3) && WaitsFor(s, Thread(2), 3)
  }

  predicate OnlyTheFirst(s: Sched) {
    && s.Sized() && s.current == 1 && s.Proc() == 1 && s.tasks[1].nthread == 2
    && s.Q(Ready(1)) == [] && s.Q(Joining(1)) == []
    && |s.Q(FreeThreads)| >= 2 && s.Q(FreeThreads)[0] == Thread(2) && s.Q(FreeThreads)[1] == Thread(3)
  }

  lemma TwoWaitAfter(s: Sched, s1: Sched, s2: Sched, s3: Sched, s4: Sched, t1: nat, t2: nat)
    requires OnlyTheFirst(s) && AddsReady(s, s1, t1) && AddsReady(s1, s2, t2)
    requires JoinsLast(s2, s3, 3) && JoinsLast(s3, s4, 3)
    ensures TwoWait(s4)
  {
    assert t1 == 2 && t2 == 3;
    assert s2.Q(Ready(1)) == [Thread(2), Thread(3)];
    assert s2.Q(Ready(1))[0] == Thread(s3.current) && s3.Q(Ready(1)) == s2.Q(Ready(1))[1..];
    assert s3.Q(Ready(1))[0] == Thread(s4.current);
  }

  lemma BootIsAlone(s: Sched)
    requires Booted(s)
    ensures Inv(s) && OnlyTheFirst(s)
  {
    BootInv(s);
  }

  predicate FourSteps(steps: seq<Step>) {
    steps == [DoCreate(true), DoCreate(true), DoJoin(3), DoJoin(3)]
  }

  lemma TwoJoiners(s: Sched) returns (ks: seq<Sched>, steps: seq<Step>)
    requires Booted(s)
    ensures FourSteps(steps) && |ks| == 5 && ks[0] == s && Trace(ks, steps)
    ensures Inv(ks[4]) && PthreadExitGuard(ks[4]) && TwoWait(ks[4])
  {
    BootIsAlone(s);
    var s1, t1 := CreateEffect(s);
    var s2, t2 := CreateEffect(s1);
    var s3, s4 := BothJoin(s2, s, s1, t1, t2);
    var three := WithCreates(s, s1, s2);
    ks, steps := WithJoins(three, s3, s4);
  }

  lemma WithCreates(s: Sched, s1: Sched, s2: Sched) returns (ks: seq<Sched>)
    requires IsStep(s, DoCreate(true), s1) && IsStep(s1, DoCreate(true), s2)
    ensures Trace(ks, [DoCreate(true), DoCreate(true)]) && ks == [s, s1, s2]
  {
    var steps: seq<Step> := [];
    ks := OneMore([s], steps, DoCreate(true), s1);
    steps := [DoCreate(true)];
    ks := OneMore(ks, steps, DoCreate(true), s2);
    assert steps + [DoCreate(true)] == [DoCreate(true), DoCreate(true)];
  }

  lemma WithJoins(three: seq<Sched>, s3: Sched, s4: Sched) returns (ks: seq<Sched>, steps: seq<Step>)
    requires |three| == 3 && Trace(three, [DoCreate(true), DoCreate(true)])
    requires IsStep(three[2], DoJoin(3), s3) && IsStep(s3, DoJoin(3), s4)
    ensures FourSteps(steps) && |ks| == 5 && ks[0] == three[0] && Trace(ks, steps) && ks[4] == s4
  {
    steps := [DoCreate(true), DoCreate(true), DoJoin(3)];
    var four := OneMore(three, steps[..2], DoJoin(3), s3);
    ks := OneMore(four, steps, DoJoin(3), s4);
    steps := steps + [DoJoin(3)];
  }

  lemma OneMore(ks: seq<Sched>, steps: seq<Step>, step: Step, s': Sched) returns (ks': seq<Sched>)
    requires Trace(ks, steps) && IsStep(ks[|steps|], step, s')
    ensures ks' == ks + [s'] && Trace(ks', steps + [step])
  {
    ks' := ks + [s'];
    forall i | 0 <= i < |steps + [step]|
      ensures IsStep(ks'[i], (steps + [step])[i], ks'[i + 1])
    {
      if i < |steps| {
        assert IsStep(ks[i], steps[i], ks[i + 1]) && ks'[i] == ks[i] && ks'[i + 1] == ks[i + 1];
      } else {
        assert ks'[i] == ks[i] && ks'[i + 1] == s';
      }
    }
  }

  lemma BothJoin(s2: Sched, s: Sched, s1: Sched, t1: nat, t2: nat) returns (s3: Sched, s4: Sched)
    requires Inv(s2) && OnlyTheFirst(s) && AddsReady(s, s1, t1) && AddsReady(s1, s2, t2)
    ensures IsStep(s2, DoJoin(3), s3) && IsStep(s3, DoJoin(3), s4) && Inv(s4) && TwoWait(s4) && PthreadExitGuard(s4)
  {
    s3 := JoinEffect(s2, 3);
    assert |s3.Q(Ready(1))| == 1;
    s4 := JoinEffect(s3, 3);
    TwoWaitAfter(s, s1, s2, s3, s4, t1, t2);
  }

  /** No thread exits, and so marks and identities are as they should be. */
  ghost predicate InOrder(s: Sched) {
    Inv(s) && JoinersMarked(s) && Identified(s)
  }

  lemma StaysInOrder(s: Sched, step: Step, s': Sched)
    requires IsStep(s, step, s') && InOrder(s) && !step.DoPthreadExit?
    ensures InOrder(s')
  {
    ApplyInv(s, step);
    StepKeepsStatesIff(s, step);
    StepIdentifies(s, step);
  }

  lemma BootInOrder(s: Sched)
    requires Booted(s)
    ensures InOrder(s)
  {
    BootInv(s);
    BootIdentified(s);
    assert forall t: nat | s.Linked(Thread(t)) :: s.rings.home[Thread(t)] == FreeQueueOf(Thread(t));
  }

  lemma FourInOrder(ks: seq<Sched>, steps: seq<Step>)
    requires FourSteps(steps) && Trace(ks, steps) && InOrder(ks[0])
    ensures InOrder(ks[4])
  {
    StaysInOrder(ks[0], steps[0], ks[1]);
    StaysInOrder(ks[1], steps[1], ks[2]);
    StaysInOrder(ks[2], steps[2], ks[3]);
    StaysInOrder(ks[3], steps[3], ks[4]);
  }

  /** Thread 2 is left in the join queue, wrongly marked. */
  lemma ThirdExits(s: Sched)
    requires InOrder(s) && TwoWait(s) && PthreadExitGuard(s)
    ensures IsStep(s, DoPthreadExit, PthreadExit(s)) && PthreadExit(s).Sized()
    ensures SomeoneJoins(PthreadExit(s), 1, 3) && !JoinersMarked(PthreadExit(s)) && WaitsInVain(PthreadExit(s), 1, 2, 3)
  {
    assert WaitsFor(s, s.Q(Joining(1))[1], 3);
    StepKeepsStatesIff(s, DoPthreadExit);
    ExitWakesAllIff(s);
    ExitStrands(s, 1);
  }

  /** From boot: threads 2 and 3 are created, 1 and 2 join 3, and 3 exits. That leaves thread
      2 unwoken and wrongly marked, and for ever: in no run that follows does it leave the
      join queue before its process exits. */
  lemma LeftBehindFromBoot(s: Sched) returns (ks: seq<Sched>, steps: seq<Step>)
    requires Booted(s)
    ensures FourSteps(steps) && |ks| == 6 && ks[0] == s && Trace(ks, steps + [DoPthreadExit])
    ensures ks[5].Sized() && JoinersMarked(ks[4]) && SomeoneJoins(ks[5], 1, 3) && !JoinersMarked(ks[5])
    ensures WaitsInVain(ks[5], 1, 2, 3)
  {
    var ks4;
    ks4, steps := TwoJoiners(s);
    BootInOrder(s);
    FourInOrder(ks4, steps);
    ThirdExits(ks4[4]);
    ks := OneMore(ks4, steps, DoPthreadExit, PthreadExit(ks4[4]));
  }

  // ------------------------------------------------------------------ a stack lost to fork

  /** The new thread's stack is page 284. */
  lemma FirstStackAtBoot(m: Mem, m': Mem, page: nat, f: int)
    requires BootPages(m) && StackMapped(m, m', 1, page, f) && f != -1
    ensures m'.Sized() && m'.Maps(1, PAG_STACKS)
  {
    assert m.tables[1][PAG_STACKS] == 0;
    assert page == PAG_STACKS;
  }

  /** And a fork unmaps it. */
  lemma ForkUnmaps(m: Mem, m': Mem, c: nat)
    requires Forked(m, m', 1, c) && c != 1 && m.Maps(1, PAG_STACKS)
    ensures !m'.Maps(1, PAG_STACKS) && !SameSpace(m, m', 1)
  {
    assert m'.tables[1] == ClearedWindow(m.tables[1], NUM_PAG_DATA);
  }

  /** At boot a thread can be created, and then there is room for a fork. */
  lemma BootAllows(k: State)
    requires BootedKernel(k)
    ensures Good(k) && LiveSet(k.s) == {1} && FreeFrames(k.m.used) != {} && OnlyTheFirst(k.s) && k.s.Q(FreeTasks) != []
  {
    BootGood(k);
    BootLive(k.s);
    BootIsAlone(k.s);
    RoomForFork(k.m, {1}, 0);
  }

  lemma CreateAllowed(k: State)
    requires Good(k) && FreeFrames(k.m.used) != {}
    ensures Allowed(k, Call(DoCreate(true)))
  {
  }

  lemma CreateMaps(k: State, k': State) returns (page: nat, f: int)
    requires Good(k) && Creates(k.s, DoCreate(true)) && Allowed(k, Call(DoCreate(true)))
    requires Next(k, Call(DoCreate(true)), k')
    ensures StackMapped(k.m, k'.m, k.s.Proc(), page, f) && f != -1
    ensures k'.s == Create(k.s, true).0 && k'.stacks == k.stacks + 1 && Good(k')
  {
    page, f :| StackMapped(k.m, k'.m, k.s.Proc(), page, f);
    NextGood(k, Call(DoCreate(true)), k');
  }

  lemma StillOneProcess(s: Sched, s': Sched)
    requires Inv(s) && IdleApart(s) && OnlyTheFirst(s) && s.Q(FreeTasks) != [] && s' == Create(s, true).0
    ensures CanFork(s') && s'.Sized() && s'.Proc() == 1 && LiveSet(s') == LiveSet(s)
  {
    LiveAfterCreate(s, s');
    var t := CreatedThread(s, s');
    AddsIt(s, s', t);
    StillForks(s, s', t);
  }

  lemma LiveAfterCreate(s: Sched, s': Sched)
    requires Inv(s) && IdleApart(s) && s' == Create(s, true).0
    ensures LiveSet(s') == LiveSet(s)
  {
    StepKeepsProcs(s, DoCreate(true));
    KeptLiveSet(s, s');
  }

  lemma StillForks(s: Sched, s': Sched, t: nat)
    requires OnlyTheFirst(s) && s.Q(FreeTasks) != [] && AddsReady(s, s', t) && s'.Q(FreeTasks) == s.Q(FreeTasks)
    ensures CanFork(s') && s'.Proc() == 1
  {
  }

  /** After the first there is a stack on page 284, and the other succeeds. */
  lemma FirstCreate(k0: State, k1: State)
    requires BootedKernel(k0) && Good(k0) && Allowed(k0, Call(DoCreate(true))) && Next(k0, Call(DoCreate(true)), k1)
    ensures Good(k1) && CanFork(k1.s) && k1.s.Proc() == 1 && k1.m.Maps(1, PAG_STACKS)
    ensures |FreeFrames(k1.m.used)| >= NUM_PAG_DATA
  {
    BootAllows(k0);
    var page, f := CreateMaps(k0, k1);
    FirstStackAtBoot(k0.m, k1.m, page, f);
    StillOneProcess(k0.s, k1.s);
    RoomForFork(k1.m, {1}, 1);
  }

  lemma ForkLosesStack(k1: State, frames: bool, k2: State)
    requires Good(k1) && CanFork(k1.s) && k1.s.Proc() == 1 && k1.m.Maps(1, PAG_STACKS)
    requires |FreeFrames(k1.m.used)| >= NUM_PAG_DATA && ForkStep(k1, frames, k2)
    ensures frames && k2.m.Sized() && !k2.m.Maps(1, PAG_STACKS) && !SameSpace(k1.m, k2.m, 1)
  {
    ForkAddsProcess(k1.s);
    ForkUnmaps(k1.m, k2.m, FirstTask(k1.s, FreeTasks));
  }

  /** On a kernel that has just been booted: a thread is created, and its process forks. */
  method LoseStack(k: System.System) returns (ghost ks: seq<State>, ghost es: seq<Event>)
    requires k.Valid() && BootedKernel(k.View())
    modifies k.Repr()
    ensures k.Valid() && |ks| == 3
    ensures TwoEvents(ks, es, old(k.View()), ks[1], k.View(), Call(DoCreate(true)), Call(DoFork(true)))
    ensures Good(ks[0]) && Run(ks, es)
    ensures LosesStack(ks[1].m, ks[2].m)
  {
    ghost var k0 := k.View();
    BootAllows(k0);
    CreateAllowed(k0);
    var r, t, esp;
    ghost var page;
    r, t, page, esp := k.SysPthreadCreate(true);
    ghost var k1 := k.View();
    var taken, frames;
    r, taken, frames := k.SysFork();
    ks, es := LostBetween(k0, k1, frames, k.View());
  }

  /** A stack page of process 1 is mapped before and not after. */
  ghost predicate LosesStack(m: Mem, m': Mem) {
    m.Sized() && m'.Sized() && m.Maps(1, PAG_STACKS) && !m'.Maps(1, PAG_STACKS) && !SameSpace(m, m', 1)
  }

  lemma LostBetween(k0: State, k1: State, frames: bool, k2: State) returns (ks: seq<State>, es: seq<Event>)
    requires BootedKernel(k0) && Good(k0) && Allowed(k0, Call(DoCreate(true))) && Next(k0, Call(DoCreate(true)), k1)
    requires Good(k1) && Allowed(k1, Call(DoFork(frames))) && Next(k1, Call(DoFork(frames)), k2)
    ensures TwoEvents(ks, es, k0, k1, k2, Call(DoCreate(true)), Call(DoFork(true))) && Run(ks, es)
    ensures LosesStack(k1.m, k2.m)
  {
    FirstCreate(k0, k1);
    ForkStepOf(k1, frames, k2);
    ForkLosesStack(k1, frames, k2);
    ks, es := TwoStepRun(k0, k1, k2, Call(DoCreate(true)), Call(DoFork(frames)));
  }

  ghost predicate TwoEvents(ks: seq<State>, es: seq<Event>, k0: State, k1: State, k2: State, e: Event, g: Event) {
    |ks| == 3 && |es| == 2 && ks[0] == k0 && ks[1] == k1 && ks[2] == k2 && es[0] == e && es[1] == g
  }

  lemma TwoStepRun(k0: State, k1: State, k2: State, e: Event, g: Event) returns (ks: seq<State>, es: seq<Event>)
    requires Good(k0) && Allowed(k0, e) && Next(k0, e, k1)
    requires Good(k1) && Allowed(k1, g) && Next(k1, g, k2)
    ensures TwoEvents(ks, es, k0, k1, k2, e, g) && Run(ks, es)
  {
    NextGood(k1, g, k2);
    ks, es := EmptyRun(k2);
    ks, es := RunFrom(k1, g, ks, es);
    ks, es := RunFrom(k0, e, ks, es);
  }

  // ------------------------------------------------------------------ code that others see change

  /** Events that end with a store to the first byte of code, after ticks alone. */
  predicate TicksThenStore(es: seq<Event>, b: Byte) {
    && es != [] && es[|es| - 1] == Store(PAG_LOG_INIT_CODE, 0, b)
    && forall i | 0 <= i < |es| - 1 :: es[i] == Call(TimerTick)
  }

  /** A store that runs at once. */
  lemma StoreNow(k: State, b: Byte) returns (ks: seq<State>, es: seq<Event>)
    requires Good(k)
    ensures |ks| == |es| + 1 && ks[0] == k && Run(ks, es) && TicksThenStore(es, b) && StoredIn(ks, k.m, k.s.Proc(), b)
  {
    RunningIsLive(k.s);
    ReadsCode(k.m, LiveSet(k.s), k.s.Proc(), PAG_LOG_INIT_CODE, 0);
    var e, k' := Store(PAG_LOG_INIT_CODE, 0, b), k.(m := Stored(k.m, k.s.Proc(), PAG_LOG_INIT_CODE, 0, b));
    NextGood(k, e, k');
    ks, es := EmptyRun(k');
    ks, es := RunFrom(k, e, ks, es);
  }

  /** Nothing but the store has changed memory `m`, and process `c` made it. */
  ghost predicate StoredIn(ks: seq<State>, m: Mem, c: nat, b: Byte) {
    && |ks| >= 2 && m.Sized() && m.Maps(c, PAG_LOG_INIT_CODE)
    && ks[|ks| - 2].s.Sized() && ks[|ks| - 2].s.Proc() == c && ks[|ks| - 2].m == m
    && ks[|ks| - 1].m == Stored(m, c, PAG_LOG_INIT_CODE, 0, b)
  }

  lemma TickIsNext(k: State) returns (k': State)
    requires Good(k)
    ensures Allowed(k, Call(TimerTick)) && Next(k, Call(TimerTick), k') && Good(k')
    ensures k' == k.(s := Tick(k.s))
  {
    k' := k.(s := Tick(k.s));
    NextGood(k, Call(TimerTick), k');
  }

  /** As soon as its turn has come, after the ticks the running process has left, process
      `c` stores to its code. */
  lemma {:induction false} StoreInTurn(k: State, c: nat, b: Byte) returns (ks: seq<State>, es: seq<Event>)
    requires Good(k) && Waits(k.s, 0, c) && k.s.remP > 0
    ensures |ks| == |es| + 1 && ks[0] == k && Run(ks, es) && TicksThenStore(es, b) && StoredIn(ks, k.m, c, b)
    decreases k.s.remP
  {
    var k' := TickIsNext(k);
    TickToHead(k.s, c);
    if k.s.remP == 1 {
      ks, es := StoreNow(k', b);
    } else {
      ks, es := StoreInTurn(k', c, b);
    }
    ks, es := OneTickMore(k, k', ks, es, c, b);
  }

  lemma TickToHead(s: Sched, c: nat)
    requires Inv(s) && Waits(s, 0, c) && s.remP > 0
    ensures Tick(s).Sized()
    ensures if s.remP == 1 then Tick(s).Proc() == c else Waits(Tick(s), 0, c) && Tick(s).remP == s.remP - 1
  {
    TickWait(s, 0, c);
    assert Quanta(s, s.Q(ReadyTasks)[..0]) == 0;
  }

  lemma OneTickMore(k: State, k': State, ks: seq<State>, es: seq<Event>, c: nat, b: Byte)
      returns (ks': seq<State>, es': seq<Event>)
    requires Good(k) && Allowed(k, Call(TimerTick)) && Next(k, Call(TimerTick), k') && Good(k')
    requires |ks| == |es| + 1 && ks[0] == k' && Run(ks, es) && TicksThenStore(es, b) && StoredIn(ks, k.m, c, b)
    ensures |ks'| == |es'| + 1 && ks'[0] == k && Run(ks', es') && TicksThenStore(es', b) && StoredIn(ks', k.m, c, b)
  {
    ks', es' := RunFrom(k, Call(TimerTick), ks, es);
    MoreTicks(es, es', b);
    MoreStates(k, ks, ks', k.m, c, b);
  }

  lemma MoreTicks(es: seq<Event>, es': seq<Event>, b: Byte)
    requires TicksThenStore(es, b) && es' == [Call(TimerTick)] + es
    ensures TicksThenStore(es', b)
  {
    assert forall i | 1 <= i < |es'| :: es'[i] == es[i - 1];
  }

  lemma MoreStates(k: State, ks: seq<State>, ks': seq<State>, m: Mem, c: nat, b: Byte)
    requires StoredIn(ks, m, c, b) && ks' == [k] + ks
    ensures StoredIn(ks', m, c, b)
  {
    assert ks'[|ks'| - 1] == ks[|ks| - 1] && ks'[|ks'| - 2] == ks[|ks| - 2];
  }

  /** A booted kernel's process has forked: the child is next, for the parent's full quantum. */
  lemma ChildIsNext(k0: State, k1: State, frames: bool)
    requires BootedKernel(k0) && Good(k0) && Allowed(k0, Call(DoFork(frames))) && Next(k0, Call(DoFork(frames)), k1)
    ensures frames && Good(k1) && Waits(k1.s, 0, 2) && k1.s.remP > 0 && LiveSet(k1.s) == {1, 2}
  {
    BootAllows(k0);
    BootForks(k0.s);
    RoomForFork(k0.m, {1}, 0);
    ForkStepOf(k0, frames, k1);
    NextGood(k0, Call(DoFork(frames)), k1);
    ForkAddsProcess(k0.s);
    ForkQueuesChild(k0.s);
  }

  lemma BootForks(s: Sched)
    requires Booted(s)
    ensures CanFork(s) && s.Q(FreeTasks)[0] == Task(2) && s.Q(ReadyTasks) == [] && s.remP > 0
  {
  }

  lemma ForkQueuesChild(s: Sched)
    requires Inv(s) && CanFork(s)
    ensures var s' := Fork(s, true).0; s'.Q(ReadyTasks) == s.Q(ReadyTasks) + [s.Q(FreeTasks)[0]] && s'.remP == s.remP
  {
    var s', c, t := ForkedState(s);
    ForkCases(s, true);
  }

  lemma ParentSees(m: Mem, b: Byte, live: set<nat>)
    requires Isolated(m, live) && 1 in live && 2 in live && m.Maps(2, PAG_LOG_INIT_CODE)
    requires b != CodeByte(m, PAG_LOG_INIT_CODE, 0)
    ensures !SameSpace(m, Stored(m, 2, PAG_LOG_INIT_CODE, 0, b), 1)
  {
    ReadsCode(m, live, 2, PAG_LOG_INIT_CODE, 0);
    StoreSeenIff(m, 2, PAG_LOG_INIT_CODE, 0, b, 1, live);
  }

  /** On a kernel that has just been booted: its process forks, the timer dispatches the
      child, and the child stores to the first byte of its code, which the parent reads too. */
  method StoreSeen(k: System.System, ghost b: Byte) returns (ghost ks: seq<State>, ghost es: seq<Event>)
    requires k.Valid() && BootedKernel(k.View()) && b != CodeByte(k.View().m, PAG_LOG_INIT_CODE, 0)
    modifies k.Repr()
    ensures k.Valid() && |ks| == |es| + 1 && |es| >= 2 && ks[0] == old(k.View()) && ks[1] == k.View()
    ensures es[0] == Call(DoFork(true)) && TicksThenStore(es[1..], b)
    ensures Good(ks[0]) && Run(ks, es)
    ensures StoredIn(ks[1..], ks[1].m, 2, b) && !SameSpace(ks[|es| - 1].m, ks[|es|].m, 1)
  {
    ghost var k0 := k.View();
    BootAllows(k0);
    var r;
    var taken, frames;
    r, taken, frames := k.SysFork();
    ks, es := StoreAfterFork(k0, k.View(), frames, b);
  }

  lemma StoreAfterFork(k0: State, k1: State, frames: bool, b: Byte) returns (ks: seq<State>, es: seq<Event>)
    requires BootedKernel(k0) && Good(k0) && Allowed(k0, Call(DoFork(frames))) && Next(k0, Call(DoFork(frames)), k1)
    requires b != CodeByte(k0.m, PAG_LOG_INIT_CODE, 0)
    ensures |ks| == |es| + 1 && |es| >= 2 && ks[0] == k0 && ks[1] == k1
    ensures es[0] == Call(DoFork(true)) && TicksThenStore(es[1..], b) && Run(ks, es)
    ensures StoredIn(ks[1..], ks[1].m, 2, b) && !SameSpace(ks[|es| - 1].m, ks[|es|].m, 1)
  {
    ChildIsNext(k0, k1, frames);
    NextCode(k0, Call(DoFork(frames)), k1, PAG_LOG_INIT_CODE, 0);
    var ks1, es1 := StoreInTurn(k1, 2, b);
    ParentSees(k1.m, b, {1, 2});
    ks, es := RunFrom(k0, Call(DoFork(frames)), ks1, es1);
    LastStates(k0, ks1, ks);
    assert es[1..] == es1;
  }

  lemma LastStates(k: State, ks: seq<State>, ks': seq<State>)
    requires |ks| >= 2 && ks' == [k] + ks
    ensures ks'[1..] == ks && ks'[|ks'| - 1] == ks[|ks| - 1] && ks'[|ks'| - 2] == ks[|ks| - 2]
  {
  }
}
