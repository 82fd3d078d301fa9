/** The scheduler and the address spaces as one machine, and what holds over its runs. */
module Kernel {
  import opened Rings
  import opened Scheduling
  import opened Agreement
  import opened Steps
  import opened Runs
  import opened Boot
  import opened LiveProcesses
  import opened Frames
  import opened Paging
  import opened AddressSpaces

  /** `stacks` counts the stack pages that have been mapped since boot. */
  datatype State = State(s: Sched, m: Mem, stacks: nat)

  /** A kernel step, or a store by the running process to one of its user pages. */
  datatype Event = Call(step: Step) | Store(page: nat, o: nat, b: Byte)

  ghost predicate Good(k: State) {
    && Inv(k.s) && IdleApart(k.s)
    && Isolated(k.m, LiveSet(k.s)) && Conserved(k.m, LiveSet(k.s), k.stacks)
  }

  predicate Creates(s: Sched, step: Step) {
    step.DoCreate? && step.accessOk && s.Q(FreeThreads) != []
  }

  /** pthread_create does not look at what alloc_frame returns: there must be a frame. */
  ghost predicate Allowed(k: State, e: Event)
    requires Good(k)
  {
    match e
    case Call(step) => Guard(k.s, step) && (Creates(k.s, step) ==> FreeFrames(k.m.used) != {})
    case Store(page, o, _) => PAG_LOG_INIT_CODE <= page && k.m.Maps(k.s.Proc(), page) && o < PAGE_SIZE
  }

  ghost predicate Next(k: State, e: Event, k': State)
    requires Good(k) && Allowed(k, e)
  {
    match e
    case Store(page, o, b) => k' == k.(m := Stored(k.m, k.s.Proc(), page, o, b))
    case Call(step) => k'.s == Apply(k.s, step) && MemoryStep(k, step, k')
  }

  /** What the step does to frames and tables. */
  ghost predicate MemoryStep(k: State, step: Step, k': State)
    requires Good(k)
  {
    if step.DoFork? && CanFork(k.s) then ForkStep(k, step.frames, k')
    else if Creates(k.s, step) then
      k'.stacks == k.stacks + 1 && exists page, f :: StackMapped(k.m, k'.m, k.s.Proc(), page, f)
    else if step.DoExit? then
      k'.stacks == k.stacks && DataFreed(k.m, k'.m, k.s.Proc())
    else
      k'.stacks == k.stacks && k'.m == k.m
  }

  ghost predicate ForkStep(k: State, frames: bool, k': State)
    requires Good(k) && CanFork(k.s)
  {
    TakenWellFormed(k.s);
    var c := FirstTask(k.s, FreeTasks);
    && k'.stacks == k.stacks
    && (frames <==> |FreeFrames(k.m.used)| >= NUM_PAG_DATA)
    && if frames then Forked(k.m, k'.m, k.s.Proc(), c) else RolledBack(k.m, k'.m, c)
  }

  // ------------------------------------------------------------------ every step keeps it

  lemma ForkGood(k: State, frames: bool, k': State)
    requires Good(k) && CanFork(k.s) && ForkStep(k, frames, k') && k'.s == Fork(k.s, frames).0
    ensures Good(k')
  {
    TakenWellFormed(k.s);
    ForkInv(k.s, frames);
    RunningIsLive(k.s);
    ForkAddsProcess(k.s);
    var c, live := FirstTask(k.s, FreeTasks), LiveSet(k.s);
    if frames {
      ForkIsolated(k.m, k'.m, k.s.Proc(), c, live);
      ForkConserves(k.m, k'.m, k.s.Proc(), c, live, k.stacks);
    } else {
      ForkFailedKeepsProcs(k.s);
      KeptLiveSet(k.s, k'.s);
      RollbackIsExact(k.m, k'.m, c, live);
    }
  }

  lemma CreateGood(k: State, step: Step, k': State)
    requires Good(k) && Creates(k.s, step) && FreeFrames(k.m.used) != {}
    requires Next(k, Call(step), k')
    ensures Good(k')
  {
    ApplyInv(k.s, step);
    StepKeepsProcs(k.s, step);
    KeptLiveSet(k.s, k'.s);
    var page, f :| StackMapped(k.m, k'.m, k.s.Proc(), page, f);
    StackIsolated(k.m, k'.m, k.s.Proc(), page, f, LiveSet(k.s));
    StackConserves(k.m, k'.m, k.s.Proc(), page, f, LiveSet(k.s), k.stacks);
  }

  lemma ExitGood(k: State, k': State)
    requires Good(k) && ExitGuard(k.s) && k'.s == Exit(k.s)
    requires k'.stacks == k.stacks && DataFreed(k.m, k'.m, k.s.Proc())
    ensures Good(k')
  {
    ExitDispatches(k.s);
    RunningIsLive(k.s);
    ExitRemovesProcess(k.s);
    ExitIsolated(k.m, k'.m, k.s.Proc(), LiveSet(k.s));
    ExitConserves(k.m, k'.m, k.s.Proc(), LiveSet(k.s), k.stacks);
  }

  lemma QuietGood(k: State, step: Step, k': State)
    requires Good(k) && Guard(k.s, step) && k'.s == Apply(k.s, step) && k'.m == k.m && k'.stacks == k.stacks
    requires !step.DoExit? && (step.DoFork? ==> !CanFork(k.s))
    ensures Good(k')
  {
    ApplyInv(k.s, step);
    if !step.DoFork? {
      StepKeepsProcs(k.s, step);
      KeptLiveSet(k.s, k'.s);
    }
  }

  lemma NextGood(k: State, e: Event, k': State)
    requires Good(k) && Allowed(k, e) && Next(k, e, k')
    ensures Good(k')
  {
    match e
    case Store(page, o, b) =>
      StoreIsolated(k.m, k.s.Proc(), page, o, b, LiveSet(k.s));
    case Call(step) =>
      if step.DoFork? && CanFork(k.s) {
        ForkGood(k, step.frames, k');
      } else if Creates(k.s, step) {
        CreateGood(k, step, k');
      } else if step.DoExit? {
        ExitGood(k, k');
      } else {
        QuietGood(k, step, k');
      }
  }

  // ------------------------------------------------------------------ runs

  ghost predicate BootedKernel(k: State) {
    Booted(k.s) && BootPages(k.m) && k.stacks == 0
  }

  lemma BootGood(k: State)
    requires BootedKernel(k)
    ensures Good(k)
  {
    BootInv(k.s);
    BootLive(k.s);
    BootIsolated(k.m);
    BootConserves(k.m);
  }

  /** `ks` are the states that the events lead through. */
  ghost predicate Run(ks: seq<State>, es: seq<Event>)
    requires |ks| == |es| + 1 && Good(ks[0])
    decreases |es|
  {
    es == [] || (
      && Allowed(ks[0], es[0]) && Next(ks[0], es[0], ks[1])
      && (NextGood(ks[0], es[0], ks[1]); Run(ks[1..], es[1..])))
  }

  lemma {:induction false} RunGood(ks: seq<State>, es: seq<Event>, i: nat)
    requires |ks| == |es| + 1 && Good(ks[0]) && Run(ks, es) && i < |ks|
    ensures Good(ks[i])
    decreases i
  {
    if i > 0 {
      RunTail(ks, es);
      RunGood(ks[1..], es[1..], i - 1);
    }
  }

  /** The queues agree with the structs, the address spaces are apart, and the frames in use
      are those accounted for: in every state that the kernel reaches from boot. */
  lemma KernelInvariant(ks: seq<State>, es: seq<Event>, i: nat)
    requires |ks| == |es| + 1 && BootedKernel(ks[0]) && i < |ks|
    ensures Good(ks[0]) && (Run(ks, es) ==> Good(ks[i]))
  {
    BootGood(ks[0]);
    if Run(ks, es) {
      RunGood(ks, es, i);
    }
  }

  /** A step of another process leaves a live process alive, and everything it reads but
      perhaps its code. */
  lemma NextLeavesOthers(k: State, e: Event, k': State, q: nat)
    requires Good(k) && Allowed(k, e) && Next(k, e, k') && q in LiveSet(k.s) && q != k.s.Proc()
    ensures q in LiveSet(k'.s) && SameButCode(k.m, k'.m, q)
  {
    match e
    case Store(page, o, b) =>
      StoreButCode(k, page, o, b, q);
    case Call(step) =>
      if step.DoFork? && CanFork(k.s) {
        ForkLeavesLive(k, step.frames, k', q);
      } else {
        StepLeavesLive(k.s, step, q);
        PagesOfOthers(k, step, k', q);
      }
  }

  lemma StoreButCode(k: State, page: nat, o: nat, b: Byte, q: nat)
    requires Good(k) && Allowed(k, Store(page, o, b)) && q in LiveSet(k.s) && q != k.s.Proc()
    ensures SameButCode(k.m, Stored(k.m, k.s.Proc(), page, o, b), q)
  {
    RunningIsLive(k.s);
    if IsCode(page) {
      StoreLeavesButCode(k.m, k.s.Proc(), page, o, b, q, LiveSet(k.s));
    } else {
      StoreLeavesOthers(k.m, k.s.Proc(), page, o, b, q, LiveSet(k.s));
    }
  }

  lemma PagesOfOthers(k: State, step: Step, k': State, q: nat)
    requires Good(k) && MemoryStep(k, step, k') && (step.DoFork? ==> !CanFork(k.s))
    requires q < NR_TASKS && q != k.s.Proc()
    ensures SameSpace(k.m, k'.m, q)
  {
    if Creates(k.s, step) {
      var page, f :| StackMapped(k.m, k'.m, k.s.Proc(), page, f);
      StackLeavesOthers(k.m, k'.m, k.s.Proc(), page, f, q);
    } else if step.DoExit? {
      ExitLeavesOthers(k.m, k'.m, k.s.Proc(), q);
    }
  }

  lemma StepLeavesLive(s: Sched, step: Step, q: nat)
    requires Inv(s) && IdleApart(s) && Guard(s, step) && (step.DoFork? ==> !CanFork(s))
    requires q in LiveSet(s) && q != s.Proc()
    ensures q in LiveSet(Apply(s, step))
  {
    if step.DoExit? {
      ExitRemovesProcess(s);
    } else if !step.DoFork? {
      StepKeepsProcs(s, step);
      KeptLiveSet(s, Apply(s, step));
    }
  }

  lemma ForkLeavesLive(k: State, frames: bool, k': State, q: nat)
    requires Good(k) && CanFork(k.s) && ForkStep(k, frames, k') && k'.s == Fork(k.s, frames).0
    requires q in LiveSet(k.s) && q != k.s.Proc()
    ensures q in LiveSet(k'.s) && SameSpace(k.m, k'.m, q)
  {
    TakenWellFormed(k.s);
    RunningIsLive(k.s);
    ForkAddsProcess(k.s);
    var c := FirstTask(k.s, FreeTasks);
    if frames {
      ForkLeavesOthers(k.m, k'.m, k.s.Proc(), c, q, LiveSet(k.s));
    } else {
      ForkFailedKeepsProcs(k.s);
      KeptLiveSet(k.s, k'.s);
      RollbackIsExact(k.m, k'.m, c, LiveSet(k.s));
    }
  }

  // ------------------------------------------------------------------ shared code

  /** What the last of the events that stores to that byte of a code page leaves there, or
      `b` if none does. */
  function CodeAfter(es: seq<Event>, page: nat, o: nat, b: Byte): Byte {
    if es == [] then b else CodeAfter(es[1..], page, o, CodeAfterOne(es[0], page, o, b))
  }

  function CodeAfterOne(e: Event, page: nat, o: nat, b: Byte): Byte {
    if e.Store? && e.page == page && e.o == o then e.b else b
  }

  lemma NextCode(k: State, e: Event, k': State, page: nat, o: nat)
    requires Good(k) && Allowed(k, e) && Next(k, e, k') && IsCode(page) && o < PAGE_SIZE
    ensures k'.m.Sized() && CodeByte(k'.m, page, o) == CodeAfterOne(e, page, o, CodeByte(k.m, page, o))
  {
    NextGood(k, e, k');
    match e
    case Store(p, i, b) =>
      RunningIsLive(k.s);
      StoreToCode(k.m, k.s.Proc(), p, i, b, page, o, LiveSet(k.s));
    case Call(step) =>
      if step.DoFork? && CanFork(k.s) {
        ForkKeepsCode(k, step.frames, k', page, o);
      }
  }

  lemma ForkKeepsCode(k: State, frames: bool, k': State, page: nat, o: nat)
    requires Good(k) && CanFork(k.s) && ForkStep(k, frames, k') && IsCode(page) && o < PAGE_SIZE
    ensures k'.m.Sized() && CodeByte(k'.m, page, o) == CodeByte(k.m, page, o)
  {
    if frames {
      ForkAddsProcess(k.s);
      ForkLeavesCode(k.m, k'.m, k.s.Proc(), FirstTask(k.s, FreeTasks), LiveSet(k.s), page, o);
    }
  }

  /** All live processes have one code between them, and nothing but stores to it change it:
      over every run each byte is what the last store to it by anyone has left. */
  lemma {:induction false} CodeIsShared(ks: seq<State>, es: seq<Event>, page: nat, o: nat)
    requires |ks| == |es| + 1 && Good(ks[0]) && Run(ks, es) && IsCode(page) && o < PAGE_SIZE
    ensures ks[|es|].m.Sized() && CodeByte(ks[|es|].m, page, o) == CodeAfter(es, page, o, CodeByte(ks[0].m, page, o))
    decreases |es|
  {
    if es != [] {
      RunTail(ks, es);
      NextCode(ks[0], es[0], ks[1], page, o);
      CodeIsShared(ks[1..], es[1..], page, o);
    }
  }

  /** The last store to each byte of code that there was one to has put back what was there:
      so too if there was none. */
  ghost predicate CodeRestored(m: Mem, es: seq<Event>)
    requires m.Sized()
  {
    forall page: nat, o: nat | IsCode(page) && o < PAGE_SIZE ::
      CodeAfter(es, page, o, CodeByte(m, page, o)) == CodeByte(m, page, o)
  }

  predicate StoresToCode(e: Event) {
    e.Store? && IsCode(e.page)
  }

  lemma {:induction false} NoStoreNoChange(es: seq<Event>, page: nat, o: nat, b: Byte)
    requires IsCode(page) && forall i | 0 <= i < |es| :: !StoresToCode(es[i])
    ensures CodeAfter(es, page, o, b) == b
  {
    if es != [] {
      assert !StoresToCode(es[0]);
      assert forall i | 0 <= i < |es[1..]| :: es[1..][i] == es[i + 1];
      NoStoreNoChange(es[1..], page, o, b);
    }
  }

  /** As long as a process does not run, nothing that others do changes what it reads from
      its data and stack pages or where its pages are, and its code is as it was if and only
      if every byte stored to there has been put back. */
  lemma RestingSpace(ks: seq<State>, es: seq<Event>, q: nat)
    requires |ks| == |es| + 1 && Good(ks[0]) && Run(ks, es) && q in LiveSet(ks[0].s)
    requires forall i | 0 <= i < |es| :: ks[i].s.Sized() && ks[i].s.Proc() != q
    ensures q in LiveSet(ks[|es|].s) && SameButCode(ks[0].m, ks[|es|].m, q)
    ensures SameSpace(ks[0].m, ks[|es|].m, q) <==> CodeRestored(ks[0].m, es)
    ensures (forall i | 0 <= i < |es| :: !StoresToCode(es[i])) ==> SameSpace(ks[0].m, ks[|es|].m, q)
  {
    RestingButCode(ks, es, q);
    SameSpaceIff(ks[0].m, ks[|es|].m, LiveSet(ks[0].s), q);
    forall page: nat, o: nat | IsCode(page) && o < PAGE_SIZE
      ensures CodeByte(ks[|es|].m, page, o) == CodeAfter(es, page, o, CodeByte(ks[0].m, page, o))
    {
      CodeIsShared(ks, es, page, o);
    }
    NoStoresRestored(ks[0].m, es);
  }

  lemma NoStoresRestored(m: Mem, es: seq<Event>)
    requires m.Sized()
    ensures (forall i | 0 <= i < |es| :: !StoresToCode(es[i])) ==> CodeRestored(m, es)
  {
    forall page: nat, o: nat | (forall i | 0 <= i < |es| :: !StoresToCode(es[i])) && IsCode(page) && o < PAGE_SIZE
      ensures CodeAfter(es, page, o, CodeByte(m, page, o)) == CodeByte(m, page, o)
    {
      NoStoreNoChange(es, page, o, CodeByte(m, page, o));
    }
  }

  lemma {:induction false} RestingButCode(ks: seq<State>, es: seq<Event>, q: nat)
    requires |ks| == |es| + 1 && Good(ks[0]) && Run(ks, es) && q in LiveSet(ks[0].s)
    requires forall i | 0 <= i < |es| :: ks[i].s.Sized() && ks[i].s.Proc() != q
    ensures q in LiveSet(ks[|es|].s) && SameButCode(ks[0].m, ks[|es|].m, q)
    decreases |es|
  {
    if es != [] {
      RunTail(ks, es);
      NextLeavesOthers(ks[0], es[0], ks[1], q);
      assert forall i | 0 <= i < |es| - 1 :: ks[1..][i] == ks[i + 1];
      RestingButCode(ks[1..], es[1..], q);
      SameInSteps(ks[0].m, ks[1].m, ks[|es|].m, q);
    }
  }

  lemma SameInSteps(m: Mem, m1: Mem, m2: Mem, q: nat)
    requires SameButCode(m, m1, q) && SameButCode(m1, m2, q)
    ensures SameButCode(m, m2, q)
  {
    forall page: nat, o: nat | page < TOTAL_PAGES && !IsCode(page) && o < PAGE_SIZE && m.Maps(q, page)
      ensures m2.Load(q, page, o) == m.Load(q, page, o)
    {
      assert m1.Maps(q, page) && m1.Load(q, page, o) == m.Load(q, page, o);
    }
  }

  /** A child starts with its parent's data as it was at the fork, however long it waits and
      whatever the parent and others do until then; and with its code under the same
      condition as above. */
  lemma ChildStartsAsParentWas(ks: seq<State>, es: seq<Event>, c: nat)
    requires |ks| == |es| + 1 && es != [] && Good(ks[0]) && Run(ks, es)
    requires es[0] == Call(DoFork(true)) && CanFork(ks[0].s) && HeadTask(ks[0].s, FreeTasks) && c == FirstTask(ks[0].s, FreeTasks)
    requires forall i | 1 <= i < |es| :: ks[i].s.Sized() && ks[i].s.Proc() != c
    ensures DataDuplicated(ks[0].m, ks[|es|].m, ks[0].s.Proc(), c)
    ensures Duplicated(ks[0].m, ks[|es|].m, ks[0].s.Proc(), c) <==> CodeRestored(ks[0].m, es)
    ensures (forall i | 0 <= i < |es| :: !StoresToCode(es[i])) ==> Duplicated(ks[0].m, ks[|es|].m, ks[0].s.Proc(), c)
  {
    RunTail(ks, es);
    RunningIsLive(ks[0].s);
    ForkStepOf(ks[0], true, ks[1]);
    ForkedChild(ks[0], ks[1], c);
    ChildRests(ks, es, c);
    DataStays(ks[0].m, ks[1].m, ks[|es|].m, ks[0].s.Proc(), c);
    CodeDuplicatedIff(ks, es, c);
    NoStoresRestored(ks[0].m, es);
  }

  /** The child reads, in every data page, what the parent did. */
  ghost predicate DataDuplicated(m: Mem, m': Mem, p: nat, c: nat) {
    m.Sized() && m'.Sized() && forall page: nat | PAG_LOG_INIT_DATA <= page < PAG_STACKS :: SamePage(m, m', p, c, page)
  }

  lemma CodeDuplicatedIff(ks: seq<State>, es: seq<Event>, c: nat)
    requires |ks| == |es| + 1 && Good(ks[0]) && Run(ks, es)
    requires ks[0].s.Proc() in LiveSet(ks[0].s) && c in LiveSet(ks[|es|].s)
    requires DataDuplicated(ks[0].m, ks[|es|].m, ks[0].s.Proc(), c)
    ensures Duplicated(ks[0].m, ks[|es|].m, ks[0].s.Proc(), c) <==> CodeRestored(ks[0].m, es)
  {
    RunGood(ks, es, |es|);
    forall page: nat | IsCode(page)
      ensures SamePage(ks[0].m, ks[|es|].m, ks[0].s.Proc(), c, page) <==> CodePageRestored(ks[0].m, es, page)
    {
      SameCodePageIff(ks, es, c, page);
    }
    PagesTogether(ks[0].m, ks[|es|].m, ks[0].s.Proc(), c, es);
  }

  ghost predicate CodePageRestored(m: Mem, es: seq<Event>, page: nat)
    requires m.Sized() && IsCode(page)
  {
    forall o: nat | o < PAGE_SIZE :: CodeAfter(es, page, o, CodeByte(m, page, o)) == CodeByte(m, page, o)
  }

  lemma SameCodePageIff(ks: seq<State>, es: seq<Event>, c: nat, page: nat)
    requires |ks| == |es| + 1 && Good(ks[0]) && Run(ks, es) && Good(ks[|es|]) && IsCode(page)
    requires ks[0].s.Proc() in LiveSet(ks[0].s) && c in LiveSet(ks[|es|].s)
    ensures SamePage(ks[0].m, ks[|es|].m, ks[0].s.Proc(), c, page) <==> CodePageRestored(ks[0].m, es, page)
  {
    var m, m', p := ks[0].m, ks[|es|].m, ks[0].s.Proc();
    ReadsCode(m, LiveSet(ks[0].s), p, page, 0);
    ReadsCode(m', LiveSet(ks[|es|].s), c, page, 0);
    forall o: nat | o < PAGE_SIZE
      ensures m'.Load(c, page, o) == m.Load(p, page, o) <==> CodeAfter(es, page, o, CodeByte(m, page, o)) == CodeByte(m, page, o)
    {
      ReadsCode(m, LiveSet(ks[0].s), p, page, o);
      ReadsCode(m', LiveSet(ks[|es|].s), c, page, o);
      CodeIsShared(ks, es, page, o);
    }
  }

  lemma PagesTogether(m: Mem, m': Mem, p: nat, c: nat, es: seq<Event>)
    requires DataDuplicated(m, m', p, c)
    requires forall page: nat | IsCode(page) :: SamePage(m, m', p, c, page) <==> CodePageRestored(m, es, page)
    ensures Duplicated(m, m', p, c) <==> CodeRestored(m, es)
  {
    assert CodeRestored(m, es) <==> forall page: nat | IsCode(page) :: CodePageRestored(m, es, page);
    assert Duplicated(m, m', p, c) <==> forall page: nat | IsCode(page) :: SamePage(m, m', p, c, page);
  }

  lemma ForkStepOf(k: State, frames: bool, k': State)
    requires Good(k) && CanFork(k.s) && Allowed(k, Call(DoFork(frames))) && Next(k, Call(DoFork(frames)), k')
    ensures ForkStep(k, frames, k') && k'.s == Fork(k.s, frames).0
  {
    CallStep(k, DoFork(frames), k');
  }

  lemma CallStep(k: State, step: Step, k': State)
    requires Good(k) && Allowed(k, Call(step)) && Next(k, Call(step), k')
    ensures k'.s == Apply(k.s, step) && MemoryStep(k, step, k')
  {
  }

  lemma ChildRests(ks: seq<State>, es: seq<Event>, c: nat)
    requires |ks| == |es| + 1 && es != [] && Good(ks[1]) && Run(ks[1..], es[1..]) && c in LiveSet(ks[1].s)
    requires forall i | 1 <= i < |es| :: ks[i].s.Sized() && ks[i].s.Proc() != c
    ensures c in LiveSet(ks[|es|].s) && SameButCode(ks[1].m, ks[|es|].m, c)
  {
    assert forall i | 0 <= i < |es| - 1 :: ks[1..][i] == ks[i + 1];
    RestingButCode(ks[1..], es[1..], c);
  }

  lemma RunTail(ks: seq<State>, es: seq<Event>)
    requires |ks| == |es| + 1 && es != [] && Good(ks[0]) && Run(ks, es)
    ensures Allowed(ks[0], es[0]) && Next(ks[0], es[0], ks[1]) && Good(ks[1]) && Run(ks[1..], es[1..])
  {
    NextGood(ks[0], es[0], ks[1]);
  }

  lemma EmptyRun(k: State) returns (ks: seq<State>, es: seq<Event>)
    requires Good(k)
    ensures ks == [k] && es == [] && Run(ks, es)
  {
    ks, es := [k], [];
  }

  /** One more event before a run. */
  lemma RunFrom(k: State, e: Event, ks: seq<State>, es: seq<Event>) returns (ks': seq<State>, es': seq<Event>)
    requires Good(k) && Allowed(k, e) && |ks| == |es| + 1 && Next(k, e, ks[0])
    requires Good(ks[0]) && Run(ks, es)
    ensures ks' == [k] + ks && es' == [e] + es && Run(ks', es')
  {
    ks', es' := [k] + ks, [e] + es;
    assert ks'[1..] == ks && es'[1..] == es;
  }

  lemma ForkedChild(k: State, k': State, c: nat)
    requires Good(k) && CanFork(k.s) && HeadTask(k.s, FreeTasks) && c == FirstTask(k.s, FreeTasks)
    requires ForkStep(k, true, k') && k'.s == Fork(k.s, true).0
    ensures c in LiveSet(k'.s) && Duplicated(k.m, k'.m, k.s.Proc(), c)
  {
    RunningIsLive(k.s);
    ForkAddsProcess(k.s);
    ForkDuplicates(k.m, k'.m, k.s.Proc(), c, LiveSet(k.s));
  }

  lemma DataStays(m: Mem, m1: Mem, m2: Mem, p: nat, c: nat)
    requires Duplicated(m, m1, p, c) && SameButCode(m1, m2, c)
    ensures DataDuplicated(m, m2, p, c)
  {
    forall page: nat | PAG_LOG_INIT_DATA <= page < PAG_STACKS
      ensures SamePage(m, m2, p, c, page)
    {
      assert SamePage(m, m1, p, c, page);
    }
  }

  /** With free structs at hand, a fork fails exactly when the live processes and the stack
      pages mapped so far leave no room for twenty frames more. */
  lemma ForkFailsIff(k: State, frames: bool, k': State)
    requires Good(k) && CanFork(k.s) && ForkStep(k, frames, k')
    ensures !frames <==> NUM_PAG_DATA * (|LiveSet(k.s)| + 1) + k.stacks > 376
    ensures !frames ==> k'.m == k.m
  {
    RoomForFork(k.m, LiveSet(k.s), k.stacks);
    TakenWellFormed(k.s);
    ForkAddsProcess(k.s);
    if !frames {
      RollbackIsExact(k.m, k'.m, FirstTask(k.s, FreeTasks), LiveSet(k.s));
    }
  }

  /** And then it has changed nothing but two queues: the task struct has gone from the head
      of freequeue to its tail, and the thread struct is lost. */
  lemma FailedForkLeaves(k: State, k': State)
    requires Good(k) && CanFork(k.s) && Next(k, Call(DoFork(false)), k')
    ensures k'.m == k.m && k'.stacks == k.stacks
    ensures k'.s.Q(FreeTasks) == k.s.Q(FreeTasks)[1..] + [k.s.Q(FreeTasks)[0]]
    ensures k'.s.Q(FreeThreads) == k.s.Q(FreeThreads)[1..] && !k'.s.Linked(k.s.Q(FreeThreads)[0])
    ensures forall q | q != FreeTasks && q != FreeThreads :: k'.s.Q(q) == k.s.Q(q)
    ensures k'.s.tasks == k.s.tasks && k'.s.current == k.s.current && k'.s.lastPid == k.s.lastPid
  {
    ForkFailsIff(k, false, k');
    FailedForkQueues(k.s);
  }

  lemma FailedForkQueues(s: Sched)
    requires Inv(s) && CanFork(s)
    ensures var s' := Fork(s, false).0;
            && s'.Q(FreeTasks) == s.Q(FreeTasks)[1..] + [s.Q(FreeTasks)[0]]
            && s'.Q(FreeThreads) == s.Q(FreeThreads)[1..] && !s'.Linked(s.Q(FreeThreads)[0])
            && (forall q | q != FreeTasks && q != FreeThreads :: s'.Q(q) == s.Q(q))
            && s'.tasks == s.tasks && s'.current == s.current && s'.lastPid == s.lastPid
  {
    ForkCases(s, false);
  }
}
