/** The scheduler's runs and the stack machine's behaviours together: whom the scheduler
    dispatches, and whether that thread resumes. */
module Interleaving {
  import opened Options
  import opened Rings
  import opened Scheduling
  import opened Agreement
  import opened Steps
  import opened Runs
  import opened Boot
  import opened Reachable
  import opened Identities
  import opened Dispatches
  import opened Machine
  import opened Contexts

  /** What a step is to the machine, once the running thread has got as far as the call. A
      fork that runs out of frames has already copied its caller's union. */
  ghost predicate ActsAs(s: Sched, step: Step, s': Sched, a: Action)
    requires s.Sized()
  {
    if CallsTaskSwitch(s, step) then a == SwitchTo(s'.current)
    else if AddsThread(s, step) then a.Fabricate? && IsFirstFree(s, a.child)
    else if step.DoFork? && CanFork(s) then a.Spoil? && IsFirstFree(s, a.child)
    else a == Compute
  }

  predicate IsFirstFree(s: Sched, t: nat) {
    HeadThread(s, FreeThreads) && t == FirstThread(s, FreeThreads)
  }

  /** Every step is two actions: the running thread gets there, and the step's own. */
  ghost predicate Realises(ks: seq<Sched>, steps: seq<Step>, ms: seq<State>, acts: seq<Action>) {
    && Trace(ks, steps) && Behaviour(ms, acts) && |acts| == 2 * |steps|
    && (forall i | 0 <= i < |ks| :: RunsThread(ks[i], ms[2 * i]))
    && (forall i | 0 <= i < |steps| :: IsStep(ks[i], steps[i], ks[i + 1]) &&
          acts[2 * i] == Compute && ActsAs(ks[i], steps[i], ks[i + 1], acts[2 * i + 1]))
  }

  predicate RunsThread(s: Sched, m: State) {
    m.cur == s.current
  }

  predicate LoneAt(ks: seq<Sched>, steps: seq<Step>, i: int) {
    0 <= i < |ks| && i < |steps| && ks[i].Sized() && LoneYield(ks[i], steps[i])
  }

  predicate NoLoneYields(ks: seq<Sched>, steps: seq<Step>) {
    forall i | 0 <= i < |steps| :: !LoneAt(ks, steps, i)
  }

  // ------------------------------------------------------------------ one step

  /** Who can be dispatched after a step could be before, or is new. */
  ghost predicate MembersFrom(s: Sched, step: Step, s': Sched) {
    && s.Sized() && s'.Sized()
    && (AddsThread(s, step) ==> !CallsTaskSwitch(s, step) && HeadThread(s, FreeThreads))
    && (forall t: nat | Member(s', t) :: Member(s, t) || (AddsThread(s, step) && IsFirstFree(s, t)))
    && (forall t: nat | IsFirstFree(s, t) :: !Member(s, t))
    && (s'.current == s.current <==> !CallsTaskSwitch(s, step) || LoneYield(s, step))
  }

  lemma StepMembers(s: Sched, step: Step, s': Sched)
    requires IsStep(s, step, s')
    ensures MembersFrom(s, step, s')
  {
    DispatchesItselfIff(s, step);
    FirstFreeIsNoMember(s);
    if AddsThread(s, step) {
      AddedThread(s, step);
    } else {
      StepKeepsIds(s, step);
    }
  }

  lemma FirstFreeIsNoMember(s: Sched)
    requires Inv(s)
    ensures forall t: nat | IsFirstFree(s, t) :: !Member(s, t)
  {
  }

  /** Whoever can be dispatched after the step is owed a context, if that was so before. */
  lemma OwedStep(s: Sched, step: Step, s': Sched, m: State, a: Action, t: nat, owed: Option<Context>, owed': Option<Context>)
    requires MembersFrom(s, step, s') && ActsAs(s, step, s', a) && RunsThread(s, m)
    requires OwedAfter(m, a, t, owed, owed')
    requires Member(s, t) && t != s.current ==> owed.Some?
    ensures Member(s', t) && t != s'.current ==> owed'.Some?
  {
  }

  // ------------------------------------------------------------------ over runs

  /** Everyone who can be dispatched next has been left, or prepared, before. */
  ghost predicate AllOwed(s: Sched, ms: seq<State>, acts: seq<Action>, n: nat)
    requires Behaviour(ms, acts) && n <= |acts|
  {
    forall t: nat | Member(s, t) && t != s.current :: LastLeft(ms, acts, n, t).Some?
  }

  lemma ComputeKeeps(ms: seq<State>, acts: seq<Action>, n: nat)
    requires Behaviour(ms, acts) && n < |acts| && acts[n] == Compute
    ensures ms[n + 1].cur == ms[n].cur
    ensures forall t: nat :: LastLeft(ms, acts, n + 1, t) == LastLeft(ms, acts, n, t)
  {
    assert Next(ms[n], acts[n], ms[n + 1]);
  }

  lemma AllOwedStep(ks: seq<Sched>, steps: seq<Step>, ms: seq<State>, acts: seq<Action>, i: nat)
    requires Realises(ks, steps, ms, acts) && i < |steps| && AllOwed(ks[i], ms, acts, 2 * i)
    ensures AllOwed(ks[i + 1], ms, acts, 2 * i + 2)
  {
    var s, s', n := ks[i], ks[i + 1], 2 * i + 1;
    assert IsStep(s, steps[i], s') && RunsThread(s, ms[2 * i]);
    StepMembers(s, steps[i], s');
    ComputeKeeps(ms, acts, 2 * i);
    forall t: nat | Member(s', t) && t != s'.current
      ensures LastLeft(ms, acts, n + 1, t).Some?
    {
      LastLeftStep(ms, acts, n, t);
      OwedStep(s, steps[i], s', ms[n], acts[n], t, LastLeft(ms, acts, n, t), LastLeft(ms, acts, n + 1, t));
    }
  }

  lemma AllOwedOverRun(ks: seq<Sched>, steps: seq<Step>, ms: seq<State>, acts: seq<Action>, i: nat)
    requires Realises(ks, steps, ms, acts) && Booted(ks[0]) && i <= |steps|
    ensures AllOwed(ks[i], ms, acts, 2 * i)
  {
    BootOwed(ks[0], ms, acts);
    forall j: nat | j < |steps|
      ensures OwedNext(ks, ms, acts, j)
    {
      if AllOwed(ks[j], ms, acts, 2 * j) {
        AllOwedStep(ks, steps, ms, acts, j);
      }
    }
    OwedThroughout(ks, ms, acts, i);
  }

  lemma BootOwed(s: Sched, ms: seq<State>, acts: seq<Action>)
    requires Booted(s) && Behaviour(ms, acts)
    ensures AllOwed(s, ms, acts, 0)
  {
    BootMembers(s);
  }

  ghost predicate OwedNext(ks: seq<Sched>, ms: seq<State>, acts: seq<Action>, j: nat)
    requires Behaviour(ms, acts)
  {
    j + 1 < |ks| && 2 * j + 2 <= |acts| && (AllOwed(ks[j], ms, acts, 2 * j) ==> AllOwed(ks[j + 1], ms, acts, 2 * j + 2))
  }

  lemma {:induction false} OwedThroughout(ks: seq<Sched>, ms: seq<State>, acts: seq<Action>, i: nat)
    requires Behaviour(ms, acts) && i < |ks| && 2 * i <= |acts| && AllOwed(ks[0], ms, acts, 0)
    requires forall j: nat | j < i :: OwedNext(ks, ms, acts, j)
    ensures AllOwed(ks[i], ms, acts, 2 * i)
  {
    if i > 0 {
      OwedThroughout(ks, ms, acts, i - 1);
      assert OwedNext(ks, ms, acts, i - 1);
    }
  }

  /** What step i's own action can be: unless it is a lone yield's, a switch is to a thread
      that is owed a context. */
  ghost predicate PicksOwed(ks: seq<Sched>, steps: seq<Step>, ms: seq<State>, acts: seq<Action>, i: nat)
    requires Behaviour(ms, acts)
  {
    && 2 * i + 1 < |acts| && acts[2 * i] == Compute
    && (LoneAt(ks, steps, i) ==> acts[2 * i + 1] == SwitchTo(ms[2 * i + 1].cur))
    && (acts[2 * i + 1].SwitchTo? && !LoneAt(ks, steps, i) ==>
          && acts[2 * i + 1].next != ms[2 * i + 1].cur
          && LastLeft(ms, acts, 2 * i + 1, acts[2 * i + 1].next).Some?)
  }

  lemma StepPicks(ks: seq<Sched>, steps: seq<Step>, ms: seq<State>, acts: seq<Action>, i: nat)
    requires Realises(ks, steps, ms, acts) && i < |steps| && AllOwed(ks[i], ms, acts, 2 * i)
    ensures PicksOwed(ks, steps, ms, acts, i)
  {
    var s, s' := ks[i], ks[i + 1];
    assert IsStep(s, steps[i], s') && RunsThread(s, ms[2 * i]);
    ComputeKeeps(ms, acts, 2 * i);
    StepMembers(s, steps[i], s');
    assert Member(s', s'.current);
  }

  /** The condition of the round trip, in the scheduler's terms: the switches of a run from
      boot are all into threads that were left or prepared before, and so resume, if and
      only if nobody yields while alone. */
  lemma SwitchesAreIntoIff(ks: seq<Sched>, steps: seq<Step>, ms: seq<State>, acts: seq<Action>)
    requires Realises(ks, steps, ms, acts) && Booted(ks[0])
    ensures SwitchesAreInto(ms, acts) <==> NoLoneYields(ks, steps)
  {
    forall i: nat | i < |steps|
      ensures PicksOwed(ks, steps, ms, acts, i)
    {
      AllOwedOverRun(ks, steps, ms, acts, i);
      StepPicks(ks, steps, ms, acts, i);
    }
    IntoIff(ks, steps, ms, acts);
  }

  lemma IntoIff(ks: seq<Sched>, steps: seq<Step>, ms: seq<State>, acts: seq<Action>)
    requires Behaviour(ms, acts) && |acts| == 2 * |steps|
    requires forall i: nat | i < |steps| :: PicksOwed(ks, steps, ms, acts, i)
    ensures SwitchesAreInto(ms, acts) <==> NoLoneYields(ks, steps)
  {
    forall i | SwitchesAreInto(ms, acts) && 0 <= i < |steps|
      ensures !LoneAt(ks, steps, i)
    {
      assert PicksOwed(ks, steps, ms, acts, i);
    }
    forall j | NoLoneYields(ks, steps) && 0 <= j < |acts| && acts[j].SwitchTo?
      ensures acts[j].next != ms[j].cur && LastLeft(ms, acts, j, acts[j].next).Some?
    {
      var i := j / 2;
      assert PicksOwed(ks, steps, ms, acts, i) && !LoneAt(ks, steps, i);
      assert j == 2 * i || j == 2 * i + 1;
    }
  }

  /** Step i calls task_switch. */
  predicate SwitchesAt(ks: seq<Sched>, steps: seq<Step>, i: int) {
    0 <= i < |ks| && i < |steps| && ks[i].Sized() && CallsTaskSwitch(ks[i], steps[i])
  }

  /** Over every run from boot without lone yields, every thread the scheduler dispatches
      resumes the context it was last left in. */
  lemma DispatchedResumes(ks: seq<Sched>, steps: seq<Step>, ms: seq<State>, acts: seq<Action>, i: nat)
    requires Realises(ks, steps, ms, acts) && Booted(ks[0]) && NoLoneYields(ks, steps) && SwitchesAt(ks, steps, i)
    ensures LastLeft(ms, acts, 2 * i + 1, ks[i + 1].current).Some?
    ensures Resumed(ms[2 * i + 2], ks[i + 1].current, LastLeft(ms, acts, 2 * i + 1, ks[i + 1].current).value)
  {
    SwitchesAreIntoIff(ks, steps, ms, acts);
    SwitchAction(ks, steps, ms, acts, i);
    RoundTrip(ms, acts, 2 * i + 1);
  }

  lemma SwitchAction(ks: seq<Sched>, steps: seq<Step>, ms: seq<State>, acts: seq<Action>, i: nat)
    requires Realises(ks, steps, ms, acts) && SwitchesAt(ks, steps, i)
    ensures acts[2 * i + 1] == SwitchTo(ks[i + 1].current) && ms[2 * i + 1].cur == ks[i].current
  {
    assert IsStep(ks[i], steps[i], ks[i + 1]) && RunsThread(ks[i], ms[2 * i]);
    ComputeKeeps(ms, acts, 2 * i);
  }

  /** And a lone yield comes back to its caller exactly when the frame that register_esp
      happens to name fits. */
  lemma LoneYieldResumesIff(ks: seq<Sched>, steps: seq<Step>, ms: seq<State>, acts: seq<Action>, i: nat)
      returns (b: int, si: int, d: int)
    requires Realises(ks, steps, ms, acts) && LoneAt(ks, steps, i)
    requires var m := ms[2 * i + 1]; Top(m.cur) <= |m.mem| && Readable(m.mem, m.mem[Base(m.cur) + ESP_SLOT], 8)
    ensures var m, m' := ms[2 * i + 1], ms[2 * i + 2];
            && SelfSwitched(m, m', b, si, d)
            && (Resumed(m', m.cur, CallContext(m)) <==> StaleFrameFits(m, b, si, d))
  {
    var m, m' := ms[2 * i + 1], ms[2 * i + 2];
    LoneYieldIsSelfSwitch(ks, steps, ms, acts, i);
    b, si, d := SelfSwitchStep(m, m');
    SelfSwitchIff(m, m', b, si, d);
  }

  lemma LoneYieldIsSelfSwitch(ks: seq<Sched>, steps: seq<Step>, ms: seq<State>, acts: seq<Action>, i: nat)
    requires Realises(ks, steps, ms, acts) && LoneAt(ks, steps, i)
    ensures Next(ms[2 * i + 1], SwitchTo(ms[2 * i + 1].cur), ms[2 * i + 2])
  {
    SwitchAction(ks, steps, ms, acts, i);
    assert IsStep(ks[i], steps[i], ks[i + 1]);
    DispatchesItselfIff(ks[i], steps[i]);
    assert Next(ms[2 * i + 1], acts[2 * i + 1], ms[2 * i + 2]);
  }

  lemma SelfSwitchStep(m: State, m': State) returns (b: int, si: int, d: int)
    requires Next(m, SwitchTo(m.cur), m') && Top(m.cur) <= |m.mem|
    requires Readable(m.mem, m.mem[Base(m.cur) + ESP_SLOT], 8)
    ensures SelfSwitched(m, m', b, si, d)
  {
    b, si, d :| SelfSwitched(m, m', b, si, d);
  }

  lemma BootMembers(s: Sched)
    requires Booted(s)
    ensures forall t: nat | Member(s, t) :: t == s.current
  {
    forall t: nat | Member(s, t)
      ensures t == s.current
    {
      assert t != 1 ==> s.Linked(Thread(t)) && s.rings.home[Thread(t)] == FreeQueueOf(Thread(t));
    }
  }

  /** The input: in a kernel just booted, whose memory is zero where nothing was stored, the
      first thread yields, and its call of task_switch is never returned to. */
  lemma BootYieldIsLost(ks: seq<Sched>, steps: seq<Step>, ms: seq<State>, acts: seq<Action>)
    requires Realises(ks, steps, ms, acts) && Booted(ks[0]) && steps != [] && steps[0] == DoYield
    requires Top(1) <= |ms[0].mem| && ms[0].mem[Base(1) + ESP_SLOT] == 0
    ensures ms[1].cur == 1 && Room(|ms[1].mem|, 1, ms[1].regs.esp, 0)
    ensures !Resumed(ms[2], 1, CallContext(ms[1]))
  {
    BootYield(ks[0]);
    assert RunsThread(ks[0], ms[2 * 0]) && acts[2 * 0] == Compute;
    assert Next(ms[0], acts[0], ms[1]);
    var b, si, d := LoneYieldResumesIff(ks, steps, ms, acts, 0);
    FirstSelfSwitchFails(ms[1], ms[2], b, si, d);
  }
}
