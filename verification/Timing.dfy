/** How long a process, and a thread, waits for the processor. */
module Timing {
  import opened Rings
  import opened Scheduling
  import opened Agreement
  import opened Steps
  import opened Runs
  import opened Switching

  // ------------------------------------------------------------------ processes

  function Quantum(s: Sched, n: Node): int {
    match n
    case Task(p) => if p < |s.tasks| then s.tasks[p].quantum else 0
    case Thread(t) => if t < |s.threads| then s.threads[t].quantum else 0
  }

  function Quanta(s: Sched, ns: seq<Node>): int {
    if ns == [] then 0 else Quantum(s, ns[0]) + Quanta(s, ns[1..])
  }

  /** Process `p` is at index `i` of readyqueue. */
  predicate Waits(s: Sched, i: nat, p: nat) {
    i < |s.Q(ReadyTasks)| && s.Q(ReadyTasks)[i] == Task(p)
  }

  /** The ticks left to the running process and to those ahead of index `i`. */
  function Wait(s: Sched, i: nat): int
    requires i <= |s.Q(ReadyTasks)|
  {
    s.remP + Quanta(s, s.Q(ReadyTasks)[..i])
  }

  /** Members of readyqueue are distinct tasks with positive quanta, none of them running. */
  lemma ReadyMembers(s: Sched)
    requires Inv(s)
    ensures forall i | 0 <= i < |s.Q(ReadyTasks)| ::
              var n := s.Q(ReadyTasks)[i];
              n.Task? && n.p < NR_TASKS && n.p != s.Proc() && s.In(n, ReadyTasks) && Quantum(s, n) > 0
  {
    forall i | 0 <= i < |s.Q(ReadyTasks)|
      ensures var n := s.Q(ReadyTasks)[i];
              n.Task? && n.p < NR_TASKS && n.p != s.Proc() && s.In(n, ReadyTasks) && Quantum(s, n) > 0
    {
      QueuedAt(s, ReadyTasks, i);
    }
  }

  lemma {:induction false} SameQuanta(s: Sched, s': Sched, ns: seq<Node>)
    requires forall i | 0 <= i < |ns| :: Quantum(s', ns[i]) == Quantum(s, ns[i])
    ensures Quanta(s', ns) == Quanta(s, ns)
  {
    if ns != [] {
      SameQuanta(s, s', ns[1..]);
    }
  }

  lemma {:induction false} PositiveQuanta(s: Sched, ns: seq<Node>)
    requires forall i | 0 <= i < |ns| :: Quantum(s, ns[i]) > 0
    ensures Quanta(s, ns) >= |ns|
  {
    if ns != [] {
      PositiveQuanta(s, ns[1..]);
    }
  }

  lemma KeptTaskQuanta(s: Sched, s': Sched, i: nat)
    requires Inv(s) && QuantaKept(s, s') && i <= |s.Q(ReadyTasks)|
    ensures Quanta(s', s.Q(ReadyTasks)[..i]) == Quanta(s, s.Q(ReadyTasks)[..i])
  {
    ReadyMembers(s);
    SameQuanta(s, s', s.Q(ReadyTasks)[..i]);
  }

  /** While the running process goes on, nobody behind it moves. */
  lemma WaitUnchanged(s: Sched, s': Sched, i: nat, p: nat)
    requires Inv(s) && Waits(s, i, p)
    requires Continues(s, s') || SwitchesThread(s, s')
    ensures Waits(s', i, p) && Wait(s', i) == Wait(s, i)
  {
    assert s.Q(ReadyTasks) <= s'.Q(ReadyTasks);
    assert s'.Q(ReadyTasks)[..i] == s.Q(ReadyTasks)[..i];
    KeptTaskQuanta(s, s', i);
  }

  /** A process switch serves the head and brings everyone else one forward; what was
      left of the running process's quantum is what they gain. */
  lemma WaitAfterSwitch(s: Sched, s1: Sched, s': Sched, i: nat, p: nat)
    requires Inv(s) && Waits(s, i, p) && s1 == s.(remP := s1.remP, remT := s1.remT) && SwitchesProcess(s1, s')
    ensures i == 0 ==> s'.Proc() == p
    ensures i > 0 ==> Waits(s', i - 1, p) && Wait(s', i - 1) == Wait(s, i) - s.remP
    ensures s'.remP > 0
  {
    var q := s.Q(ReadyTasks);
    ReadyMembers(s);
    assert Quantum(s, q[0]) > 0;
    OneForward(q, s'.Proc(), s'.Q(ReadyTasks), i);
    if i > 0 {
      QuantaKeptFrom(s, s1, s');
      KeptTaskQuanta(s, s', i);
      HeadServed(s, s', i, p);
    }
  }

  lemma OneForward(q: seq<Node>, p: nat, q': seq<Node>, i: nat)
    requires q <= [Task(p)] + q' && i < |q|
    ensures q[0] == Task(p) && |q'| >= |q| - 1
    ensures i > 0 ==> q'[i - 1] == q[i] && q'[..i - 1] == q[1..i]
  {
    assert forall j | 0 <= j < |q| :: q[j] == ([Task(p)] + q')[j];
  }

  lemma QuantaKeptFrom(s: Sched, s1: Sched, s': Sched)
    requires s1 == s.(remP := s1.remP, remT := s1.remT) && QuantaKept(s1, s')
    ensures QuantaKept(s, s')
  {
  }

  lemma HeadServed(s: Sched, s': Sched, i: nat, p: nat)
    requires Waits(s, i, p) && i > 0 && |s'.Q(ReadyTasks)| >= |s.Q(ReadyTasks)| - 1
    requires s'.Q(ReadyTasks)[i - 1] == s.Q(ReadyTasks)[i] && s'.Q(ReadyTasks)[..i - 1] == s.Q(ReadyTasks)[1..i]
    requires Quanta(s', s.Q(ReadyTasks)[..i]) == Quanta(s, s.Q(ReadyTasks)[..i])
    requires s'.remP == Quantum(s', s.Q(ReadyTasks)[0])
    ensures Waits(s', i - 1, p) && Wait(s', i - 1) == Wait(s, i) - s.remP
  {
    assert s.Q(ReadyTasks)[..i][1..] == s.Q(ReadyTasks)[1..i];
  }

  /** `p` has come one tick nearer, or has been dispatched if it was next. */
  ghost predicate OneTickNearer(s: Sched, s': Sched, i: nat, p: nat)
    requires s'.current < |s'.threads| && Waits(s, i, p)
  {
    if s.remP == 1 && i == 0 then s'.Proc() == p
    else
      var i' := if s.remP == 1 then i - 1 else i;
      Waits(s', i', p) && Wait(s', i') == Wait(s, i) - 1
  }

  lemma TickWait(s: Sched, i: nat, p: nat)
    requires Inv(s) && Waits(s, i, p) && s.remP > 0
    ensures Tick(s).Sized() && Tick(s).remP > 0 && OneTickNearer(s, Tick(s), i, p)
    ensures Wait(s, i) == 1 <==> s.remP == 1 && i == 0
  {
    ReadyMembers(s);
    PositiveQuanta(s, s.Q(ReadyTasks)[..i]);
    if s.remP == 1 {
      TickSwitchesProcess(s);
      WaitAfterSwitch(s, Decremented(s), Tick(s), i, p);
    } else if NeedsSched(Decremented(s)) == 2 {
      TickSwitchesThread(s);
      TickKeepsOrder(s, i, p);
    } else {
      SameQuanta(s, Tick(s), s.Q(ReadyTasks)[..i]);
    }
  }

  lemma TickKeepsOrder(s: Sched, i: nat, p: nat)
    requires Inv(s) && Waits(s, i, p) && SwitchesThread(Decremented(s), Tick(s))
    ensures Waits(Tick(s), i, p) && Wait(Tick(s), i) == Wait(s, i) - 1
  {
    assert QuantaKept(s, Tick(s));
    KeptTaskQuanta(s, Tick(s), i);
  }

  // ------------------------------------------------------------------ over runs

  function Ticks(steps: seq<Step>): nat {
    if steps == [] then 0 else (if steps[0].TimerTick? then 1 else 0) + Ticks(steps[1..])
  }

  /** Process `p` runs at some point of the run, its start included. */
  ghost predicate EverRuns(s: Sched, steps: seq<Step>, p: nat)
    requires Inv(s) && Legal(s, steps)
    decreases |steps|
  {
    s.Proc() == p || (steps != [] && (ApplyInv(s, steps[0]); EverRuns(Apply(s, steps[0]), steps[1..], p)))
  }

  /** With the process quantum lost (Starvation.dfy), a tick only lowers it further. */
  lemma TickAfterLoss(s: Sched)
    requires Inv(s) && s.remP <= 0
    ensures Tick(s).Sized() && Tick(s).Proc() == s.Proc() && Tick(s).remP == s.remP - 1
  {
    if NeedsSched(Decremented(s)) == 2 {
      TickSwitchesThread(s);
    }
  }

  lemma StepAfterLoss(s: Sched, step: Step)
    requires Inv(s) && Guard(s, step) && s.remP <= 0 && !step.DoExit?
    ensures Apply(s, step).Sized() && Apply(s, step).Proc() == s.Proc() && Apply(s, step).remP <= 0
  {
    if step.TimerTick? {
      TickAfterLoss(s);
    } else {
      CallKind(s, step);
    }
  }

  /** Until somebody exits, no other process runs again. */
  lemma {:induction false} NoneRunsAfterLoss(s: Sched, steps: seq<Step>, p: nat)
    requires Inv(s) && Legal(s, steps) && s.remP <= 0 && s.Proc() != p
    requires DoExit !in steps
    ensures !EverRuns(s, steps, p)
    decreases |steps|
  {
    if steps != [] {
      ApplyInv(s, steps[0]);
      StepAfterLoss(s, steps[0]);
      NoneRunsAfterLoss(Apply(s, steps[0]), steps[1..], p);
    }
  }

  /** Exact waiting time: in any run without exits, a ready process is dispatched exactly
      when as many ticks have passed as its position promises, calls costing it nothing,
      provided the process quantum has not been lost. */
  lemma ExactWait(s: Sched, steps: seq<Step>, i: nat, p: nat)
    requires Inv(s) && Legal(s, steps) && Waits(s, i, p)
    requires DoExit !in steps
    ensures EverRuns(s, steps, p) <==> s.remP > 0 && Ticks(steps) >= Wait(s, i)
  {
    if s.remP > 0 {
      WaitWithQuantum(s, steps, i, p);
    } else {
      ReadyMembers(s);
      NoneRunsAfterLoss(s, steps, p);
    }
  }

  lemma {:induction false} WaitWithQuantum(s: Sched, steps: seq<Step>, i: nat, p: nat)
    requires Inv(s) && Legal(s, steps) && Waits(s, i, p) && s.remP > 0
    requires DoExit !in steps
    ensures EverRuns(s, steps, p) <==> Ticks(steps) >= Wait(s, i)
    decreases |steps|
  {
    ReadyMembers(s);
    PositiveQuanta(s, s.Q(ReadyTasks)[..i]);
    if steps != [] {
      var s' := Apply(s, steps[0]);
      ApplyInv(s, steps[0]);
      if steps[0].TimerTick? {
        TickWait(s, i, p);
        if Wait(s, i) > 1 {
          WaitWithQuantum(s', steps[1..], if s.remP == 1 then i - 1 else i, p);
        }
      } else {
        CallKind(s, steps[0]);
        WaitUnchanged(s, s', i, p);
        WaitWithQuantum(s', steps[1..], i, p);
      }
    }
  }

  /** Any one step: `p` runs, or has lost nothing, and a tick less if the step is a tick. */
  lemma StepWait(s: Sched, step: Step, i: nat, p: nat) returns (i': nat)
    requires Inv(s) && Guard(s, step) && Waits(s, i, p) && s.remP > 0
    ensures var s' := Apply(s, step);
            && Inv(s')
            && (s'.Proc() == p || (
                  && Waits(s', i', p) && s'.remP > 0
                  && Wait(s', i') <= Wait(s, i) - if step.TimerTick? then 1 else 0))
  {
    ApplyInv(s, step);
    i' := i;
    if step.TimerTick? {
      TickWait(s, i, p);
      i' := if s.remP == 1 && i > 0 then i - 1 else i;
    } else if step.DoExit? {
      ExitSwitchesProcess(s);
      WaitAfterSwitch(s, s, Exit(s), i, p);
      i' := if i > 0 then i - 1 else 0;
    } else {
      CallKind(s, step);
      WaitUnchanged(s, Apply(s, step), i, p);
    }
  }

  /** With exits, which only shorten waits, the same number of ticks is an upper bound. */
  lemma {:induction false} BoundedWait(s: Sched, steps: seq<Step>, i: nat, p: nat)
    requires Inv(s) && Legal(s, steps) && Waits(s, i, p) && s.remP > 0
    requires Ticks(steps) >= Wait(s, i)
    ensures EverRuns(s, steps, p)
    decreases |steps|
  {
    ReadyMembers(s);
    PositiveQuanta(s, s.Q(ReadyTasks)[..i]);
    var i' := StepWait(s, steps[0], i, p);
    if Apply(s, steps[0]).Proc() != p {
      BoundedWait(Apply(s, steps[0]), steps[1..], i', p);
    }
  }
}
