/** No thread starves in any run: whatever calls are made between the ticks, and by whom. */
module ThreadRuns {
  import opened Rings
  import opened Scheduling
  import opened Agreement
  import opened Steps
  import opened Runs
  import opened Boot
  import opened Switching
  import opened Identities
  import opened Timing
  import opened Starvation
  import opened ThreadTurns
  import F = Frames

  /** Process `p` exits in step i. */
  predicate ExitAt(ks: seq<Sched>, steps: seq<Step>, p: nat, i: int) {
    0 <= i < |ks| && i < |steps| && steps[i].DoExit? && ks[i].Sized() && ks[i].Proc() == p
  }

  /** Step i is a tick that process `p` runs. */
  predicate TickAt(ks: seq<Sched>, steps: seq<Step>, p: nat, i: int) {
    0 <= i < |ks| && i < |steps| && steps[i].TimerTick? && ks[i].Sized() && ks[i].Proc() == p
  }

  /** The ticks that `p` runs among the first `n` steps. */
  function TicksRun(ks: seq<Sched>, steps: seq<Step>, p: nat, n: nat): nat {
    if n == 0 then 0 else TicksRun(ks, steps, p, n - 1) + (if TickAt(ks, steps, p, n - 1) then 1 else 0)
  }

  function TicksIn(steps: seq<Step>, n: nat): nat
    requires n <= |steps|
  {
    if n == 0 then 0 else TicksIn(steps, n - 1) + (if steps[n - 1].TimerTick? then 1 else 0)
  }

  predicate RunsAt(ks: seq<Sched>, t: nat, i: int) {
    0 <= i < |ks| && ks[i].current == t
  }

  // ------------------------------------------------------------------ in ticks of its process

  /** `t` has not run since the start and its turn has come nearer by `ticks`, at least. */
  ghost predicate Advanced(s: Sched, s': Sched, p: nat, k: nat, k': nat, t: nat, ticks: nat) {
    && s.Sized() && s'.Sized() && Queued(s, p, k, t) && Queued(s', p, k', t)
    && Turn(s', p, k') + ticks <= Turn(s, p, k)
  }

  lemma OneStep(s: Sched, step: Step, s': Sched, p: nat, k: nat, t: nat) returns (k': nat)
    requires IsStep(s, step, s') && Queued(s, p, k, t)
    requires !(step.DoExit? && s.Proc() == p) && s'.current != t
    ensures Advanced(s, s', p, k, k', t, if step.TimerTick? && s.Proc() == p then 1 else 0)
  {
    StepTurn(s, step, p, k, t);
    k' := NextIndex(s, s', p, k, t, if step.TimerTick? && s.Proc() == p then 1 else 0);
  }

  /** Wherever `t` is in its queue, the step brings it nearer so. */
  ghost predicate Moves(s: Sched, s': Sched, p: nat, t: nat, ticks: nat) {
    s.Sized() && forall k: nat | Queued(s, p, k, t) :: exists k': nat :: Advanced(s, s', p, k, k', t, ticks)
  }

  function TickOf(ks: seq<Sched>, steps: seq<Step>, p: nat, i: int): nat {
    if TickAt(ks, steps, p, i) then 1 else 0
  }

  lemma TurnOverRun(ks: seq<Sched>, steps: seq<Step>, p: nat, k: nat, t: nat, n: nat) returns (k': nat)
    requires Trace(ks, steps) && Queued(ks[0], p, k, t) && n <= |steps|
    requires forall i | 0 <= i < n :: !ExitAt(ks, steps, p, i)
    requires forall i | 0 <= i <= n :: !RunsAt(ks, t, i)
    ensures Advanced(ks[0], ks[n], p, k, k', t, TicksRun(ks, steps, p, n))
  {
    forall i: nat | i < n
      ensures Moves(ks[i], ks[i + 1], p, t, TickOf(ks, steps, p, i))
    {
      assert !RunsAt(ks, t, i + 1);
      MovesAt(ks, steps, i, p, t);
    }
    TraceKeepsInv(ks, steps, 0);
    k' := MovesOverRun(ks, steps, p, k, t, n);
  }

  lemma MovesAt(ks: seq<Sched>, steps: seq<Step>, i: nat, p: nat, t: nat)
    requires Trace(ks, steps) && i < |steps| && !ExitAt(ks, steps, p, i) && ks[i + 1].current != t
    ensures Moves(ks[i], ks[i + 1], p, t, TickOf(ks, steps, p, i))
  {
    assert IsStep(ks[i], steps[i], ks[i + 1]);
    StepMoves(ks[i], steps[i], ks[i + 1], p, t, TickOf(ks, steps, p, i));
  }

  lemma StepMoves(s: Sched, step: Step, s': Sched, p: nat, t: nat, d: nat)
    requires IsStep(s, step, s') && !(step.DoExit? && s.Proc() == p) && s'.current != t
    requires d == if step.TimerTick? && s.Proc() == p then 1 else 0
    ensures Moves(s, s', p, t, d)
  {
    forall k: nat | Queued(s, p, k, t)
      ensures exists k': nat :: Advanced(s, s', p, k, k', t, d)
    {
      var k' := OneStep(s, step, s', p, k, t);
    }
  }

  lemma {:induction false} MovesOverRun(ks: seq<Sched>, steps: seq<Step>, p: nat, k: nat, t: nat, n: nat) returns (k': nat)
    requires n < |ks| && ks[0].Sized() && Queued(ks[0], p, k, t)
    requires forall i: nat | i < n :: Moves(ks[i], ks[i + 1], p, t, TickOf(ks, steps, p, i))
    ensures Advanced(ks[0], ks[n], p, k, k', t, TicksRun(ks, steps, p, n))
  {
    if n == 0 {
      k' := k;
    } else {
      var k1 := MovesOverRun(ks, steps, p, k, t, n - 1);
      assert Moves(ks[n - 1], ks[n - 1 + 1], p, t, TickOf(ks, steps, p, n - 1));
      k' :| Advanced(ks[n - 1], ks[n], p, k1, k', t, TickOf(ks, steps, p, n - 1));
    }
  }

  lemma OneStepAt(ks: seq<Sched>, steps: seq<Step>, i: nat, p: nat, k: nat, t: nat) returns (k': nat)
    requires Trace(ks, steps) && i < |steps| && Queued(ks[i], p, k, t)
    requires !ExitAt(ks, steps, p, i) && ks[i + 1].current != t
    ensures Advanced(ks[i], ks[i + 1], p, k, k', t, if TickAt(ks, steps, p, i) then 1 else 0)
  {
    assert IsStep(ks[i], steps[i], ks[i + 1]);
    k' := OneStep(ks[i], steps[i], ks[i + 1], p, k, t);
  }

  /** In any run in which its process does not exit, a ready thread runs as soon as the
      process has run more ticks than its turn. */
  lemma ServedByItsProcess(ks: seq<Sched>, steps: seq<Step>, p: nat, k: nat, t: nat) returns (i: nat)
    requires Trace(ks, steps) && Queued(ks[0], p, k, t)
    requires forall i | 0 <= i < |steps| :: !ExitAt(ks, steps, p, i)
    requires TicksRun(ks, steps, p, |steps|) > Turn(ks[0], p, k)
    ensures i <= |steps| && RunsAt(ks, t, i)
  {
    if forall i | 0 <= i <= |steps| :: !RunsAt(ks, t, i) {
      var k' := TurnOverRun(ks, steps, p, k, t, |steps|);
      TraceKeepsInv(ks, steps, |steps|);
      TurnPositive(ks[|steps|], p, k');
      assert false;
    }
    i :| i <= |steps| && RunsAt(ks, t, i);
  }

  lemma TraceKeepsInv(ks: seq<Sched>, steps: seq<Step>, n: nat)
    requires Trace(ks, steps) && n <= |steps|
    ensures Inv(ks[n])
  {
    if n > 0 {
      assert IsStep(ks[n - 1], steps[n - 1], ks[n]);
      ApplyInv(ks[n - 1], steps[n - 1]);
    }
  }

  // ------------------------------------------------------------------ every quantum is the default

  /** Nothing ever gives a process another quantum than this one. */
  ghost predicate DefaultQuanta(s: Sched) {
    s.Sized() && forall p: nat | Live(s, p) :: s.tasks[p].quantum == DEFAULT_QUANTUM_P
  }

  /** What all processes together run at most before the first of them runs again. */
  const ROUND := NR_TASKS * DEFAULT_QUANTUM_P

  lemma BootDefault(s: Sched)
    requires Booted(s)
    ensures DefaultQuanta(s)
  {
    forall p: nat | 2 <= p < NR_TASKS
      ensures !Live(s, p)
    {
      assert Index(Task(p)) == p && FreeQueueOf(Task(p)) == FreeTasks;
    }
  }

  lemma StepKeepsQuanta(s: Sched, step: Step)
    requires Inv(s) && Guard(s, step)
    ensures QuantaKept(s, Apply(s, step))
  {
    match step
    case TimerTick => TickKeepsQuanta(s);
    case DoExit => ExitSwitchesProcess(s);
    case _ => CallKind(s, step);
  }

  lemma TickKeepsQuanta(s: Sched)
    requires Inv(s)
    ensures QuantaKept(s, Tick(s))
  {
    if NeedsSched(Decremented(s)) == 1 {
      TickSwitchesProcess(s);
    } else {
      var s' := TickWithinProcess(s);
    }
  }

  lemma StepKeepsDefault(s: Sched, step: Step, s': Sched)
    requires IsStep(s, step, s') && DefaultQuanta(s)
    ensures DefaultQuanta(s')
  {
    StepKeepsQuanta(s, step);
    NewIsDefault(s, step);
    KeepsDefault(s, s');
  }

  /** Whoever becomes live gets the default. */
  ghost predicate NewDefault(s: Sched, s': Sched) {
    s.Sized() && s'.Sized() && forall p: nat | Live(s', p) && !Live(s, p) :: s'.tasks[p].quantum == DEFAULT_QUANTUM_P
  }

  lemma NewIsDefault(s: Sched, step: Step)
    requires Inv(s) && Guard(s, step)
    ensures NewDefault(s, Apply(s, step))
  {
    if !AddsThread(s, step) {
      StepKeepsIds(s, step);
    } else if step.DoCreate? {
      HeadOfFreeThreads(s);
      var s', t := Created(s);
      assert forall p: nat :: s'.In(Task(p), FreeTasks) <==> s.In(Task(p), FreeTasks);
    } else {
      ForkCases(s, true);
    }
  }

  lemma KeepsDefault(s: Sched, s': Sched)
    requires DefaultQuanta(s) && QuantaKept(s, s') && NewDefault(s, s')
    ensures DefaultQuanta(s')
  {
  }

  lemma {:induction false} DefaultOverRun(ks: seq<Sched>, steps: seq<Step>, n: nat)
    requires Trace(ks, steps) && DefaultQuanta(ks[0]) && n <= |steps|
    ensures DefaultQuanta(ks[n])
  {
    if n > 0 {
      DefaultOverRun(ks, steps, n - 1);
      StepAt(ks, steps, n - 1);
    }
  }

  lemma StepAt(ks: seq<Sched>, steps: seq<Step>, i: nat)
    requires Trace(ks, steps) && i < |steps|
    ensures DefaultQuanta(ks[i]) ==> DefaultQuanta(ks[i + 1])
  {
    assert IsStep(ks[i], steps[i], ks[i + 1]);
    if DefaultQuanta(ks[i]) {
      StepKeepsDefault(ks[i], steps[i], ks[i + 1]);
    }
  }

  lemma {:induction false} SumOfDefaults(s: Sched, ns: seq<Node>)
    requires forall i | 0 <= i < |ns| :: Quantum(s, ns[i]) == DEFAULT_QUANTUM_P
    ensures Quanta(s, ns) == DEFAULT_QUANTUM_P * |ns|
  {
    if ns != [] {
      SumOfDefaults(s, ns[1..]);
    }
  }

  lemma RoundIsBounded(s: Sched)
    requires Inv(s) && DefaultQuanta(s)
    ensures Round(s) <= ROUND
  {
    var q := s.rings.seqs[ReadyTasks];
    ReadyMembers(s);
    SumOfDefaults(s, q);
    FewReady(q, s.Proc());
  }

  lemma FewReady(q: seq<Node>, p: nat)
    requires NoDup(q) && p < NR_TASKS
    requires forall i | 0 <= i < |q| :: q[i].Task? && q[i].p < NR_TASKS && q[i].p != p
    ensures |q| + 1 <= NR_TASKS
  {
    var ps := seq(|q|, i requires 0 <= i < |q| => q[i].p);
    assert forall i, j | 0 <= i < j < |ps| :: q[i] != q[j];
    F.DistinctElements(ps + [p]);
    var all := seq(NR_TASKS, i requires 0 <= i => i);
    F.DistinctElements(all);
    forall x | x in F.Elements(ps + [p])
      ensures x in F.Elements(all)
    {
      assert all[x] == x;
    }
    F.Subset(F.Elements(ps + [p]), F.Elements(all));
  }

  // ------------------------------------------------------------------ in ticks of the timer

  /** `t` is ready at index `k`, and its process runs or will. */
  predicate OnCourse(s: Sched, p: nat, k: nat, t: nat, i: nat) {
    s.Sized() && Queued(s, p, k, t) && (p == s.Proc() || (Waits(s, i, p) && s.remP > 0))
  }

  /** The ticks `t` waits at most: a round for each tick of its turn, and its process's wait. */
  function Delay(s: Sched, p: nat, k: nat, t: nat, i: nat): int
    requires OnCourse(s, p, k, t, i)
  {
    Turn(s, p, k) * ROUND + (if p == s.Proc() then 0 else Wait(s, i))
  }

  lemma DelayPositive(s: Sched, p: nat, k: nat, t: nat, i: nat)
    requires Inv(s) && OnCourse(s, p, k, t, i)
    ensures Delay(s, p, k, t, i) > 0
  {
    TurnPositive(s, p, k);
    if p != s.Proc() {
      WaitPositive(s, i, p);
    }
    DelayFrom(s, p, k, t, i);
  }

  lemma DelayFrom(s: Sched, p: nat, k: nat, t: nat, i: nat)
    requires OnCourse(s, p, k, t, i)
    requires Turn(s, p, k) >= (if p == s.Proc() then 1 else 0) && (p != s.Proc() ==> Wait(s, i) > 0)
    ensures Delay(s, p, k, t, i) > 0
  {
  }

  predicate Shortened(s: Sched, s': Sched, p: nat, k: nat, k': nat, t: nat, i: nat, i': nat, ticks: nat) {
    && OnCourse(s, p, k, t, i) && OnCourse(s', p, k', t, i')
    && Delay(s', p, k', t, i') + ticks <= Delay(s, p, k, t, i)
  }

  /** What one step does to a thread whose process runs: the process goes on, or a tick has
      parked it for less than a round. */
  predicate RunsOn(s: Sched, s': Sched, p: nat, k: nat, k': nat, t: nat, i': nat, ticks: nat) {
    && s.Sized() && s'.Sized() && Queued(s, p, k, t) && Queued(s', p, k', t) && s.Proc() == p
    && Turn(s', p, k') + ticks <= Turn(s, p, k)
    && (s'.Proc() == p || (ticks == 1 && Waits(s', i', p) && s'.remP > 0 && Wait(s', i') < ROUND))
  }

  lemma RunsOnShortens(s: Sched, s': Sched, p: nat, k: nat, k': nat, t: nat, i: nat, i': nat, ticks: nat)
    requires RunsOn(s, s', p, k, k', t, i', ticks) && ticks <= 1
    ensures Shortened(s, s', p, k, k', t, i, i', ticks)
  {
  }

  lemma RunningStep(s: Sched, step: Step, s': Sched, p: nat, k: nat, t: nat) returns (k': nat, i': nat)
    requires IsStep(s, step, s') && DefaultQuanta(s) && Queued(s, p, k, t) && p == s.Proc()
    requires !step.DoExit? && s'.current != t
    ensures RunsOn(s, s', p, k, k', t, i', if step.TimerTick? then 1 else 0)
  {
    k' := OneStep(s, step, s', p, k, t);
    i' := RunningProcess(s, step, s');
  }

  lemma RunningProcess(s: Sched, step: Step, s': Sched) returns (i': nat)
    requires IsStep(s, step, s') && DefaultQuanta(s) && !step.DoExit?
    ensures s'.Sized()
    ensures s'.Proc() == s.Proc() ||
              (step.TimerTick? && Waits(s', i', s.Proc()) && s'.remP > 0 && Wait(s', i') < ROUND)
  {
    i' := 0;
    if step.TimerTick? {
      TickRound(s);
      RoundIsBounded(s);
      if s'.Proc() != s.Proc() {
        i' := |s.Q(ReadyTasks)| - 1;
        TickRestart(s);
      }
    } else {
      CallKind(s, step);
    }
  }

  /** And to one whose process waits: it comes nearer with every tick, or is dispatched. */
  predicate WaitsOn(s: Sched, s': Sched, p: nat, k: nat, k': nat, t: nat, i: nat, i': nat, ticks: nat) {
    && s.Sized() && s'.Sized() && Queued(s, p, k, t) && Queued(s', p, k', t) && s.Proc() != p
    && Waits(s, i, p) && s.remP > 0 && Wait(s, i) > 0
    && Turn(s', p, k') <= Turn(s, p, k)
    && (s'.Proc() == p || (Waits(s', i', p) && s'.remP > 0 && Wait(s', i') + ticks <= Wait(s, i)))
  }

  lemma WaitsOnShortens(s: Sched, s': Sched, p: nat, k: nat, k': nat, t: nat, i: nat, i': nat, ticks: nat)
    requires WaitsOn(s, s', p, k, k', t, i, i', ticks) && ticks <= 1
    ensures Shortened(s, s', p, k, k', t, i, i', ticks)
  {
  }

  lemma WaitingStep(s: Sched, step: Step, s': Sched, p: nat, k: nat, t: nat, i: nat) returns (k': nat, i': nat)
    requires IsStep(s, step, s') && OnCourse(s, p, k, t, i) && p != s.Proc()
    requires s'.current != t
    ensures WaitsOn(s, s', p, k, k', t, i, i', if step.TimerTick? then 1 else 0)
  {
    k' := OneStep(s, step, s', p, k, t);
    i' := StepWait(s, step, i, p);
    WaitPositive(s, i, p);
  }

  lemma DelayStep(s: Sched, step: Step, s': Sched, p: nat, k: nat, t: nat, i: nat) returns (k': nat, i': nat)
    requires IsStep(s, step, s') && DefaultQuanta(s) && OnCourse(s, p, k, t, i)
    requires !(step.DoExit? && s.Proc() == p) && s'.current != t
    ensures Shortened(s, s', p, k, k', t, i, i', if step.TimerTick? then 1 else 0)
  {
    var ticks := if step.TimerTick? then 1 else 0;
    if p == s.Proc() {
      k', i' := RunningStep(s, step, s', p, k, t);
      RunsOnShortens(s, s', p, k, k', t, i, i', ticks);
    } else {
      k', i' := WaitingStep(s, step, s', p, k, t, i);
      WaitsOnShortens(s, s', p, k, k', t, i, i', ticks);
    }
  }

  /** The step shortens the delay of `t`, wherever in its queue it is, unless it runs then
      or its process exits. */
  ghost predicate Shortens(s: Sched, step: Step, s': Sched, p: nat, t: nat) {
    && s.Sized() && s'.Sized()
    && (!(step.DoExit? && s.Proc() == p) && s'.current != t ==>
          forall k: nat, i: nat | OnCourse(s, p, k, t, i) ::
            exists k': nat, i': nat :: ShortenedBy(s, step, s', p, k, k', t, i, i'))
  }

  predicate ShortenedBy(s: Sched, step: Step, s': Sched, p: nat, k: nat, k': nat, t: nat, i: nat, i': nat) {
    Shortened(s, s', p, k, k', t, i, i', if step.TimerTick? then 1 else 0)
  }

  lemma StepShortens(s: Sched, step: Step, s': Sched, p: nat, t: nat)
    requires IsStep(s, step, s') && DefaultQuanta(s)
    ensures Shortens(s, step, s', p, t)
  {
    ApplyInv(s, step);
    forall k: nat, i: nat | !(step.DoExit? && s.Proc() == p) && s'.current != t && OnCourse(s, p, k, t, i)
      ensures exists k': nat, i': nat :: ShortenedBy(s, step, s', p, k, k', t, i, i')
    {
      var k', i' := DelayStep(s, step, s', p, k, t, i);
      assert ShortenedBy(s, step, s', p, k, k', t, i, i');
    }
  }

  ghost predicate AllShorten(ks: seq<Sched>, steps: seq<Step>, p: nat, t: nat) {
    |ks| == |steps| + 1 && forall j | 0 <= j < |steps| :: Shortens(ks[j], steps[j], ks[j + 1], p, t)
  }

  lemma TraceShortens(ks: seq<Sched>, steps: seq<Step>, p: nat, t: nat)
    requires Trace(ks, steps) && DefaultQuanta(ks[0])
    ensures AllShorten(ks, steps, p, t)
  {
    forall j | 0 <= j < |steps|
      ensures Shortens(ks[j], steps[j], ks[j + 1], p, t)
    {
      DefaultOverRun(ks, steps, j);
      assert IsStep(ks[j], steps[j], ks[j + 1]);
      StepShortens(ks[j], steps[j], ks[j + 1], p, t);
    }
  }

  lemma {:induction false} DelayOverRun(ks: seq<Sched>, steps: seq<Step>, p: nat, k: nat, t: nat, i: nat, a: nat, n: nat)
      returns (k': nat, i': nat)
    requires AllShorten(ks, steps, p, t) && a <= n <= |steps| && OnCourse(ks[a], p, k, t, i)
    requires forall j | a <= j < n :: !ExitAt(ks, steps, p, j)
    requires forall j | a <= j <= n :: !RunsAt(ks, t, j)
    ensures TicksIn(steps, n) >= TicksIn(steps, a)
    ensures Shortened(ks[a], ks[n], p, k, k', t, i, i', TicksIn(steps, n) - TicksIn(steps, a))
    decreases n
  {
    if n == a {
      k', i' := k, i;
    } else {
      var k1, i1 := DelayOverRun(ks, steps, p, k, t, i, a, n - 1);
      assert Shortens(ks[n - 1], steps[n - 1], ks[n], p, t);
      assert !ExitAt(ks, steps, p, n - 1) && !RunsAt(ks, t, n);
      k', i' :| ShortenedBy(ks[n - 1], steps[n - 1], ks[n], p, k1, k', t, i1, i');
    }
  }

  /** No thread starves: at any point `a` of any run from boot, a thread that is ready and
      whose process runs, or waits with the process quantum not lost, runs before as many
      ticks have passed as its delay, unless its process exits first. */
  lemma ServedInAnyRun(ks: seq<Sched>, steps: seq<Step>, p: nat, k: nat, t: nat, i: nat, a: nat, b: nat) returns (j: nat)
    requires Trace(ks, steps) && Booted(ks[0]) && a <= b <= |steps| && OnCourse(ks[a], p, k, t, i)
    requires forall j | a <= j < b :: !ExitAt(ks, steps, p, j)
    requires TicksIn(steps, b) - TicksIn(steps, a) >= Delay(ks[a], p, k, t, i)
    ensures a <= j <= b && RunsAt(ks, t, j)
  {
    BootDefault(ks[0]);
    if forall j | a <= j <= b :: !RunsAt(ks, t, j) {
      TraceShortens(ks, steps, p, t);
      var k', i' := DelayOverRun(ks, steps, p, k, t, i, a, b);
      TraceKeepsInv(ks, steps, b);
      DelayPositive(ks[b], p, k', t, i');
      assert false;
    }
    j :| a <= j <= b && RunsAt(ks, t, j);
  }

  // ------------------------------------------------------------------ with the quantum lost

  /** The process quantum is lost, and `t` is ready in another process than the running one. */
  predicate LeftOut(s: Sched, p: nat, k: nat, t: nat) {
    s.Sized() && Queued(s, p, k, t) && p != s.Proc() && s.remP <= 0
  }

  lemma StillLeftOut(s: Sched, step: Step, s': Sched, p: nat, k: nat, t: nat) returns (k': nat)
    requires IsStep(s, step, s') && LeftOut(s, p, k, t) && !step.DoExit?
    ensures s'.current != t && LeftOut(s', p, k', t)
  {
    StepAfterLoss(s, step);
    OthersDispatched(s, step, s', p, k, t);
    k' := OneStep(s, step, s', p, k, t);
  }

  lemma OthersDispatched(s: Sched, step: Step, s': Sched, p: nat, k: nat, t: nat)
    requires IsStep(s, step, s') && Queued(s, p, k, t) && s'.Sized() && s'.Proc() == s.Proc() != p
    ensures s'.current != t
  {
    QueuedThread(s, p, k, t);
    if AddsThread(s, step) {
      AddedThread(s, step);
    } else {
      StepKeepsIds(s, step);
      assert Member(s', s'.current);
    }
  }

  ghost predicate StaysOut(s: Sched, step: Step, s': Sched, p: nat, t: nat) {
    !step.DoExit? ==> forall k: nat | LeftOut(s, p, k, t) :: s'.current != t && exists k': nat :: LeftOut(s', p, k', t)
  }

  lemma StepStaysOut(s: Sched, step: Step, s': Sched, p: nat, t: nat)
    requires IsStep(s, step, s')
    ensures StaysOut(s, step, s', p, t)
  {
    forall k: nat | !step.DoExit? && LeftOut(s, p, k, t)
      ensures s'.current != t && exists k': nat :: LeftOut(s', p, k', t)
    {
      var k' := StillLeftOut(s, step, s', p, k, t);
    }
  }

  lemma TraceStaysOut(ks: seq<Sched>, steps: seq<Step>, p: nat, t: nat)
    requires Trace(ks, steps)
    ensures forall j | 0 <= j < |steps| :: StaysOut(ks[j], steps[j], ks[j + 1], p, t)
  {
    forall j | 0 <= j < |steps|
      ensures StaysOut(ks[j], steps[j], ks[j + 1], p, t)
    {
      assert IsStep(ks[j], steps[j], ks[j + 1]);
      StepStaysOut(ks[j], steps[j], ks[j + 1], p, t);
    }
  }

  lemma {:induction false} LeftOutOverRun(ks: seq<Sched>, steps: seq<Step>, p: nat, k: nat, t: nat, a: nat, n: nat) returns (k': nat)
    requires |ks| == |steps| + 1 && forall j | 0 <= j < |steps| :: StaysOut(ks[j], steps[j], ks[j + 1], p, t)
    requires a <= n <= |steps| && LeftOut(ks[a], p, k, t)
    requires forall j | a <= j < n :: !steps[j].DoExit?
    ensures LeftOut(ks[n], p, k', t) && (n > a ==> ks[n].current != t)
    decreases n
  {
    if n == a {
      k' := k;
    } else {
      var k1 := LeftOutOverRun(ks, steps, p, k, t, a, n - 1);
      assert StaysOut(ks[n - 1], steps[n - 1], ks[n], p, t);
      k' :| LeftOut(ks[n], p, k', t);
    }
  }

  /** Over a stretch without exits that is long enough, a ready thread runs if and only if
      its process was running, or was waiting and the process quantum was not lost. */
  lemma ServedInRunIff(ks: seq<Sched>, steps: seq<Step>, p: nat, k: nat, t: nat, i: nat, a: nat, b: nat)
    requires Trace(ks, steps) && Booted(ks[0]) && a <= b <= |steps|
    requires ks[a].Sized() && Queued(ks[a], p, k, t) && (p == ks[a].Proc() || Waits(ks[a], i, p))
    requires forall j | a <= j < b :: !steps[j].DoExit?
    requires OnCourse(ks[a], p, k, t, i) ==> TicksIn(steps, b) - TicksIn(steps, a) >= Delay(ks[a], p, k, t, i)
    ensures (exists j :: a <= j <= b && RunsAt(ks, t, j)) <==> p == ks[a].Proc() || ks[a].remP > 0
  {
    if OnCourse(ks[a], p, k, t, i) {
      var j := ServedInAnyRun(ks, steps, p, k, t, i, a, b);
    } else {
      TraceStaysOut(ks, steps, p, t);
      forall j | a <= j <= b
        ensures !RunsAt(ks, t, j)
      {
        var k' := LeftOutOverRun(ks, steps, p, k, t, a, j);
        if j == a {
          TraceKeepsInv(ks, steps, a);
          QueuedThread(ks[a], p, k, t);
        }
      }
    }
  }
}
