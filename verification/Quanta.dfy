/** What the remaining quanta are worth: never more than the quanta of the process and the
    thread that run, and for a process alone counted off again and again. */
module Quanta {
  import opened Rings
  import opened Scheduling
  import opened Agreement
  import opened Steps
  import opened Runs
  import opened Boot
  import opened Switching
  import opened Starvation
  import opened Effects
  import Division

  /** Neither has more left than it gets. */
  ghost predicate WithinQuanta(s: Sched) {
    && s.Sized() && s.Proc() < NR_TASKS
    && s.remP <= s.tasks[s.Proc()].quantum && s.remT <= s.threads[s.current].quantum
  }

  lemma StepWithinQuanta(s: Sched, step: Step, s': Sched)
    requires IsStep(s, step, s') && WithinQuanta(s)
    ensures WithinQuanta(s')
  {
    if step.TimerTick? {
      TickWithinQuanta(s);
    } else if step.DoExit? {
      ExitSwitchesProcess(s);
    } else {
      CallKind(s, step);
      RunningKeepsQuanta(s, s');
    }
  }

  lemma RunningKeepsQuanta(s: Sched, s': Sched)
    requires Settled(s) && WithinQuanta(s) && (Continues(s, s') || SwitchesThread(s, s'))
    ensures WithinQuanta(s')
  {
  }

  lemma TickWithinQuanta(s: Sched)
    requires Inv(s) && WithinQuanta(s)
    ensures WithinQuanta(Tick(s))
  {
    if s.remP == 1 && s.Q(ReadyTasks) != [] {
      TickSwitchesProcess(s);
    } else if s.remT == 1 && s.Q(Ready(s.Proc())) != [] {
      ThreadTickWithinQuanta(s);
    } else {
      QuietTick(s);
    }
  }

  lemma ThreadTickWithinQuanta(s: Sched)
    requires Inv(s) && WithinQuanta(s) && !(s.remP == 1 && s.Q(ReadyTasks) != []) && s.remT == 1 && s.Q(Ready(s.Proc())) != []
    ensures WithinQuanta(Tick(s))
  {
    TickSwitchesThread(s);
    SettledIgnoresQuanta(s, Decremented(s));
    RunningKeepsQuanta(Decremented(s), Tick(s));
  }

  /** In every state that a run from boot reaches. */
  lemma {:induction false} QuantaOverRun(ks: seq<Sched>, steps: seq<Step>, n: nat)
    requires Trace(ks, steps) && WithinQuanta(ks[0]) && n <= |steps|
    ensures WithinQuanta(ks[n])
  {
    if n > 0 {
      QuantaOverRun(ks, steps, n - 1);
      QuantaAt(ks, steps, n - 1);
    }
  }

  lemma QuantaAt(ks: seq<Sched>, steps: seq<Step>, i: nat)
    requires Trace(ks, steps) && i < |steps| && WithinQuanta(ks[i])
    ensures WithinQuanta(ks[i + 1])
  {
    assert IsStep(ks[i], steps[i], ks[i + 1]);
    StepWithinQuanta(ks[i], steps[i], ks[i + 1]);
  }

  lemma QuantaFromBoot(ks: seq<Sched>, steps: seq<Step>, n: nat)
    requires Trace(ks, steps) && Booted(ks[0]) && n <= |steps|
    ensures WithinQuanta(ks[n])
  {
    QuantaOverRun(ks, steps, n);
  }

  // ------------------------------------------------------------------ alone

  /** Nobody else is ready, and the process and its thread have `qp` and `qt` for a turn. */
  predicate Alone(s: Sched, qp: int, qt: int) {
    && s.Sized() && s.Proc() < NR_TASKS && s.Q(ReadyTasks) == [] && s.Q(Ready(s.Proc())) == []
    && s.tasks[s.Proc()].quantum == qp > 0 && s.threads[s.current].quantum == qt > 0
  }

  lemma TickAlone(s: Sched, qp: int, qt: int)
    requires Inv(s) && Alone(s, qp, qt)
    ensures Inv(Tick(s)) && Alone(Tick(s), qp, qt)
    ensures Tick(s).remP == (if s.remP == 1 then qp else s.remP - 1)
    ensures Tick(s).remT == (if s.remT == 1 then qt else s.remT - 1)
    ensures Tick(s) == s.(remP := Tick(s).remP, remT := Tick(s).remT)
  {
    QuietTick(s);
    TickInv(s);
  }

  lemma NextRemainder(n: nat, q: int)
    requires q > 0
    ensures (n + 1) % q == if n % q == q - 1 then 0 else n % q + 1
  {
    if n % q == q - 1 {
      Division.DivModUnique(n + 1, q, n / q + 1, 0);
    } else {
      Division.DivModUnique(n + 1, q, n / q, n % q + 1);
    }
  }

  /** One process with one thread ready to run, after n ticks from full quanta: both have
      been counted down, each from its own, as often as it fits, and nothing else happened. */
  lemma {:induction false} AloneCountsDown(s: Sched, qp: int, qt: int, n: nat)
    requires Inv(s) && Alone(s, qp, qt) && s.remP == qp && s.remT == qt
    ensures Ticked(s, n) == s.(remP := qp - n % qp, remT := qt - n % qt)
  {
    CountedFrom(s, qp, qt, 0, n);
  }

  lemma {:induction false} CountedFrom(s: Sched, qp: int, qt: int, k: nat, n: nat)
    requires Inv(s) && Alone(s, qp, qt) && s.remP == qp - k % qp && s.remT == qt - k % qt
    ensures Ticked(s, n) == s.(remP := qp - (k + n) % qp, remT := qt - (k + n) % qt)
    decreases n
  {
    if n > 0 {
      TickAlone(s, qp, qt);
      NextRemainder(k, qp);
      NextRemainder(k, qt);
      CountedFrom(Tick(s), qp, qt, k + 1, n - 1);
    }
  }

  /** A booted kernel left alone: 20 and 10 ticks a turn. */
  lemma BootAlone(s: Sched, n: nat)
    requires Booted(s)
    ensures Inv(s) && Ticked(s, n) == s.(remP := 20 - n % 20, remT := 10 - n % 10)
  {
    BootInv(s);
    AloneCountsDown(s, 20, 10, n);
  }
}
