/** No thread starves inside its process. */
module ThreadTurns {
  import opened Rings
  import opened Scheduling
  import opened Agreement
  import opened Steps
  import opened Runs
  import opened Switching
  import opened Timing
  import opened Starvation

  /** Thread `t` is at index `k` of the ready list of process `p`. */
  predicate Queued(s: Sched, p: nat, k: nat, t: nat) {
    k < |s.Q(Ready(p))| && s.Q(Ready(p))[k] == Thread(t)
  }

  /** The ticks process `p` must run before the thread at index `k` of its ready list does. */
  function Turn(s: Sched, p: nat, k: nat): int
    requires k <= |s.Q(Ready(p))| && s.current < |s.threads|
  {
    (if p == s.Proc() then s.remT else 0) + Quanta(s, s.Q(Ready(p))[..k])
  }

  /** `t` runs now, or its turn has come nearer by at least `d`. */
  predicate Nearer(s: Sched, s': Sched, p: nat, k: nat, t: nat, d: nat)
    requires s.Sized() && s'.Sized() && Queued(s, p, k, t)
  {
    || s'.current == t
    || (Queued(s', p, k, t) && Turn(s', p, k) + d <= Turn(s, p, k))
    || (k > 0 && Queued(s', p, k - 1, t) && Turn(s', p, k - 1) + d <= Turn(s, p, k))
  }

  lemma ReadyThreads(s: Sched, p: nat)
    requires Inv(s)
    ensures forall i | 0 <= i < |s.Q(Ready(p))| ::
              var n := s.Q(Ready(p))[i];
              n.Thread? && n.t < THREAD_STRUCTS && s.In(n, Ready(p)) && Quantum(s, n) > 0 && Live(s, p)
  {
    forall i | 0 <= i < |s.Q(Ready(p))|
      ensures var n := s.Q(Ready(p))[i];
              n.Thread? && n.t < THREAD_STRUCTS && s.In(n, Ready(p)) && Quantum(s, n) > 0 && Live(s, p)
    {
      QueuedAt(s, Ready(p), i);
    }
  }

  lemma KeptQuanta(s: Sched, s': Sched, p: nat, k: nat)
    requires Inv(s) && QuantaKept(s, s') && k <= |s.Q(Ready(p))|
    ensures Quanta(s', s.Q(Ready(p))[..k]) == Quanta(s, s.Q(Ready(p))[..k])
  {
    ReadyThreads(s, p);
    SameQuanta(s, s', s.Q(Ready(p))[..k]);
  }

  lemma TurnUnchanged(s: Sched, s': Sched, p: nat, k: nat, t: nat)
    requires Inv(s) && Queued(s, p, k, t) && Continues(s, s')
    ensures Nearer(s, s', p, k, t, 0)
  {
    ReadyThreads(s, p);
    assert s.Q(Ready(p)) <= s'.Q(Ready(p));
    assert s'.Q(Ready(p))[..k] == s.Q(Ready(p))[..k];
    KeptQuanta(s, s', p, k);
  }

  /** The head of a ready list took over: those behind it move up by one. */
  lemma MovedUp(s: Sched, s': Sched, p: nat, k: nat, t: nat)
    requires Inv(s) && QuantaKept(s, s') && Queued(s, p, k, t) && s'.Proc() == p
    requires s.Q(Ready(p)) <= [Thread(s'.current)] + s'.Q(Ready(p))
    requires s'.remT == s'.threads[s'.current].quantum
    ensures k == 0 ==> s'.current == t
    ensures k > 0 ==> Queued(s', p, k - 1, t) && Turn(s', p, k - 1) == Quanta(s, s.Q(Ready(p))[..k])
  {
    var q, q' := s.Q(Ready(p)), s'.Q(Ready(p));
    assert q == ([Thread(s'.current)] + q')[..|q|];
    if k > 0 {
      assert q[..k] == [Thread(s'.current)] + q'[..k - 1];
      KeptQuanta(s, s', p, k);
      assert q[..k][1..] == q'[..k - 1];
    }
  }

  /** A thread switch inside the process saves its waiting threads what was left of the
      running thread's quantum. */
  lemma TurnAfterThreadSwitch(s: Sched, s': Sched, p: nat, k: nat, t: nat)
    requires Inv(s) && Queued(s, p, k, t) && SwitchesThread(s, s')
    ensures Nearer(s, s', p, k, t, if p == s.Proc() then s.remT else 0)
  {
    if p == s.Proc() {
      MovedUp(s, s', p, k, t);
    } else {
      KeptQuanta(s, s', p, k);
    }
  }

  /** A process switch costs nobody anything. */
  lemma TurnAfterProcessSwitch(s: Sched, s': Sched, p: nat, k: nat, t: nat)
    requires Inv(s) && Queued(s, p, k, t) && SwitchesProcess(s, s') && p != s.Proc()
    ensures Nearer(s, s', p, k, t, 0)
  {
    if p == s'.Proc() {
      MovedUp(s, s', p, k, t);
    } else {
      assert s'.Q(Ready(p)) == s.Q(Ready(p));
      KeptQuanta(s, s', p, k);
    }
  }

  /** A tick with a process switch rotates readyqueue and parks the thread that ran. */
  lemma TickRotates(s: Sched)
    requires Inv(s) && NeedsSched(Decremented(s)) == 1
    ensures Tick(s).Sized() && Tick(s).Proc() != s.Proc()
    ensures [Task(Tick(s).Proc())] + Tick(s).Q(ReadyTasks) == s.Q(ReadyTasks) + [Task(s.Proc())]
    ensures Tick(s).Q(Ready(s.Proc())) == s.Q(Ready(s.Proc())) + [Thread(s.current)]
  {
    var s1 := Decremented(s);
    SettledIgnoresQuanta(s, s1);
    ParkProcessAgrees(s1);
    ParkedProcessSwitches(s1);
    ParkProcessHead(s1);
    HeadNotRunning(s);
    Rotated(s, ParkProcess(s1), Tick(s));
  }

  lemma Rotated(s: Sched, s1: Sched, s': Sched)
    requires s.Sized() && Dispatched(s1, s') && s.Q(ReadyTasks) != []
    requires s1.Q(ReadyTasks) == s.Q(ReadyTasks) + [Task(s.Proc())] && s.Q(ReadyTasks)[0] != Task(s.Proc())
    requires s1.Q(Ready(s.Proc())) == s.Q(Ready(s.Proc())) + [Thread(s.current)]
    ensures s'.Proc() != s.Proc()
    ensures [Task(s'.Proc())] + s'.Q(ReadyTasks) == s.Q(ReadyTasks) + [Task(s.Proc())]
    ensures s'.Q(Ready(s.Proc())) == s.Q(Ready(s.Proc())) + [Thread(s.current)]
  {
    assert s1.Q(ReadyTasks)[0] == s.Q(ReadyTasks)[0];
  }

  lemma HeadNotRunning(s: Sched)
    requires Inv(s) && s.Q(ReadyTasks) != []
    ensures s.Q(ReadyTasks)[0] != Task(s.Proc())
  {
    ReadyMembers(s);
  }

  lemma ParkProcessHead(s: Sched)
    requires Settled(s) && s.Q(ReadyTasks) != []
    requires Shape(ParkProcess(s)) && Agrees(ParkProcess(s))
    ensures HeadTask(ParkProcess(s), ReadyTasks)
    ensures HeadThread(ParkProcess(s), Ready(FirstTask(ParkProcess(s), ReadyTasks)))
    ensures Dispatched(ParkProcess(s), NextProcess(ParkProcess(s)))
  {
    HeadOfReadyTasks(ParkProcess(s));
    NextProcessEffect(ParkProcess(s));
  }

  lemma TickTurn(s: Sched, p: nat, k: nat, t: nat)
    requires Inv(s) && Queued(s, p, k, t)
    ensures Tick(s).Sized() && Nearer(s, Tick(s), p, k, t, if p == s.Proc() then 1 else 0)
  {
    if NeedsSched(Decremented(s)) == 1 {
      TickSwitchesProcess(s);
      TickRotates(s);
      TickTurnAtProcessSwitch(s, Tick(s), p, k, t);
    } else if NeedsSched(Decremented(s)) == 2 {
      TickSwitchesThread(s);
      if p == s.Proc() {
        MovedUp(s, Tick(s), p, k, t);
      } else {
        KeptQuanta(s, Tick(s), p, k);
      }
    } else {
      KeptQuanta(s, Tick(s), p, k);
    }
  }

  /** A parked process keeps its ready list; what was left of the thread quantum is saved. */
  lemma ParkedTurn(s: Sched, s': Sched, p: nat, k: nat, t: nat)
    requires Inv(s) && Queued(s, p, k, t) && QuantaKept(s, s') && p == s.Proc() != s'.Proc()
    requires s.Q(Ready(p)) <= s'.Q(Ready(p))
    ensures Nearer(s, s', p, k, t, 1)
  {
    assert s'.Q(Ready(p))[..k] == s.Q(Ready(p))[..k];
    KeptQuanta(s, s', p, k);
  }

  lemma TickTurnAtProcessSwitch(s: Sched, s': Sched, p: nat, k: nat, t: nat)
    requires Inv(s) && Queued(s, p, k, t) && SwitchesProcess(Decremented(s), s')
    requires s.Q(Ready(s.Proc())) <= s'.Q(Ready(s.Proc()))
    ensures Nearer(s, s', p, k, t, if p == s.Proc() then 1 else 0)
  {
    assert QuantaKept(s, s');
    if p == s.Proc() {
      ParkedTurn(s, s', p, k, t);
    } else if p == s'.Proc() {
      MovedUp(s, s', p, k, t);
    } else {
      assert s'.Q(Ready(p)) == s.Q(Ready(p));
      KeptQuanta(s, s', p, k);
    }
  }

  /** No step but the exit of its own process ever sets a waiting thread back, and every
      tick its process runs brings it nearer. */
  lemma StepTurn(s: Sched, step: Step, p: nat, k: nat, t: nat)
    requires Inv(s) && Guard(s, step) && Queued(s, p, k, t)
    requires !(step.DoExit? && p == s.Proc())
    ensures Apply(s, step).Sized()
    ensures Nearer(s, Apply(s, step), p, k, t, if step.TimerTick? && p == s.Proc() then 1 else 0)
  {
    ApplyInv(s, step);
    match step
    case TimerTick => TickTurn(s, p, k, t);
    case DoExit =>
      ExitSwitchesProcess(s);
      TurnAfterProcessSwitch(s, Exit(s), p, k, t);
    case _ =>
      CallKind(s, step);
      if Continues(s, Apply(s, step)) {
        TurnUnchanged(s, Apply(s, step), p, k, t);
      } else {
        TurnAfterThreadSwitch(s, Apply(s, step), p, k, t);
      }
  }

  // ------------------------------------------------------------------ a bound in ticks

  /** The quanta of all processes that can run. */
  function Round(s: Sched): int
    requires s.Sized()
  {
    Quantum(s, Task(s.Proc())) + Quanta(s, s.Q(ReadyTasks))
  }

  ghost predicate RunsWithin(s: Sched, t: nat, n: nat)
    requires Inv(s)
    decreases n
  {
    s.current == t || (n > 0 && (TickInv(s); RunsWithin(Tick(s), t, n - 1)))
  }

  ghost predicate EverServed(s: Sched, t: nat)
    requires Inv(s)
  {
    exists n: nat :: RunsWithin(s, t, n)
  }

  lemma {:induction false} QuantaConcat(s: Sched, a: seq<Node>, b: seq<Node>)
    ensures Quanta(s, a + b) == Quanta(s, a) + Quanta(s, b)
  {
    if a == [] {
      assert a + b == b;
    } else {
      assert (a + b)[1..] == a[1..] + b;
      QuantaConcat(s, a[1..], b);
    }
  }

  /** Ticks move processes around readyqueue but leave the round as long as it was, and
      one that has just been parked waits less than a round. */
  lemma TickRound(s: Sched)
    requires Inv(s)
    ensures Tick(s).Sized() && Round(Tick(s)) == Round(s) > 0
    ensures Tick(s).Proc() != s.Proc() ==>
              var i := |s.Q(ReadyTasks)| - 1;
              i >= 0 && Waits(Tick(s), i, s.Proc()) && Wait(Tick(s), i) < Round(s)
  {
    ReadyMembers(s);
    PositiveQuanta(s, s.Q(ReadyTasks));
    if NeedsSched(Decremented(s)) == 1 {
      TickSwitchesProcess(s);
      RotatedRound(s, Tick(s));
    } else {
      TickKeepsRound(s);
    }
  }

  lemma TickKeepsRound(s: Sched)
    requires Inv(s) && NeedsSched(Decremented(s)) != 1
    ensures Tick(s).Sized() && Tick(s).Proc() == s.Proc() && Round(Tick(s)) == Round(s)
  {
    var s' := TickWithinProcess(s);
    RoundKept(s, s');
  }

  lemma TickWithinProcess(s: Sched) returns (s': Sched)
    requires Inv(s) && NeedsSched(Decremented(s)) != 1
    ensures s' == Tick(s) && QuantaKept(s, s') && s'.Proc() == s.Proc() && s'.Q(ReadyTasks) == s.Q(ReadyTasks)
  {
    s' := Tick(s);
    if NeedsSched(Decremented(s)) == 2 {
      TickSwitchesThread(s);
    }
  }

  lemma RoundKept(s: Sched, s': Sched)
    requires Inv(s) && QuantaKept(s, s') && s'.Proc() == s.Proc() && s'.Q(ReadyTasks) == s.Q(ReadyTasks)
    ensures Round(s') == Round(s)
  {
    ReadyMembers(s);
    SameQuanta(s, s', s.Q(ReadyTasks));
  }

  lemma RotatedRound(s: Sched, s': Sched)
    requires Inv(s) && NeedsSched(Decremented(s)) == 1 && s' == Tick(s)
    requires SwitchesProcess(Decremented(s), s')
    ensures Round(s') == Round(s)
    ensures var i := |s.Q(ReadyTasks)| - 1;
            i >= 0 && Waits(s', i, s.Proc()) && Wait(s', i) < Round(s)
  {
    TickRotates(s);
    RotatedSums(s, s');
  }

  lemma RotatedSums(s: Sched, s': Sched)
    requires Inv(s) && s'.Sized() && QuantaKept(s, s') && s.Q(ReadyTasks) != []
    requires [Task(s'.Proc())] + s'.Q(ReadyTasks) == s.Q(ReadyTasks) + [Task(s.Proc())]
    requires s'.Proc() < NR_TASKS && s'.remP == s'.tasks[s'.Proc()].quantum
    ensures Round(s') == Round(s)
    ensures var i := |s.Q(ReadyTasks)| - 1;
            i >= 0 && Waits(s', i, s.Proc()) && Wait(s', i) < Round(s)
  {
    var q, q', mine := s.Q(ReadyTasks), s'.Q(ReadyTasks), [Task(s.Proc())];
    var i := |q| - 1;
    assert |[Task(s'.Proc())] + q'| == |q + mine|;
    assert q' == ([Task(s'.Proc())] + q')[1..] == (q + mine)[1..] == q[1..] + mine;
    assert q[0] == (q + mine)[0] == Task(s'.Proc());
    assert q'[..i] == q[1..];
    ReadyMembers(s);
    KeptTaskQuanta(s, s', |q|);
    assert q[..|q|] == q;
    QuantaConcat(s', q[1..], mine);
    assert Quanta(s', mine) == Quantum(s', Task(s.Proc())) == Quantum(s, Task(s.Proc()));
  }

  /** One tick, as seen by the waiting thread. */
  lemma TickForThread(s: Sched, p: nat, k: nat, t: nat, n: nat) returns (s': Sched, k': nat)
    requires Inv(s) && Queued(s, p, k, t) && n > 0
    ensures Inv(s') && (RunsWithin(s', t, n - 1) ==> RunsWithin(s, t, n))
    ensures Round(s') == Round(s) > 0
    ensures s'.current == t || (Queued(s', p, k', t) && Turn(s', p, k') + (if p == s.Proc() then 1 else 0) <= Turn(s, p, k))
    ensures p == s.Proc() != s'.Proc() ==>
              var i := |s.Q(ReadyTasks)| - 1;
              i >= 0 && s'.remP > 0 && Waits(s', i, p) && Wait(s', i) < Round(s)
    ensures forall i: nat | Waits(s, i, p) && s.remP > 0 :: s'.remP > 0 && OneTickNearer(s, s', i, p)
  {
    TickInv(s);
    TickTurn(s, p, k, t);
    TickRound(s);
    s' := Tick(s);
    if s'.Proc() != s.Proc() {
      TickRestart(s);
    }
    forall i: nat | Waits(s, i, p) && s.remP > 0
      ensures s'.remP > 0 && OneTickNearer(s, s', i, p)
    {
      TickWait(s, i, p);
    }
    k' := NextIndex(s, s', p, k, t, if p == s.Proc() then 1 else 0);
  }

  lemma NextIndex(s: Sched, s': Sched, p: nat, k: nat, t: nat, d: nat) returns (k': nat)
    requires s.Sized() && s'.Sized() && Queued(s, p, k, t) && Nearer(s, s', p, k, t, d)
    ensures s'.current == t || (Queued(s', p, k', t) && Turn(s', p, k') + d <= Turn(s, p, k))
  {
    if s'.current == t || (Queued(s', p, k, t) && Turn(s', p, k) + d <= Turn(s, p, k)) {
      k' := k;
    } else {
      k' := k - 1;
    }
  }

  /** `n` ticks are enough for so many rounds and `wait` ticks more. */
  predicate Enough(turn: int, r: int, wait: int, n: int) {
    turn * r + wait <= n
  }

  lemma EnoughIsSome(turn: int, r: int, wait: int, n: int)
    requires Enough(turn, r, wait, n) && turn >= 0 && wait >= 0 && r > 0 && (turn > 0 || wait > 0)
    ensures n > 0
  {
    RoundsNoMore(if turn > 0 then 1 else 0, turn, r);
  }

  /** A tick of the own process is worth a round, in which it may wait. */
  lemma TurnNearer(turn': int, turn: int, r: int, wait: int, n: int)
    requires Enough(turn, r, 0, n) && turn' + 1 <= turn && r > 0 && wait < r
    ensures Enough(turn', r, wait, n - 1)
  {
    assert (turn' + 1) * r <= turn * r;
  }

  lemma WaitNearer(turn': int, turn: int, r: int, wait: int, n: int)
    requires Enough(turn, r, wait, n) && turn' <= turn && r > 0
    ensures Enough(turn', r, wait - 1, n - 1)
    ensures wait > 0 ==> Enough(turn', r, 0, n - 1)
  {
    RoundsNoMore(turn', turn, r);
  }

  lemma TurnPositive(s: Sched, p: nat, k: nat)
    requires Inv(s) && k <= |s.Q(Ready(p))|
    ensures Turn(s, p, k) >= if p == s.Proc() then 1 else 0
  {
    ReadyThreads(s, p);
    PositiveQuanta(s, s.Q(Ready(p))[..k]);
  }

  /** A process switch starts the next process with a full quantum. */
  lemma TickRestart(s: Sched)
    requires Inv(s) && Tick(s).Sized() && Tick(s).Proc() != s.Proc()
    ensures Tick(s).remP > 0
  {
    TickInv(s);
    if NeedsSched(Decremented(s)) == 1 {
      TickSwitchesProcess(s);
    } else if NeedsSched(Decremented(s)) == 2 {
      TickSwitchesThread(s);
    }
  }

  lemma RunsAtOnce(s: Sched, t: nat, n: nat)
    requires Inv(s) && s.current == t
    ensures RunsWithin(s, t, n)
  {
  }

  /** There are ticks enough for the thread at index `k`: for its turn in rounds, and for the
      wait of its process, at index `i`, if that does not run. */
  predicate EnoughFor(s: Sched, p: nat, k: nat, t: nat, i: nat, n: int)
    requires s.Sized()
  {
    && Queued(s, p, k, t) && Round(s) > 0
    && if p == s.Proc() then Enough(Turn(s, p, k), Round(s), 0, n)
       else Waits(s, i, p) && s.remP > 0 && Enough(Turn(s, p, k), Round(s), Wait(s, i), n)
  }

  /** A tick later there are enough still. */
  lemma EnoughAfterTick(s: Sched, p: nat, k: nat, t: nat, i: nat, n: nat) returns (s': Sched, k': nat, i': nat)
    requires Inv(s) && EnoughFor(s, p, k, t, i, n)
    ensures n > 0 && Inv(s') && (RunsWithin(s', t, n - 1) ==> RunsWithin(s, t, n))
    ensures s'.current == t || EnoughFor(s', p, k', t, i', n - 1)
  {
    if p == s.Proc() {
      s', k', i' := EnoughForRunning(s, p, k, t, i, n);
    } else {
      s', k', i' := EnoughForWaiting(s, p, k, t, i, n);
    }
  }

  lemma EnoughForRunning(s: Sched, p: nat, k: nat, t: nat, i: nat, n: nat) returns (s': Sched, k': nat, i': nat)
    requires Inv(s) && EnoughFor(s, p, k, t, i, n) && p == s.Proc()
    ensures n > 0 && Inv(s') && (RunsWithin(s', t, n - 1) ==> RunsWithin(s, t, n))
    ensures s'.current == t || EnoughFor(s', p, k', t, i', n - 1)
  {
    TurnPositive(s, p, k);
    EnoughIsSome(Turn(s, p, k), Round(s), 0, n);
    s', k' := TickForThread(s, p, k, t, n);
    i' := 0;
    if s'.current != t {
      if s'.Proc() == p {
        TurnNearer(Turn(s', p, k'), Turn(s, p, k), Round(s), 0, n);
      } else {
        i' := |s.Q(ReadyTasks)| - 1;
        TurnNearer(Turn(s', p, k'), Turn(s, p, k), Round(s), Wait(s', i'), n);
      }
    }
  }

  lemma EnoughForWaiting(s: Sched, p: nat, k: nat, t: nat, i: nat, n: nat) returns (s': Sched, k': nat, i': nat)
    requires Inv(s) && EnoughFor(s, p, k, t, i, n) && p != s.Proc()
    ensures n > 0 && Inv(s') && (RunsWithin(s', t, n - 1) ==> RunsWithin(s, t, n))
    ensures s'.current == t || EnoughFor(s', p, k', t, i', n - 1)
  {
    WaitPositive(s, i, p);
    TurnPositive(s, p, k);
    EnoughIsSome(Turn(s, p, k), Round(s), Wait(s, i), n);
    s', k' := TickForThread(s, p, k, t, n);
    i' := if s.remP == 1 && i > 0 then i - 1 else i;
    if s'.current != t {
      assert OneTickNearer(s, s', i, p);
      WaitNearer(Turn(s', p, k'), Turn(s, p, k), Round(s), Wait(s, i), n);
    }
  }

  lemma {:induction false} EnoughServes(s: Sched, p: nat, k: nat, t: nat, i: nat, n: nat)
    requires Inv(s) && EnoughFor(s, p, k, t, i, n)
    ensures RunsWithin(s, t, n)
    decreases n
  {
    var s', k', i' := EnoughAfterTick(s, p, k, t, i, n);
    if s'.current == t {
      RunsAtOnce(s', t, n - 1);
    } else {
      EnoughServes(s', p, k', t, i', n - 1);
    }
  }

  lemma RoundsNoMore(turn': int, turn: int, r: int)
    requires turn' <= turn && r > 0
    ensures turn' * r <= turn * r
  {
  }

  /** Ticks leave every thread with its process. */
  lemma TickKeepsProcesses(s: Sched)
    requires Inv(s)
    ensures Tick(s).Sized()
    ensures forall x | 0 <= x < THREAD_STRUCTS :: Tick(s).threads[x].task == s.threads[x].task
  {
    var s1 := Decremented(s);
    SettledIgnoresQuanta(s, s1);
    if NeedsSched(s1) == 1 {
      SwitchKeepsProcesses(s1);
    } else if NeedsSched(s1) == 2 {
      ThreadSwitchKeepsProcesses(s1);
    }
  }

  lemma ThreadSwitchKeepsProcesses(s: Sched)
    requires Settled(s)
    ensures HeadThread(ParkInReady(s), Ready(ParkInReady(s).Proc()))
    ensures var s' := NextThread(ParkInReady(s));
            s'.Sized() && forall x | 0 <= x < THREAD_STRUCTS :: s'.threads[x].task == s.threads[x].task
  {
    var s1 := ParkedInReady(s);
    NextThreadEffect(s1);
  }

  lemma SwitchKeepsProcesses(s: Sched)
    requires Settled(s) && s.Q(ReadyTasks) != []
    ensures HeadTask(ParkProcess(s), ReadyTasks) && HeadThread(ParkProcess(s), Ready(FirstTask(ParkProcess(s), ReadyTasks)))
    ensures var s' := NextProcess(ParkProcess(s));
            s'.Sized() && forall x | 0 <= x < THREAD_STRUCTS :: s'.threads[x].task == s.threads[x].task
  {
    ParkProcessEffect(s);
    var s1 := ParkedWithProcess(s);
    NextProcessStructs(s1);
  }

  lemma {:induction false} NeverServed(s: Sched, t: nat, n: nat)
    requires Inv(s) && s.remP <= 0 && t < THREAD_STRUCTS && s.threads[t].task != s.Proc()
    ensures !RunsWithin(s, t, n)
    decreases n
  {
    if n > 0 {
      TickInv(s);
      TickAfterLoss(s);
      TickKeepsProcesses(s);
      NeverServed(Tick(s), t, n - 1);
    }
  }

  /** Unless the process quantum was lost with another process running, the thread runs
      within its turn, counted in rounds, plus its process's wait. */
  lemma ServedWithin(s: Sched, p: nat, k: nat, t: nat, i: nat) returns (n: nat)
    requires Inv(s) && Queued(s, p, k, t)
    requires p == s.Proc() || (Waits(s, i, p) && s.remP > 0)
    ensures n == Turn(s, p, k) * Round(s) + (if p == s.Proc() then 0 else Wait(s, i))
    ensures RunsWithin(s, t, n)
  {
    RoundPositive(s);
    TurnPositive(s, p, k);
    RoundsNoMore(0, Turn(s, p, k), Round(s));
    if p == s.Proc() {
      n := Turn(s, p, k) * Round(s);
      EnoughServes(s, p, k, t, i, n);
    } else {
      WaitPositive(s, i, p);
      n := Turn(s, p, k) * Round(s) + Wait(s, i);
      EnoughServes(s, p, k, t, i, n);
    }
  }

  /** The timer ever serves a ready thread exactly when its process is running, or will run
      because the process quantum has not been lost. */
  lemma ThreadServedIff(s: Sched, p: nat, k: nat, t: nat, i: nat)
    requires Inv(s) && Queued(s, p, k, t)
    requires p == s.Proc() || Waits(s, i, p)
    ensures EverServed(s, t) <==> p == s.Proc() || s.remP > 0
  {
    if p == s.Proc() || s.remP > 0 {
      var n := ServedWithin(s, p, k, t, i);
      assert EverServed(s, t);
    } else {
      QueuedThread(s, p, k, t);
      forall n: nat
        ensures !RunsWithin(s, t, n)
      {
        NeverServed(s, t, n);
      }
    }
  }

  lemma RoundPositive(s: Sched)
    requires Inv(s)
    ensures Round(s) > 0
  {
    ReadyMembers(s);
    PositiveQuanta(s, s.Q(ReadyTasks));
  }

  lemma QueuedThread(s: Sched, p: nat, k: nat, t: nat)
    requires Inv(s) && Queued(s, p, k, t)
    ensures t < THREAD_STRUCTS && s.threads[t].task == p
  {
    ReadyThreads(s, p);
    assert ThreadAgrees(s, t);
  }
}
