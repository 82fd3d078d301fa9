/** When the timer alone gets everyone their turn, and when it does not. */
module Starvation {
  import opened Rings
  import opened Scheduling
  import opened Agreement
  import opened Steps
  import opened Boot
  import opened Switching
  import opened Timing

  function Ticked(s: Sched, n: nat): (s': Sched)
    requires Inv(s)
    ensures Inv(s')
    decreases n
  {
    if n == 0 then s
    else
      TickInv(s);
      Ticked(Tick(s), n - 1)
  }

  /** The single way the process quantum is lost: both quanta run out in the same tick, no
      other process is ready, and another thread is. */
  lemma QuantumLostIff(s: Sched)
    requires Inv(s) && s.remP > 0
    ensures Tick(s).remP <= 0 <==>
              s.remP == 1 && s.remT == 1 && s.Q(ReadyTasks) == [] && s.Q(Ready(s.Proc())) != []
  {
    var s1 := Decremented(s);
    if NeedsSched(s1) == 1 {
      ReadyMembers(s);
      assert Quantum(s, s.Q(ReadyTasks)[0]) > 0;
      TickSwitchesProcess(s);
    } else if NeedsSched(s1) == 2 {
      TickSwitchesThread(s);
    }
  }

  /** Once lost, the process quantum never comes back by ticks. */
  lemma {:induction false} LostQuantum(s: Sched, n: nat)
    requires Inv(s) && s.remP <= 0
    ensures Ticked(s, n).Proc() == s.Proc() && Ticked(s, n).remP == s.remP - n
    decreases n
  {
    if n > 0 {
      TickAfterLoss(s);
      TickInv(s);
      LostQuantum(Tick(s), n - 1);
    }
  }

  lemma {:induction false} TickedWait(s: Sched, i: nat, p: nat, w: nat)
    requires Inv(s) && Waits(s, i, p) && s.remP > 0 && w == Wait(s, i)
    ensures Ticked(s, w).Proc() == p
    decreases w
  {
    TickWait(s, i, p);
    TickInv(s);
    WaitPositive(s, i, p);
    if w > 1 {
      TickedWait(Tick(s), if s.remP == 1 then i - 1 else i, p, w - 1);
    }
  }

  lemma WaitPositive(s: Sched, i: nat, p: nat)
    requires Inv(s) && Waits(s, i, p) && s.remP > 0
    ensures Wait(s, i) > 0
  {
    ReadyMembers(s);
    PositiveQuanta(s, s.Q(ReadyTasks)[..i]);
  }

  /** A ready process is ever dispatched by the timer exactly when the process quantum
      has not been lost. */
  lemma ProcessServedIff(s: Sched, i: nat, p: nat)
    requires Inv(s) && Waits(s, i, p)
    ensures (exists n: nat :: Ticked(s, n).Proc() == p) <==> s.remP > 0
  {
    ReadyMembers(s);
    if s.remP > 0 {
      WaitPositive(s, i, p);
      TickedWait(s, i, p, Wait(s, i));
    } else {
      forall n: nat
        ensures Ticked(s, n).Proc() != p
      {
        LostQuantum(s, n);
      }
    }
  }

  // ------------------------------------------------------------------ losing it from boot

  /** One process with two threads of the default quanta, and room to fork. */
  ghost predicate LonePair(s: Sched) {
    && Inv(s) && s.Proc() == 1 && s.Q(ReadyTasks) == []
    && |s.Q(Ready(1))| == 1 && HeadThread(s, Ready(1))
    && s.threads[FirstThread(s, Ready(1))].quantum == DEFAULT_QUANTUM_T
    && s.threads[s.current].quantum == DEFAULT_QUANTUM_T
    && s.Q(FreeTasks) != [] && s.Q(FreeThreads) != []
  }

  /** Nothing happens while neither quantum runs out. */
  lemma {:induction false} QuietTicks(s: Sched, n: nat)
    requires Inv(s) && n < s.remT && n < s.remP
    ensures Ticked(s, n) == s.(remT := s.remT - n, remP := s.remP - n)
    decreases n
  {
    if n > 0 {
      TickInv(s);
      assert Tick(s) == Decremented(s);
      QuietTicks(Tick(s), n - 1);
    }
  }

  lemma LonePairSwitch(s: Sched)
    requires LonePair(s) && s.remT == 1
    ensures LonePair(Tick(s)) && Tick(s).remT == DEFAULT_QUANTUM_T && Tick(s).remP == s.remP - 1
  {
    TickInv(s);
    var s1 := ParkedAtTick(s);
    LonePairParked(s, s1, Tick(s));
  }

  /** A tick that switches threads, seen from between the parking and the dispatch. */
  lemma ParkedAtTick(s: Sched) returns (s1: Sched)
    requires Inv(s) && NeedsSched(Decremented(s)) == 2
    ensures Shape(s1) && s1.Proc() == s.Proc() && HeadThread(s1, Ready(s.Proc()))
    ensures s1.threads[FirstThread(s1, Ready(s.Proc()))].state != Running
    ensures s1.threads[FirstThread(s1, Ready(s.Proc()))].task == s.Proc()
    ensures forall q :: s1.Q(q) == if q == Ready(s.Proc()) then s.Q(q) + [Thread(s.current)] else s.Q(q)
    ensures forall t | 0 <= t < THREAD_STRUCTS :: s1.threads[t].quantum == s.threads[t].quantum
    ensures s1.remP == s.remP - 1
    ensures Tick(s) == NextThread(s1)
  {
    var d := Decremented(s);
    SettledIgnoresQuanta(s, d);
    ParkInReadyAgrees(d);
    s1 := ParkInReady(d);
    HeadOfReady(s1, s.Proc());
  }

  lemma LonePairParked(s: Sched, s1: Sched, s': Sched)
    requires LonePair(s) && Shape(s1) && s1.Proc() == 1 && Inv(s')
    requires HeadThread(s1, Ready(1)) && s1.threads[FirstThread(s1, Ready(1))].state != Running
    requires s1.threads[FirstThread(s1, Ready(1))].task == 1
    requires forall q :: s1.Q(q) == if q == Ready(1) then s.Q(q) + [Thread(s.current)] else s.Q(q)
    requires forall t | 0 <= t < THREAD_STRUCTS :: s1.threads[t].quantum == s.threads[t].quantum
    requires s1.remP == s.remP - 1
    requires s' == NextThread(s1)
    ensures LonePair(s') && s'.remT == DEFAULT_QUANTUM_T && s'.remP == s.remP - 1
  {
    NextThreadEffect(s1);
    LonePairSwaps(s, s1, s');
  }

  lemma LonePairSwaps(s: Sched, s1: Sched, s': Sched)
    requires LonePair(s) && s1.Sized() && Inv(s') && s'.Proc() == 1
    requires forall q :: s1.Q(q) == if q == Ready(1) then s.Q(q) + [Thread(s.current)] else s.Q(q)
    requires s1.Q(Ready(1)) == [Thread(s'.current)] + s'.Q(Ready(1))
    requires forall h | h != Ready(1) :: s'.Q(h) == s1.Q(h)
    requires forall t | 0 <= t < THREAD_STRUCTS :: s'.threads[t].quantum == s.threads[t].quantum
    ensures LonePair(s') && s'.current == FirstThread(s, Ready(1))
  {
    assert s1.Q(Ready(1))[1] == Thread(s.current);
    assert s'.Q(Ready(1))[0] == s1.Q(Ready(1))[1];
    assert s1.Q(Ready(1))[0] == s.Q(Ready(1))[0];
    HeadOfReady(s', 1);
  }

  ghost function TenTicked(s: Sched): (s': Sched)
    requires Inv(s)
    ensures Inv(s')
  {
    TickInv(Ticked(s, 9));
    Tick(Ticked(s, 9))
  }

  /** Ten ticks of a lone pair: nine quiet ones and a thread switch. */
  lemma TenTicks(s: Sched)
    requires LonePair(s) && s.remT == DEFAULT_QUANTUM_T && s.remP >= DEFAULT_QUANTUM_T
    ensures var s' := TenTicked(s);
            LonePair(s') && s'.remT == DEFAULT_QUANTUM_T && s'.remP == s.remP - 10
  {
    QuietTicks(s, 9);
    assert HeadThread(Ticked(s, 9), Ready(1));
    LonePairSwitch(Ticked(s, 9));
  }

  /** A process alone with its one thread creates a second. */
  lemma PairOfCreate(s: Sched)
    requires Inv(s) && s.Proc() == 1 && s.Q(ReadyTasks) == [] && s.Q(Ready(1)) == []
    requires s.Q(FreeTasks) != [] && |s.Q(FreeThreads)| >= 2
    requires s.threads[s.current].quantum == DEFAULT_QUANTUM_T
    ensures var s' := Create(s, true).0;
            LonePair(s') && s'.remT == s.remT && s'.remP == s.remP
  {
    HeadOfFreeThreads(s);
    CreateInv(s, true);
    MovedQueues(s, FreeThreads, Ready(1));
    HeadOfReady(Create(s, true).0, 1);
  }

  /** From boot: task 1 creates a thread and forks twenty ticks later. Its child is ready
      and the timer never dispatches it. */
  lemma ChildNeverServed(s: Sched) returns (s1: Sched, s2: Sched, s3: Sched, child: nat)
    requires Booted(s)
    ensures Inv(s) && s1 == Create(s, true).0
    ensures Inv(s1) && s2 == TenTicked(TenTicked(s1))
    ensures Inv(s2) && s3 == Fork(s2, true).0
    ensures Inv(s3) && Waits(s3, 0, child)
    ensures forall k: nat :: Ticked(s3, k).Proc() != child
  {
    BootInv(s);
    PairOfCreate(s);
    s1 := Create(s, true).0;
    TenTicks(s1);
    TenTicks(TenTicked(s1));
    s2 := TenTicked(TenTicked(s1));
    s3, child := ForkOfLostQuantum(s2);
  }

  lemma ForkOfLostQuantum(s: Sched) returns (s': Sched, child: nat)
    requires LonePair(s) && s.remP == 0
    ensures s' == Fork(s, true).0
    ensures Inv(s') && Waits(s', 0, child)
    ensures forall n: nat :: Ticked(s', n).Proc() != child
  {
    ForkInv(s, true);
    TakenWellFormed(s);
    HeadOfFreeTasks(s);
    s', child := Fork(s, true).0, FirstTask(s, FreeTasks);
    assert s'.Q(ReadyTasks) == s.Q(ReadyTasks) + [Task(child)];
    ProcessServedIff(s', 0, child);
  }
}
