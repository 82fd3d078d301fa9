/** First dispatches, scheduler and stack machine together: whatever happens in between, a
    forked child starts from its parent's user state and a created thread at its start
    routine. */
module FirstRuns {
  import opened Options
  import opened Rings
  import opened Scheduling
  import opened Agreement
  import opened Steps
  import opened Runs
  import opened Boot
  import opened Reachable
  import opened Identities
  import opened Dispatches
  import opened Timing
  import opened ThreadTurns
  import opened ThreadRuns
  import opened Machine
  import opened Contexts
  import opened Interleaving

  // ------------------------------------------------------------------ it waits until it runs

  /** A thread that is first in a process that does not run stays so until it runs. */
  lemma FirstStaysFirst(s: Sched, step: Step, s': Sched, p: nat, t: nat)
    requires IsStep(s, step, s') && Inv(s') && Queued(s, p, 0, t) && s.Proc() != p && s'.current != t
    ensures Queued(s', p, 0, t) && s'.Proc() != p
  {
    var k' := OneStep(s, step, s', p, 0, t);
    assert Turn(s, p, 0) == 0;
    TurnAtLeast(s', p, k');
  }

  lemma TurnAtLeast(s: Sched, p: nat, k: nat)
    requires Inv(s) && k <= |s.Q(Ready(p))|
    ensures Turn(s, p, k) >= (if p == s.Proc() then 1 else 0) + k
  {
    ReadyThreads(s, p);
    PositiveQuanta(s, s.Q(Ready(p))[..k]);
  }

  /** `t` runs in none of the states `a` to `n`. */
  predicate NotRun(ks: seq<Sched>, t: nat, a: nat, n: nat) {
    forall m | a <= m <= n :: !RunsAt(ks, t, m)
  }

  /** First in a process that does not run. */
  predicate First(s: Sched, p: nat, t: nat) {
    s.Sized() && Queued(s, p, 0, t) && s.Proc() != p
  }

  lemma FirstWaits(ks: seq<Sched>, steps: seq<Step>, p: nat, t: nat, a: nat, n: nat)
    requires Trace(ks, steps) && a <= n <= |steps| && NotRun(ks, t, a, n) && First(ks[a], p, t)
    ensures First(ks[n], p, t)
  {
    forall m: nat | m < |steps|
      ensures StillFirst(ks[m], ks[m + 1], p, t)
    {
      if First(ks[m], p, t) && ks[m + 1].current != t {
        FirstWaitsOnce(ks, steps, p, t, m);
      }
    }
    FirstOverRun(ks, p, t, a, n);
  }

  predicate StillFirst(s: Sched, s': Sched, p: nat, t: nat) {
    First(s, p, t) && s'.current != t ==> First(s', p, t)
  }

  lemma {:induction false} FirstOverRun(ks: seq<Sched>, p: nat, t: nat, a: nat, n: nat)
    requires forall m: nat | m + 1 < |ks| :: StillFirst(ks[m], ks[m + 1], p, t)
    requires a <= n < |ks| && NotRun(ks, t, a, n) && First(ks[a], p, t)
    ensures First(ks[n], p, t)
    decreases n
  {
    if n > a {
      FirstOverRun(ks, p, t, a, n - 1);
      assert !RunsAt(ks, t, n) && StillFirst(ks[n - 1], ks[n - 1 + 1], p, t);
    }
  }

  lemma FirstWaitsOnce(ks: seq<Sched>, steps: seq<Step>, p: nat, t: nat, n: nat)
    requires Trace(ks, steps) && n < |steps| && ks[n + 1].current != t
    requires First(ks[n], p, t)
    ensures First(ks[n + 1], p, t)
  {
    TraceKeepsInv(ks, steps, n + 1);
    assert IsStep(ks[n], steps[n], ks[n + 1]);
    FirstStaysFirst(ks[n], steps[n], ks[n + 1], p, t);
  }

  lemma {:induction false} ThreadWaits(ks: seq<Sched>, steps: seq<Step>, p: nat, k: nat, t: nat, a: nat, n: nat) returns (k': nat)
    requires Trace(ks, steps) && a <= n <= |steps| && NotRun(ks, t, a, n)
    requires ks[a].Sized() && Queued(ks[a], p, k, t)
    requires forall m | a <= m < n :: !ExitAt(ks, steps, p, m)
    ensures Queued(ks[n], p, k', t)
    decreases n
  {
    if n == a {
      k' := k;
    } else {
      k' := ThreadWaits(ks, steps, p, k, t, a, n - 1);
      assert !ExitAt(ks, steps, p, n - 1) && !RunsAt(ks, t, n);
      k' := OneStepAt(ks, steps, n - 1, p, k', t);
    }
  }

  lemma QueuedIsMember(s: Sched, p: nat, k: nat, t: nat)
    requires Inv(s) && Queued(s, p, k, t)
    ensures Member(s, t)
  {
    ReadyThreads(s, p);
    assert s.In(s.Q(Ready(p))[k], Ready(p));
  }

  // ------------------------------------------------------------------ and keeps its page

  /** Step i has prepared thread `c`, and up to step j it is some process's and does not run. */
  ghost predicate Pending(ks: seq<Sched>, i: nat, j: nat, c: nat) {
    i < j < |ks| && forall m | i < m <= j :: Member(ks[m], c) && ks[m].current != c
  }

  lemma PendingUntouched(ks: seq<Sched>, steps: seq<Step>, ms: seq<State>, acts: seq<Action>, i: nat, j: nat, c: nat, ctx: Context,
                         a: nat, b: nat)
    requires Realises(ks, steps, ms, acts) && Pending(ks, i, j, c) && j < |steps| && acts[2 * i + 1] == Fabricate(c, ctx)
    requires a == 2 * i + 1 && b == 2 * j + 1
    ensures Untouched(ms, acts, a, b, c, ctx)
  {
    forall n: nat | a < n < b
      ensures ms[n].cur != c && !Overwrites(acts[n], c)
    {
      LeftAlone(ks, steps, ms, acts, n / 2, c);
      assert n == 2 * (n / 2) || n == 2 * (n / 2) + 1;
    }
  }

  /** Neither action of a step touches the page of somebody who is pending. */
  lemma LeftAlone(ks: seq<Sched>, steps: seq<Step>, ms: seq<State>, acts: seq<Action>, m: nat, c: nat)
    requires Realises(ks, steps, ms, acts) && m < |steps| && Member(ks[m], c) && ks[m].current != c
    ensures ms[2 * m].cur != c && !Overwrites(acts[2 * m], c)
    ensures ms[2 * m + 1].cur != c && !Overwrites(acts[2 * m + 1], c)
  {
    assert IsStep(ks[m], steps[m], ks[m + 1]) && RunsThread(ks[m], ms[2 * m]);
    ComputeKeeps(ms, acts, 2 * m);
    FirstFreeIsNoMember(ks[m]);
  }

  lemma ChangesAt(ks: seq<Sched>, steps: seq<Step>, j: nat)
    requires Trace(ks, steps) && j < |steps| && ks[j].current != ks[j + 1].current
    ensures SwitchesAt(ks, steps, j)
  {
    assert IsStep(ks[j], steps[j], ks[j + 1]);
    DispatchesItselfIff(ks[j], steps[j]);
  }

  // ------------------------------------------------------------------ first dispatches

  /** Step i is a fork that succeeds. */
  predicate ForksAt(ks: seq<Sched>, steps: seq<Step>, i: nat) {
    i < |ks| && i < |steps| && steps[i] == DoFork(true) && CanFork(ks[i])
  }

  /** Step i is a pthread_create that succeeds. */
  predicate CreatesAt(ks: seq<Sched>, steps: seq<Step>, i: nat) {
    i < |ks| && i < |steps| && ks[i].Sized() && steps[i] == DoCreate(true) && ks[i].Q(FreeThreads) != []
  }

  lemma PreparesFirstFree(ks: seq<Sched>, steps: seq<Step>, ms: seq<State>, acts: seq<Action>, i: nat)
    requires Realises(ks, steps, ms, acts) && (ForksAt(ks, steps, i) || CreatesAt(ks, steps, i))
    ensures acts[2 * i + 1].Fabricate? && IsFirstFree(ks[i], acts[2 * i + 1].child)
  {
    assert IsStep(ks[i], steps[i], ks[i + 1]);
  }

  /** Step i prepares thread `c` with `ctx`, and step j dispatches it for the first time. */
  ghost predicate FirstDispatch(ks: seq<Sched>, steps: seq<Step>, acts: seq<Action>, i: nat, j: nat, c: nat, ctx: Context) {
    && i < j < |steps| && |ks| == |steps| + 1 && |acts| == 2 * |steps|
    && acts[2 * i + 1] == Fabricate(c, ctx)
    && NotRun(ks, c, i + 1, j) && RunsAt(ks, c, j + 1)
  }

  /** Over every run from boot without lone yields: the first dispatch of a forked child's
      thread, whenever it comes, goes to ret_from_fork, and from there to user mode in its
      parent's state with result 0. */
  lemma ChildStarts(ks: seq<Sched>, steps: seq<Step>, ms: seq<State>, acts: seq<Action>, i: nat, j: nat, c: nat, u: UserState)
    requires Realises(ks, steps, ms, acts) && Booted(ks[0]) && NoLoneYields(ks, steps) && i < |steps|
    requires ForksAt(ks, steps, i) && ForkedStack(ms[2 * i + 2].mem, c, u)
    requires FirstDispatch(ks, steps, acts, i, j, c, ForkContext(ms[2 * i + 2].mem, c, u))
    ensures StartsChild(ms[2 * j + 2], c, u)
  {
    var ctx := ForkContext(ms[2 * i + 2].mem, c, u);
    PreparesFirstFree(ks, steps, ms, acts, i);
    ForkPending(ks, steps, i, j, c);
    FirstResumes(ks, steps, ms, acts, i, j, c, ctx);
    ResumedChild(ms[2 * i + 2].mem, ms[2 * j + 2], c, u);
  }

  /** And that of a created thread goes to its start routine on its own user stack, unless its
      process has exited by then. */
  lemma ThreadStarts(ks: seq<Sched>, steps: seq<Step>, ms: seq<State>, acts: seq<Action>, i: nat, j: nat, c: nat, u: UserState,
                     startRoutine: int, stackTop: int)
    requires Realises(ks, steps, ms, acts) && Booted(ks[0]) && NoLoneYields(ks, steps) && i < |steps|
    requires CreatesAt(ks, steps, i)
    requires CreatedStack(ms[2 * i + 2].mem, c, u, startRoutine, stackTop)
    requires FirstDispatch(ks, steps, acts, i, j, c, CreateContext(ms[2 * i + 2].mem, c))
    requires forall m | i < m < j :: !ExitAt(ks, steps, ks[i].Proc(), m)
    ensures StartsThread(ms[2 * j + 2], c, u, startRoutine, stackTop)
  {
    var ctx := CreateContext(ms[2 * i + 2].mem, c);
    PreparesFirstFree(ks, steps, ms, acts, i);
    CreatePending(ks, steps, i, j, c);
    FirstResumes(ks, steps, ms, acts, i, j, c, ctx);
    ResumedThread(ms[2 * i + 2].mem, ms[2 * j + 2], c, u, startRoutine, stackTop);
  }

  /** The thread is owed what it was prepared with, and gets it. */
  lemma FirstResumes(ks: seq<Sched>, steps: seq<Step>, ms: seq<State>, acts: seq<Action>, i: nat, j: nat, c: nat, ctx: Context)
    requires Realises(ks, steps, ms, acts) && Booted(ks[0]) && NoLoneYields(ks, steps)
    requires FirstDispatch(ks, steps, acts, i, j, c, ctx) && Pending(ks, i, j, c)
    ensures Resumed(ms[2 * j + 2], c, ctx)
  {
    var a, b := 2 * i + 1, 2 * j + 1;
    PendingOwed(ks, steps, ms, acts, i, j, c, ctx, a, b);
    assert ks[j].current != c && RunsAt(ks, c, j + 1);
    ChangesAt(ks, steps, j);
    GetsOwed(ks, steps, ms, acts, j, c, ctx, b, ms[2 * j + 2]);
  }

  lemma GetsOwed(ks: seq<Sched>, steps: seq<Step>, ms: seq<State>, acts: seq<Action>, j: nat, c: nat, ctx: Context, b: nat, s: State)
    requires Realises(ks, steps, ms, acts) && Booted(ks[0]) && NoLoneYields(ks, steps)
    requires SwitchesAt(ks, steps, j) && ks[j + 1].current == c && b == 2 * j + 1 && s == ms[2 * j + 2]
    ensures IsOwed(ms, acts, b, c, ctx) ==> Resumed(s, c, ctx)
  {
    DispatchedResumes(ks, steps, ms, acts, j);
  }

  /** Thread `c` was last left with `ctx`. */
  ghost predicate IsOwed(ms: seq<State>, acts: seq<Action>, n: nat, c: nat, ctx: Context) {
    Behaviour(ms, acts) && n <= |acts| && LastLeft(ms, acts, n, c) == Some(ctx)
  }

  lemma OwedIf(ms: seq<State>, acts: seq<Action>, a: nat, b: nat, c: nat, ctx: Context)
    requires Behaviour(ms, acts) && b <= |acts|
    ensures Untouched(ms, acts, a, b, c, ctx) ==> IsOwed(ms, acts, b, c, ctx)
  {
    if Untouched(ms, acts, a, b, c, ctx) {
      StaysOwed(ms, acts, a, b, c, ctx);
    }
  }

  lemma PendingOwed(ks: seq<Sched>, steps: seq<Step>, ms: seq<State>, acts: seq<Action>, i: nat, j: nat, c: nat, ctx: Context,
                    a: nat, b: nat)
    requires Realises(ks, steps, ms, acts) && FirstDispatch(ks, steps, acts, i, j, c, ctx) && Pending(ks, i, j, c)
    requires a == 2 * i + 1 && b == 2 * j + 1
    ensures IsOwed(ms, acts, b, c, ctx)
  {
    PendingUntouched(ks, steps, ms, acts, i, j, c, ctx, a, b);
    OwedIf(ms, acts, a, b, c, ctx);
  }

  lemma ForkPending(ks: seq<Sched>, steps: seq<Step>, i: nat, j: nat, c: nat)
    requires Trace(ks, steps) && i < j < |steps| && ForksAt(ks, steps, i)
    requires IsFirstFree(ks[i], c) && NotRun(ks, c, i + 1, j)
    ensures Pending(ks, i, j, c)
  {
    assert IsStep(ks[i], steps[i], ks[i + 1]);
    var p := ForkQueues(ks[i], ks[i + 1], c);
    forall m | i < m <= j
      ensures Member(ks[m], c) && ks[m].current != c
    {
      FirstWaits(ks, steps, p, c, i + 1, m);
      TraceKeepsInv(ks, steps, m);
      QueuedIsMember(ks[m], p, 0, c);
      assert !RunsAt(ks, c, m);
    }
  }

  lemma ForkQueues(s: Sched, s': Sched, c: nat) returns (p: nat)
    requires Inv(s) && CanFork(s) && s' == Fork(s, true).0 && HeadThread(s, FreeThreads) && c == FirstThread(s, FreeThreads)
    ensures First(s', p, c)
  {
    var s1, t;
    s1, p, t := ForkedState(s);
    HeadOfFreeTasks(s);
  }

  lemma CreatePending(ks: seq<Sched>, steps: seq<Step>, i: nat, j: nat, c: nat)
    requires Trace(ks, steps) && i < j < |steps| && CreatesAt(ks, steps, i)
    requires IsFirstFree(ks[i], c) && NotRun(ks, c, i + 1, j)
    requires forall m | i < m < j :: !ExitAt(ks, steps, ks[i].Proc(), m)
    ensures Pending(ks, i, j, c)
  {
    assert IsStep(ks[i], steps[i], ks[i + 1]);
    CreatedQueues(ks[i]);
    var p, k := ks[i].Proc(), |ks[i].Q(Ready(ks[i].Proc()))|;
    forall m | i < m <= j
      ensures Member(ks[m], c) && ks[m].current != c
    {
      TraceKeepsInv(ks, steps, i + 1);
      var k' := ThreadWaits(ks, steps, p, k, c, i + 1, m);
      TraceKeepsInv(ks, steps, m);
      QueuedIsMember(ks[m], p, k', c);
      assert !RunsAt(ks, c, m);
    }
  }
}
