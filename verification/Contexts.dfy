/** Context switching over whole runs: however the kernel interleaves its threads, a
    thread resumes exactly where, and with what, it last called task_switch. */
module Contexts {
  import opened Machine
  import opened Options

  /** What a suspended thread is owed. `stack` is everything above the return address
      that the switch pops. */
  datatype Context =
    | Called(stack: seq<int>, ebp: int, ebx: int, esi: int, edi: int, ret: int)
    | Fabricated(stack: seq<int>, ebp: int, eip: int)

  datatype Action =
    | Compute                              // the running thread does anything on its own stack
    | Fabricate(child: nat, ctx: Context)  // fork or pthread_create prepares a page
    | Spoil(child: nat)                    // a fork that fails has overwritten a free page
    | SwitchTo(next: nat)                  // a call of task_switch

  /** The context of a thread at its call of task_switch. */
  function CallContext(s: State): Context
    requires Top(s.cur) <= |s.mem| && 0 <= s.regs.esp < Top(s.cur)
  {
    Called(s.mem[s.regs.esp + 1..Top(s.cur)], s.regs.ebp, s.regs.ebx, s.regs.esi, s.regs.edi, s.mem[s.regs.esp])
  }

  /** `t`'s page stores `ctx`. */
  predicate Holds(mem: seq<int>, t: nat, ctx: Context) {
    && Top(t) <= |mem|
    && var g := mem[Base(t) + ESP_SLOT];
    && Base(t) + STRUCT <= g
    && match ctx
       case Called(stack, ebp, ebx, esi, edi, ret) =>
         && g + 8 + |stack| == Top(t)
         && mem[g + 1] == AFTER_INNER
         && mem[g + 3] == ebx && mem[g + 4] == edi && mem[g + 5] == esi && mem[g + 6] == ebp && mem[g + 7] == ret
         && mem[g + 8..Top(t)] == stack
       case Fabricated(stack, ebp, eip) =>
         && g + 2 + |stack| == Top(t)
         && mem[g] == ebp && mem[g + 1] == eip && eip != AFTER_INNER
         && mem[g + 2..Top(t)] == stack
  }

  /** `t` is running with what `ctx` promises. */
  predicate Resumed(s: State, t: nat, ctx: Context) {
    && s.cur == t
    && Top(t) <= |s.mem|
    && 0 <= s.regs.esp <= Top(t)
    && s.mem[s.regs.esp..Top(t)] == ctx.stack
    && s.regs.ebp == ctx.ebp
    && match ctx
       case Called(_, _, ebx, esi, edi, ret) =>
         s.regs.ebx == ebx && s.regs.esi == esi && s.regs.edi == edi && s.regs.eip == ret
       case Fabricated(_, _, eip) =>
         s.regs.eip == eip
  }

  /** `t`'s register_esp and kernel stack are the same in both memories. */
  predicate KeepsStack(m: seq<int>, m': seq<int>, t: nat) {
    && |m| == |m'|
    && (Top(t) <= |m| ==> m[Base(t) + ESP_SLOT] == m'[Base(t) + ESP_SLOT] &&
                          m[Base(t) + STRUCT..Top(t)] == m'[Base(t) + STRUCT..Top(t)])
  }

  /** Nothing but a switch writes the running thread's own register_esp. */
  predicate KeepsSlot(s: State, s': State) {
    s'.cur == s.cur && |s'.mem| == |s.mem| &&
    (Top(s.cur) <= |s.mem| ==> s'.mem[Base(s.cur) + ESP_SLOT] == s.mem[Base(s.cur) + ESP_SLOT])
  }

  ghost predicate Next(s: State, a: Action, s': State) {
    match a
    case Compute =>
      && KeepsSlot(s, s')
      && forall t: nat | t != s.cur :: KeepsStack(s.mem, s'.mem, t)
    case Fabricate(child, ctx) =>
      && child != s.cur && KeepsSlot(s, s')
      && Holds(s'.mem, child, ctx)
      && forall t: nat | t != s.cur && t != child :: KeepsStack(s.mem, s'.mem, t)
    case Spoil(child) =>
      && child != s.cur && KeepsSlot(s, s')
      && forall t: nat | t != s.cur && t != child :: KeepsStack(s.mem, s'.mem, t)
    case SwitchTo(next) =>
      && s'.cur == next
      && Room(|s.mem|, s.cur, s.regs.esp, 0)
      && s.mem[s.regs.esp + 1] == Base(next)
      // what Cpu.TaskSwitch and Cpu.SelfSwitch promise (Actions.Switch, Actions.SwitchToSelf)
      && if next == s.cur then
           Readable(s.mem, s.mem[Base(s.cur) + ESP_SLOT], 8) ==> exists b, si, d :: SelfSwitched(s, s', b, si, d)
         else
           SwitchReady(s, next) ==> Left(s, s'.mem) && Loaded(s.mem, s.mem[Base(next) + ESP_SLOT], s'.regs)
  }

  ghost predicate Behaviour(states: seq<State>, actions: seq<Action>) {
    && |states| == |actions| + 1
    && forall i | 0 <= i < |actions| :: Next(states[i], actions[i], states[i + 1])
  }

  /** The context `t` was last left in during the first `n` actions, read off the run. */
  ghost function LastLeft(states: seq<State>, actions: seq<Action>, n: nat, t: nat): Option<Context>
    requires Behaviour(states, actions) && n <= |actions|
  {
    if n == 0 then None
    else
      assert Next(states[n - 1], actions[n - 1], states[n]);
      match actions[n - 1]
      case Compute => LastLeft(states, actions, n - 1, t)
      case Fabricate(child, ctx) => if child == t then Some(ctx) else LastLeft(states, actions, n - 1, t)
      case Spoil(child) => if child == t then None else LastLeft(states, actions, n - 1, t)
      case SwitchTo(_) =>
        if states[n - 1].cur == t then Some(CallContext(states[n - 1])) else LastLeft(states, actions, n - 1, t)
  }

  lemma KeptContext(m: seq<int>, m': seq<int>, t: nat, ctx: Context)
    requires Holds(m, t, ctx) && KeepsStack(m, m', t)
    ensures Holds(m', t, ctx)
  {
    var lo, g := Base(t) + STRUCT, m[Base(t) + ESP_SLOT];
    assert forall i | lo <= i < Top(t) :: m[i] == m[lo..Top(t)][i - lo] == m'[lo..Top(t)][i - lo] == m'[i];
  }

  lemma HeldIsReady(s: State, next: nat, ctx: Context)
    requires Holds(s.mem, next, ctx)
    requires Room(|s.mem|, s.cur, s.regs.esp, 0) && s.mem[s.regs.esp + 1] == Base(next)
    ensures SwitchReady(s, next)
  {
  }

  /** One switch: the thread left is stored, the others stay stored, the one named resumes. */
  lemma SwitchStep(s: State, s': State, next: nat, ctx: Context)
    requires Next(s, SwitchTo(next), s') && next != s.cur && Holds(s.mem, next, ctx)
    ensures Holds(s'.mem, s.cur, CallContext(s))
    ensures forall t: nat | t != s.cur :: KeepsStack(s.mem, s'.mem, t)
    ensures Resumed(s', next, ctx)
  {
    SwitchPromise(s, s', next, ctx);
    LeftHolds(s, s'.mem);
    LoadedResumes(s, s', next, ctx);
    LeftKeepsAllOthers(s, s'.mem);
  }

  lemma SwitchPromise(s: State, s': State, next: nat, ctx: Context)
    requires Next(s, SwitchTo(next), s') && next != s.cur && Holds(s.mem, next, ctx)
    ensures s'.cur == next && Room(|s.mem|, s.cur, s.regs.esp, 0)
    ensures SwitchReady(s, next) && Left(s, s'.mem) && Loaded(s.mem, s.mem[Base(next) + ESP_SLOT], s'.regs)
  {
    HeldIsReady(s, next, ctx);
  }

  lemma LeftKeepsAllOthers(s: State, mem: seq<int>)
    requires Room(|s.mem|, s.cur, s.regs.esp, 0) && Left(s, mem)
    ensures forall t: nat | t != s.cur :: KeepsStack(s.mem, mem, t)
  {
    forall t: nat | t != s.cur
      ensures KeepsStack(s.mem, mem, t)
    {
      LeftKeepsOthers(s, mem, t);
    }
  }

  lemma LoadedResumes(s: State, s': State, next: nat, ctx: Context)
    requires Room(|s.mem|, s.cur, s.regs.esp, 0) && Left(s, s'.mem)
    requires next != s.cur && s'.cur == next
    requires Holds(s.mem, next, ctx)
    requires Loaded(s.mem, s.mem[Base(next) + ESP_SLOT], s'.regs)
    ensures Resumed(s', next, ctx)
  {
    assert Top(next) <= Base(s.cur) || Top(s.cur) <= Base(next);
    var low := s'.regs.esp;
    assert s'.mem[low..Top(next)] == s.mem[low..Top(next)];
  }

  lemma LeftHolds(s: State, mem: seq<int>)
    requires Room(|s.mem|, s.cur, s.regs.esp, 0) && Left(s, mem)
    ensures Holds(mem, s.cur, CallContext(s))
  {
    var e := s.regs.esp;
    assert forall i | e - 6 <= i < e :: mem[i] == mem[e - 6..e][i - (e - 6)];
    assert mem[e] == s.mem[e];
  }

  lemma LeftKeepsOthers(s: State, mem: seq<int>, t: nat)
    requires Room(|s.mem|, s.cur, s.regs.esp, 0) && Left(s, mem)
    requires t != s.cur
    ensures KeepsStack(s.mem, mem, t)
  {
    assert Top(t) <= Base(s.cur) || Top(s.cur) <= Base(t);
  }

  /** Every switch is to another thread, one that was left or fabricated before. */
  ghost predicate SwitchesAreInto(states: seq<State>, actions: seq<Action>)
    requires Behaviour(states, actions)
  {
    forall i | 0 <= i < |actions| && actions[i].SwitchTo? ::
      actions[i].next != states[i].cur && LastLeft(states, actions, i, actions[i].next).Some?
  }

  /** What is owed to `t` after action `a`, given what was owed before. */
  ghost predicate OwedAfter(s: State, a: Action, t: nat, owed: Option<Context>, owed': Option<Context>) {
    match a
    case Compute => owed' == owed
    case Fabricate(child, ctx) => owed' == if child == t then Some(ctx) else owed
    case Spoil(child) => owed' == if child == t then None else owed
    case SwitchTo(_) =>
      if s.cur == t then Top(t) <= |s.mem| && 0 <= s.regs.esp < Top(t) && owed' == Some(CallContext(s))
      else owed' == owed
  }

  lemma StoredAfter(s: State, a: Action, s': State, t: nat, owed: Option<Context>, owed': Option<Context>)
    requires Next(s, a, s') && t != s'.cur && OwedAfter(s, a, t, owed, owed') && owed'.Some?
    requires t != s.cur && owed.Some? ==> Holds(s.mem, t, owed.value)
    requires a.SwitchTo? ==> a.next != s.cur && exists ctx :: Holds(s.mem, a.next, ctx)
    ensures Holds(s'.mem, t, owed'.value)
  {
    if a.SwitchTo? {
      var ctx :| Holds(s.mem, a.next, ctx);
      SwitchStep(s, s', a.next, ctx);
    }
    if t != s.cur && owed' == owed && KeepsStack(s.mem, s'.mem, t) {
      KeptContext(s.mem, s'.mem, t, owed.value);
    }
  }

  /** After `n` actions the context of every suspended thread is stored. */
  ghost predicate AllStored(states: seq<State>, actions: seq<Action>, n: nat)
    requires Behaviour(states, actions) && n <= |actions|
  {
    forall t: nat :: Stored(states, actions, n, t)
  }

  ghost predicate Stored(states: seq<State>, actions: seq<Action>, n: nat, t: nat)
    requires Behaviour(states, actions) && n <= |actions|
  {
    t != states[n].cur && LastLeft(states, actions, n, t).Some? ==>
      Holds(states[n].mem, t, LastLeft(states, actions, n, t).value)
  }

  lemma LastLeftStep(states: seq<State>, actions: seq<Action>, n: nat, t: nat)
    requires Behaviour(states, actions) && n < |actions|
    ensures OwedAfter(states[n], actions[n], t, LastLeft(states, actions, n, t), LastLeft(states, actions, n + 1, t))
  {
    assert Next(states[n], actions[n], states[n + 1]);
  }

  /** Over every behaviour, every suspended thread's context stays stored. */
  lemma {:induction false} SuspendedContexts(states: seq<State>, actions: seq<Action>, n: nat)
    requires Behaviour(states, actions) && SwitchesAreInto(states, actions) && n <= |actions|
    ensures AllStored(states, actions, n)
  {
    if n > 0 {
      SuspendedContexts(states, actions, n - 1);
      StoredStep(states, actions, n - 1);
    }
  }

  lemma StoredStep(states: seq<State>, actions: seq<Action>, n: nat)
    requires Behaviour(states, actions) && SwitchesAreInto(states, actions) && n < |actions|
    requires AllStored(states, actions, n)
    ensures AllStored(states, actions, n + 1)
  {
    var s, a, s' := states[n], actions[n], states[n + 1];
    assert Next(s, a, s');
    assert a.SwitchTo? ==> Stored(states, actions, n, a.next);
    var m := n + 1;
    forall t: nat
      ensures Stored(states, actions, m, t)
    {
      assert Stored(states, actions, n, t);
      LastLeftStep(states, actions, n, t);
      if t != s'.cur && LastLeft(states, actions, m, t).Some? {
        StoredAfter(s, a, s', t, LastLeft(states, actions, n, t), LastLeft(states, actions, m, t));
      }
    }
  }

  /** The round trip: whatever ran in between, a dispatched thread has the stack, stack
      pointer, frame pointer, callee-saved registers and return address of its own last
      call of task_switch, or of the frame made for it. */
  lemma RoundTrip(states: seq<State>, actions: seq<Action>, n: nat)
    requires Behaviour(states, actions) && SwitchesAreInto(states, actions)
    requires n < |actions| && actions[n].SwitchTo?
    ensures Resumed(states[n + 1], actions[n].next, LastLeft(states, actions, n, actions[n].next).value)
  {
    var next := actions[n].next;
    assert Next(states[n], actions[n], states[n + 1]);
    SuspendedContexts(states, actions, n);
    assert Stored(states, actions, n, next);
    SwitchStep(states[n], states[n + 1], next, LastLeft(states, actions, n, next).value);
  }

  /** Where register_esp must already have pointed for a switch to oneself to work: at the
      very frame this call is about to push, because the last one was pushed from the same
      depth; or at the caller's saved ebp, if that is not followed by the address behind the
      call in task_switch, and inner_task_switch has left the other registers alone. */
  predicate StaleFrameFits(s: State, b: int, si: int, d: int)
    requires Room(|s.mem|, s.cur, s.regs.esp, 0)
  {
    var g, e := s.mem[Base(s.cur) + ESP_SLOT], s.regs.esp;
    g == e - 7 || (g == e - 1 && s.mem[e] != AFTER_INNER && b == s.regs.ebx && si == s.regs.esi && d == s.regs.edi)
  }

  /** A thread that switches to itself resumes its call of task_switch exactly then. */
  lemma SelfSwitchIff(s: State, s': State, b: int, si: int, d: int)
    requires SelfSwitched(s, s', b, si, d)
    ensures Resumed(s', s.cur, CallContext(s)) <==> StaleFrameFits(s, b, si, d)
  {
    var g, e := s.mem[Base(s.cur) + ESP_SLOT], s.regs.esp;
    assert forall i | e - 6 <= i < e :: s'.mem[i] == s'.mem[e - 6..e][i - (e - 6)];
    assert s'.mem[e] == s.mem[e];
    assert s'.mem[e + 1..Top(s.cur)] == s.mem[e + 1..Top(s.cur)];
    if Resumed(s', s.cur, CallContext(s)) {
      assert |s'.mem[s'.regs.esp..Top(s.cur)]| == |s.mem[e + 1..Top(s.cur)]|;
    }
  }

  /** A thread that was never switched out does not: neither the boot thread, whose
      register_esp nobody has set, nor one that still has the one fork or pthread_create
      gave it, above everything its services use. */
  lemma FirstSelfSwitchFails(s: State, s': State, b: int, si: int, d: int)
    requires SelfSwitched(s, s', b, si, d)
    requires var g := s.mem[Base(s.cur) + ESP_SLOT]; g == 0 || s.regs.esp <= g
    ensures !Resumed(s', s.cur, CallContext(s))
  {
    SelfSwitchIff(s, s', b, si, d);
  }

  /** What sys_fork owes a child whose parent's user state is `u`. */
  function ForkContext(mem: seq<int>, c: nat, u: UserState): Context
    requires Top(c) <= |mem|
  {
    Fabricated(mem[Top(c) - 17..Top(c)], u.ebp, RET_FROM_FORK)
  }

  /** And sys_pthread_create a new thread. */
  function CreateContext(mem: seq<int>, c: nat): Context
    requires Top(c) <= |mem|
  {
    Fabricated(mem[Top(c) - 16..Top(c)], 0, SYSENTER_FIN)
  }

  /** The frames sys_fork and sys_pthread_create make are contexts in the sense above. */
  lemma FabricatedFrames(mem: seq<int>, c: nat, u: UserState, startRoutine: int, stackTop: int)
    ensures ForkedStack(mem, c, u) ==> Holds(mem, c, ForkContext(mem, c, u))
    ensures CreatedStack(mem, c, u, startRoutine, stackTop) ==>
              Holds(mem, c, CreateContext(mem, c))
  {
  }

  // ------------------------------------------------------------------ first dispatches

  /** Thread `c` was prepared by action i with context `ctx`, and up to action n neither ran
      nor was prepared or overwritten again. */
  ghost predicate Untouched(states: seq<State>, actions: seq<Action>, i: nat, n: nat, c: nat, ctx: Context)
    requires Behaviour(states, actions)
  {
    && i < n <= |actions| && actions[i] == Fabricate(c, ctx)
    && forall m | i < m < n :: states[m].cur != c && !Overwrites(actions[m], c)
  }

  predicate Overwrites(a: Action, c: nat) {
    (a.Fabricate? || a.Spoil?) && a.child == c
  }

  lemma {:induction false} StaysOwed(states: seq<State>, actions: seq<Action>, i: nat, n: nat, c: nat, ctx: Context)
    requires Behaviour(states, actions) && Untouched(states, actions, i, n, c, ctx)
    ensures LastLeft(states, actions, n, c) == Some(ctx)
    decreases n
  {
    if n > i + 1 {
      StaysOwed(states, actions, i, n - 1, c, ctx);
      LastLeftStep(states, actions, n - 1, c);
    }
  }

  /** Thread `c` is at ret_from_fork, behind which the system call ends in user mode in state
      `u` with result 0. */
  predicate StartsChild(s: State, c: nat, u: UserState) {
    && s.cur == c && Top(c) <= |s.mem|
    && s.regs.eip == RET_FROM_FORK && s.regs.ebp == u.ebp && s.regs.esp == Top(c) - 17
    && s.mem[Top(c) - 17] == SYSENTER_FIN && Sysexit(s.mem, Top(c) - 16, 0) == u.(eax := 0)
  }

  /** Thread `c` is at the end of a system call that leads to `startRoutine` on a user stack
      that starts at `stackTop`. */
  ghost predicate StartsThread(s: State, c: nat, u: UserState, startRoutine: int, stackTop: int) {
    && s.cur == c && Top(c) <= |s.mem|
    && s.regs.eip == SYSENTER_FIN && s.regs.esp == Top(c) - 16
    && forall eax :: Sysexit(s.mem, Top(c) - 16, eax) == u.(eip := startRoutine, esp := stackTop, eax := eax)
  }

  /** However many switches lie between a fork and its child's first dispatch, that dispatch
      goes to ret_from_fork with the parent's frame pointer, from there to the end of the
      system call, and so to user mode in the parent's state with result 0. */
  lemma ForkedFirstDispatch(states: seq<State>, actions: seq<Action>, i: nat, n: nat, c: nat, u: UserState)
    requires Behaviour(states, actions) && SwitchesAreInto(states, actions) && i < n < |actions|
    requires ForkedStack(states[i + 1].mem, c, u)
    requires Untouched(states, actions, i, n, c, ForkContext(states[i + 1].mem, c, u))
    requires actions[n] == SwitchTo(c)
    ensures StartsChild(states[n + 1], c, u)
  {
    StaysOwed(states, actions, i, n, c, ForkContext(states[i + 1].mem, c, u));
    RoundTrip(states, actions, n);
    ResumedChild(states[i + 1].mem, states[n + 1], c, u);
  }

  lemma ResumedChild(m: seq<int>, s: State, c: nat, u: UserState)
    requires ForkedStack(m, c, u) && Resumed(s, c, ForkContext(m, c, u))
    ensures StartsChild(s, c, u)
  {
    SameTop(m, s.mem, c, 17, s.regs.esp);
  }

  /** A created thread's goes straight to the end of the system call, and so to its start
      routine on its own user stack. */
  lemma CreatedFirstDispatch(states: seq<State>, actions: seq<Action>, i: nat, n: nat, c: nat, u: UserState,
                             startRoutine: int, stackTop: int)
    requires Behaviour(states, actions) && SwitchesAreInto(states, actions) && i < n < |actions|
    requires CreatedStack(states[i + 1].mem, c, u, startRoutine, stackTop)
    requires Untouched(states, actions, i, n, c, CreateContext(states[i + 1].mem, c))
    requires actions[n] == SwitchTo(c)
    ensures StartsThread(states[n + 1], c, u, startRoutine, stackTop)
  {
    StaysOwed(states, actions, i, n, c, CreateContext(states[i + 1].mem, c));
    RoundTrip(states, actions, n);
    ResumedThread(states[i + 1].mem, states[n + 1], c, u, startRoutine, stackTop);
  }

  lemma ResumedThread(m: seq<int>, s: State, c: nat, u: UserState, startRoutine: int, stackTop: int)
    requires CreatedStack(m, c, u, startRoutine, stackTop) && Resumed(s, c, CreateContext(m, c))
    ensures StartsThread(s, c, u, startRoutine, stackTop)
  {
    SameTop(m, s.mem, c, 16, s.regs.esp);
  }

  lemma SameTop(m: seq<int>, m': seq<int>, c: nat, words: nat, esp: int)
    requires words <= PAGE && Top(c) <= |m| && Top(c) <= |m'| && 0 <= esp <= Top(c)
    requires m'[esp..Top(c)] == m[Top(c) - words..Top(c)]
    ensures esp == Top(c) - words
    ensures forall i | Top(c) - words <= i < Top(c) :: m'[i] == m[i]
  {
    assert |m'[esp..Top(c)]| == words;
    assert forall i | esp <= i < Top(c) :: m'[i] == m'[esp..Top(c)][i - esp] == m[Top(c) - words..Top(c)][i - esp];
  }
}
