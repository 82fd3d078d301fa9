/** The stack machine underneath a context switch: entry.S and kernel-utils.S.

    Kernel memory is word addressed. Page `t` holds thread `t`'s union: the thread
    struct in its first words, the kernel stack growing down from its last word. */
module Machine {

  const PAGE: nat := 1024           // words in a thread union
  const ESP_SLOT: nat := 3          // register_esp within the thread struct
  const STRUCT: nat := 9            // words of the thread struct
  const KERNEL_DS := 0x18
  const USER_CS := 0x23
  const USER_DS := 0x2B

  // Code addresses that are ever stored on a kernel stack by the assembly itself.
  const AFTER_INNER := -1           // the `addl $4, %esp` of task_switch
  const AFTER_SWITCH := -2          // inner_task_switch, behind its call of switch_stack
  const RET_FROM_FORK := -3
  const SYSENTER_FIN := -4          // behind the indirect call in system_call_handler

  function Base(t: nat): nat { t * PAGE }

  function Top(t: nat): nat { t * PAGE + PAGE }

  /** The registers a switch is about. */
  datatype Regs = Regs(esp: int, ebp: int, ebx: int, esi: int, edi: int, eip: int)

  datatype State = State(mem: seq<int>, cur: nat, regs: Regs)

  /** The state a user program sees when `sysexit` lands. */
  datatype UserState = UserState(eip: int, esp: int, eax: int, ebx: int, esi: int, edi: int, ebp: int,
                                 ds: int, es: int, fs: int, gs: int)

  /** Room on `t`'s stack for what a switch with `n` compiler-made locals pushes below `esp`. */
  predicate Room(len: nat, t: nat, esp: int, n: nat) {
    && Top(t) <= len
    && Base(t) + STRUCT + 10 + n <= esp
    && esp + 2 <= Top(t)
  }

  /** Where `t` was left: `register_esp`, pointing at a frame of at least `words` words. */
  predicate Parked(mem: seq<int>, t: nat, words: nat) {
    && Top(t) <= |mem|
    && Base(t) + STRUCT <= mem[Base(t) + ESP_SLOT]
    && mem[Base(t) + ESP_SLOT] + words <= Top(t)
  }

  predicate SwitchReady(s: State, next: nat) {
    && Room(|s.mem|, s.cur, s.regs.esp, 0)
    && s.mem[s.regs.esp + 1] == Base(next)
    && Parked(s.mem, next, 2)
    && (s.mem[s.mem[Base(next) + ESP_SLOT] + 1] == AFTER_INNER ==> Parked(s.mem, next, 8))
  }

  /** What `task_switch` leaves of the thread that called it. */
  predicate Left(s: State, mem: seq<int>)
    requires Room(|s.mem|, s.cur, s.regs.esp, 0)
  {
    var e := s.regs.esp;
    && |mem| == |s.mem|
    && mem[Base(s.cur) + ESP_SLOT] == e - 7
    && mem[e - 7] == e - 1
    && mem[e - 6..e] == [AFTER_INNER, s.mem[e + 1], s.regs.ebx, s.regs.edi, s.regs.esi, s.regs.ebp]
    && (forall i | 0 <= i < |mem| && !(Base(s.cur) <= i < e) :: mem[i] == s.mem[i])
  }

  /** Another thread's page is as it was. */
  lemma LeftKeepsPage(s: State, mem: seq<int>, t: nat)
    requires Room(|s.mem|, s.cur, s.regs.esp, 0) && Left(s, mem) && t != s.cur && Top(t) <= |mem|
    ensures forall i | Base(t) <= i < Top(t) :: mem[i] == s.mem[i]
  {
    assert Top(t) <= Base(s.cur) || Top(s.cur) <= Base(t);
  }

  /** What it loads for the thread it dispatches, whose frame starts at `g`. */
  predicate Loaded(mem: seq<int>, g: nat, regs: Regs)
    requires g + 2 <= |mem|
    requires mem[g + 1] == AFTER_INNER ==> g + 8 <= |mem|
  {
    if mem[g + 1] == AFTER_INNER then
      regs == Regs(g + 8, mem[g + 6], mem[g + 3], mem[g + 5], mem[g + 4], mem[g + 7])
    else
      regs.esp == g + 2 && regs.ebp == mem[g] && regs.eip == mem[g + 1]
  }

  /** There are `words` words of memory from `g` on; a stack pointer that leads elsewhere
      faults. */
  predicate Readable(mem: seq<int>, g: int, words: nat) {
    0 <= g && g + words <= |mem|
  }

  /** A switch to oneself: what is loaded is what register_esp named before this call
      stored anything. `b`, `si` and `d` are what inner_task_switch has in the registers it
      is free to use. */
  predicate SelfSwitched(s: State, s': State, b: int, si: int, d: int) {
    && Room(|s.mem|, s.cur, s.regs.esp, 0)
    && s'.cur == s.cur && Left(s, s'.mem)
    && var g := s.mem[Base(s.cur) + ESP_SLOT];
    && Readable(s.mem, g, 8)
    && Loaded(s'.mem, g, s'.regs)
    && (s'.mem[g + 1] != AFTER_INNER ==> s'.regs.ebx == b && s'.regs.esi == si && s'.regs.edi == d)
  }

  /** The user state that the sixteen words at `esp` and a result in eax turn into. */
  function Sysexit(mem: seq<int>, esp: nat, eax: int): UserState
    requires esp + 16 <= |mem|
  {
    UserState(mem[esp + 11], mem[esp + 14], eax, mem[esp], mem[esp + 3], mem[esp + 4], mem[esp + 5],
              mem[esp + 7], mem[esp + 8], mem[esp + 9], mem[esp + 10])
  }

  /** `t`'s stack while a service runs on it for the user state `u`. */
  predicate ServiceStack(mem: seq<int>, t: nat, u: UserState) {
    && Top(t) <= |mem|
    && mem[Top(t) - 18] == u.ebp
    && mem[Top(t) - 17] == SYSENTER_FIN
    && Sysexit(mem, Top(t) - 16, u.eax) == u
  }

  /** The stack sys_fork builds for a child whose parent's user state is `u`. */
  predicate ForkedStack(mem: seq<int>, c: nat, u: UserState) {
    && Top(c) <= |mem|
    && mem[Base(c) + ESP_SLOT] == Top(c) - 19
    && mem[Top(c) - 19] == u.ebp
    && mem[Top(c) - 18] == RET_FROM_FORK
    && mem[Top(c) - 17] == SYSENTER_FIN
    && Sysexit(mem, Top(c) - 16, u.eax) == u
  }

  lemma CopiedStack(mem: seq<int>, mem': seq<int>, t: nat, c: nat, u: UserState)
    requires ServiceStack(mem, t, u) && |mem'| == |mem| && Top(c) <= |mem|
    requires forall i | Top(c) - 18 < i < Top(c) :: mem'[i] == mem[i - Base(c) + Base(t)]
    requires mem'[Base(c) + ESP_SLOT] == Top(c) - 19 && mem'[Top(c) - 19] == u.ebp && mem'[Top(c) - 18] == RET_FROM_FORK
    ensures ForkedStack(mem', c, u)
  {
  }

  /** The stack sys_pthread_create builds for a thread whose creator's user state is `u`. */
  predicate CreatedStack(mem: seq<int>, c: nat, u: UserState, startRoutine: int, stackTop: int) {
    && Top(c) <= |mem|
    && mem[Base(c) + ESP_SLOT] == Top(c) - 18
    && mem[Top(c) - 18] == 0
    && mem[Top(c) - 17] == SYSENTER_FIN
    && Sysexit(mem, Top(c) - 16, u.eax) == u.(eip := startRoutine, esp := stackTop)
  }

  class Cpu {
    const mem: array<int>
    var eax: int
    var ebx: int
    var ecx: int
    var edx: int
    var esi: int
    var edi: int
    var ebp: int
    var esp: int
    var eip: int
    var eflags: int
    var ds: int
    var es: int
    var fs: int
    var gs: int

    constructor (mem: array<int>)
      ensures this.mem == mem
    {
      this.mem := mem;
    }

    function Core(): Regs
      reads this
    {
      Regs(esp, ebp, ebx, esi, edi, eip)
    }

    function View(t: nat): State
      reads this, mem
    {
      State(mem[..], t, Core())
    }

    method Push(v: int)
      requires 0 < esp <= mem.Length
      modifies this`esp, mem
      ensures esp == old(esp) - 1
      ensures mem[..] == old(mem[..])[esp := v]
    {
      esp := esp - 1;
      mem[esp] := v;
    }

    method Pop() returns (v: int)
      requires 0 <= esp < mem.Length
      modifies this`esp
      ensures esp == old(esp) + 1
      ensures v == mem[old(esp)]
    {
      v := mem[esp];
      esp := esp + 1;
    }

    /** switch_stack: store the frame pointer, load the new stack pointer, and pop
        the frame found there. */
    method SwitchStack()
      requires 0 <= esp && esp + 3 <= mem.Length
      requires 0 <= mem[esp + 1] < mem.Length
      requires mem[esp + 1] != esp + 2
      requires 0 <= mem[esp + 2] && mem[esp + 2] + 2 <= mem.Length
      modifies this`eax, this`esp, this`ebp, this`eip, mem
      ensures mem[old(mem[esp + 1])] == old(ebp)
      ensures forall i | 0 <= i < mem.Length && i != old(mem[esp + 1]) :: mem[i] == old(mem[i])
      ensures esp == old(mem[esp + 2]) + 2
      ensures ebp == mem[old(mem[esp + 2])]
      ensures eip == mem[old(mem[esp + 2]) + 1]
    {
      eax := mem[esp + 1];
      mem[eax] := ebp;
      esp := mem[esp + 2];
      ebp := Pop();
      eip := Pop();
    }

    /** The compiler's part of inner_task_switch: any locals below the frame, and any
        values in the registers it is free to use. */
    method InnerBody(locals: seq<int>, b: int, s: int, d: int)
      requires |locals| <= esp <= mem.Length
      modifies this`esp, this`ebx, this`esi, this`edi, mem
      ensures esp == old(esp) - |locals| && ebx == b && esi == s && edi == d
      ensures forall i | 0 <= i < mem.Length && !(esp <= i < old(esp)) :: mem[i] == old(mem[i])
    {
      var i := 0;
      while i < |locals|
        invariant 0 <= i <= |locals| && esp == old(esp) - i
        invariant forall k | 0 <= k < mem.Length && !(esp <= k < old(esp)) :: mem[k] == old(mem[k])
      {
        esp := esp - 1;
        mem[esp] := locals[i];
        i := i + 1;
      }
      ebx, esi, edi := b, s, d;
    }

    /** task_switch, entered by a call that pushed its argument and return address:
        up to and including the call of inner_task_switch. */
    method EnterTaskSwitch(ghost t: nat)
      requires Room(mem.Length, t, esp, 0)
      modifies this`esp, this`ebp, mem
      ensures esp == old(esp) - 6 && ebp == old(esp) - 1
      ensures mem[esp..old(esp)] == old([AFTER_INNER, mem[esp + 1], ebx, edi, esi, ebp])
      ensures forall i | 0 <= i < mem.Length && !(esp <= i < old(esp)) :: mem[i] == old(mem[i])
    {
      esp := esp - 1; mem[esp] := ebp;
      ebp := esp;
      esp := esp - 1; mem[esp] := esi;
      esp := esp - 1; mem[esp] := edi;
      esp := esp - 1; mem[esp] := ebx;
      esp := esp - 1; mem[esp] := mem[ebp + 2];
      esp := esp - 1; mem[esp] := AFTER_INNER;
    }

    /** inner_task_switch up to its call of switch_stack: a standard frame, the
        compiler's locals, then the two arguments and the return address. The thread
        running is the one whose page holds the stack (current_t). */
    method InnerTaskSwitch(ghost t: nat, next: nat, locals: seq<int>, b: int, s: int, d: int)
      requires Top(t) <= mem.Length && Top(next) <= mem.Length
      requires Base(t) + STRUCT + 4 + |locals| <= esp < Top(t)
      modifies this`esp, this`ebp, this`ebx, this`esi, this`edi, mem
      ensures ebp == old(esp) - 1 && esp == old(esp) - 4 - |locals| && ebx == b && esi == s && edi == d
      ensures mem[ebp] == old(ebp)
      ensures mem[esp] == AFTER_SWITCH && mem[esp + 1] == Base(t) + ESP_SLOT
      ensures mem[esp + 2] == old(mem[Base(next) + ESP_SLOT])
      ensures forall i | 0 <= i < mem.Length && !(esp <= i < old(esp)) :: mem[i] == old(mem[i])
    {
      esp := esp - 1; mem[esp] := ebp;
      ebp := esp;
      InnerBody(locals, b, s, d);
      var newSp := mem[Base(next) + ESP_SLOT];
      var current := esp / PAGE;
      assert current == t;
      esp := esp - 1; mem[esp] := newSp;
      esp := esp - 1; mem[esp] := Base(current) + ESP_SLOT;
      esp := esp - 1; mem[esp] := AFTER_SWITCH;
    }

    /** The rest of task_switch, run on the stack of the thread resumed. */
    method LeaveTaskSwitch()
      requires 0 <= esp && esp + 6 <= mem.Length
      modifies this`esp, this`ebp, this`ebx, this`esi, this`edi, this`eip
      ensures Core() == Regs(old(esp) + 6, mem[old(esp) + 4], mem[old(esp) + 1], mem[old(esp) + 3],
                             mem[old(esp) + 2], mem[old(esp) + 5])
    {
      esp := esp + 1;
      ebx := Pop();
      edi := Pop();
      esi := Pop();
      ebp := Pop();
      eip := Pop();
    }

    /** task_switch up to the `ret` of switch_stack: the frame of `t` is complete and the
        stack pointer is already `next`'s. */
    method Exchange(ghost t: nat, next: nat, locals: seq<int>, b: int, s: int, d: int)
      requires Room(mem.Length, t, esp, |locals|)
      requires Top(next) <= mem.Length
      requires Readable(mem[..], mem[Base(next) + ESP_SLOT], 2)
      modifies this, mem
      ensures ebx == b && esi == s && edi == d
      ensures Left(old(View(t)), mem[..])
      ensures esp == old(mem[Base(next) + ESP_SLOT]) + 2 && ebp == mem[esp - 2] && eip == mem[esp - 1]
    {
      EnterTaskSwitch(t);
      InnerTaskSwitch(t, next, locals, b, s, d);
      SwitchStack();
    }

    method TaskSwitch(ghost t: nat, ghost next: nat, locals: seq<int>, b: int, s: int, d: int)
      requires SwitchReady(View(t), next) && Room(mem.Length, t, esp, |locals|)
      requires t != next
      modifies this, mem
      ensures Left(old(View(t)), mem[..])
      ensures Loaded(old(mem[..]), old(mem[Base(next) + ESP_SLOT]), Core())
    {
      ghost var before := View(t);
      var target := mem[esp + 1] / PAGE;
      assert target == next;
      Exchange(t, target, locals, b, s, d);
      LeftKeepsPage(before, mem[..], next);
      FrameKept(before.mem, mem[..], next);
      Resume(old(mem[Base(next) + ESP_SLOT]));
    }

    lemma FrameKept(m: seq<int>, m': seq<int>, t: nat)
      requires |m| == |m'| && Parked(m, t, 2)
      requires m[m[Base(t) + ESP_SLOT] + 1] == AFTER_INNER ==> Parked(m, t, 8)
      requires forall i | Base(t) <= i < Top(t) :: m'[i] == m[i]
      ensures var g := m[Base(t) + ESP_SLOT];
              && (m'[g + 1] == AFTER_INNER ==> g + 8 <= |m'|)
              && forall regs :: Loaded(m', g, regs) <==> Loaded(m, g, regs)
    {
    }

    /** On a frame at `g` that task_switch left, the `ret` leads back into task_switch. */
    method Resume(ghost g: nat)
      requires g + 2 <= mem.Length && (mem[g + 1] == AFTER_INNER ==> g + 8 <= mem.Length)
      requires esp == g + 2 && ebp == mem[g] && eip == mem[g + 1]
      modifies this`esp, this`ebp, this`ebx, this`esi, this`edi, this`eip
      ensures Loaded(mem[..], g, Core())
    {
      if eip == AFTER_INNER {
        LeaveTaskSwitch();
      }
    }

    /** task_switch to the caller itself: the stack pointer loaded is the one register_esp
        held before this call stored its own. */
    method SelfSwitch(ghost t: nat, locals: seq<int>, b: int, s: int, d: int)
      requires Room(mem.Length, t, esp, |locals|) && mem[esp + 1] == Base(t)
      requires Readable(mem[..], mem[Base(t) + ESP_SLOT], 8)
      modifies this, mem
      ensures SelfSwitched(old(View(t)), View(t), b, s, d)
    {
      ghost var before := View(t);
      var target := mem[esp + 1] / PAGE;
      assert target == t;
      Exchange(t, target, locals, b, s, d);
      if eip == AFTER_INNER {
        LeaveTaskSwitch();
      }
    }

    /** system_call_handler from its first push to the indirect call, and the standard
        prologue of the service called. `userRet` is the word above the user's frame
        pointer. */
    method EnterService(ghost t: nat, userRet: int)
      requires Top(t) <= mem.Length && esp == Top(t)
      modifies this, mem
      ensures esp == Top(t) - 18 && ebp == esp
      ensures ServiceStack(mem[..], t, old(UserView(userRet)))
      ensures mem[Top(t) - 5..Top(t)] == [userRet, USER_CS, old(eflags), old(ebp), USER_DS]
      ensures mem[Top(t) - 16..Top(t) - 5] == old([ebx, ecx, edx, esi, edi, ebp, eax, ds, es, fs, gs])
      ensures mem[Top(t) - 18] == old(ebp) && mem[Top(t) - 17] == SYSENTER_FIN
      ensures ds == es == KERNEL_DS
      ensures forall i | 0 <= i < mem.Length && !(esp <= i < Top(t)) :: mem[i] == old(mem[i])
    {
      PushFrame(userRet);
      esp := esp - 1; mem[esp] := SYSENTER_FIN;
      esp := esp - 1; mem[esp] := ebp;
      ebp := esp;
    }

    /** The sixteen words that lead back to user mode. */
    method PushFrame(userRet: int)
      requires 16 <= esp <= mem.Length
      modifies this`esp, this`edx, this`ds, this`es, mem
      ensures esp == old(esp) - 16 && ds == es == KERNEL_DS
      ensures mem[esp + 11..old(esp)] == [userRet, USER_CS, eflags, ebp, USER_DS]
      ensures mem[esp..esp + 11] == old([ebx, ecx, edx, esi, edi, ebp, eax, ds, es, fs, gs])
      ensures Sysexit(mem[..], esp, eax) == old(UserView(userRet))
      ensures forall i | 0 <= i < mem.Length && !(esp <= i < old(esp)) :: mem[i] == old(mem[i])
    {
      PushReturn(userRet);
      ghost var top := mem[esp..old(esp)];
      assert mem[esp] == top[0] == userRet && mem[esp + 3] == top[3] == ebp;
      SaveAll();
      assert mem[esp + 11] == userRet && mem[esp + 14] == ebp;
      assert mem[esp + 11..old(esp)] == top;
      assert Sysexit(mem[..], esp, eax) == old(UserView(userRet));
    }

    method PushReturn(userRet: int)
      requires 5 <= esp <= mem.Length
      modifies this`esp, mem
      ensures esp == old(esp) - 5
      ensures mem[esp..old(esp)] == [userRet, USER_CS, eflags, ebp, USER_DS]
      ensures forall i | 0 <= i < mem.Length && !(esp <= i < old(esp)) :: mem[i] == old(mem[i])
    {
      esp := esp - 1; mem[esp] := USER_DS;
      esp := esp - 1; mem[esp] := ebp;
      esp := esp - 1; mem[esp] := eflags;
      esp := esp - 1; mem[esp] := USER_CS;
      esp := esp - 1; mem[esp] := userRet;
    }

    /** The user-mode state at `sysenter`: the stub has moved its stack pointer to ebp. */
    function UserView(userRet: int): UserState
      reads this
    {
      UserState(userRet, ebp, eax, ebx, esi, edi, ebp, ds, es, fs, gs)
    }

    method SaveAll()
      requires 11 <= esp <= mem.Length
      modifies this`esp, this`edx, this`ds, this`es, mem
      ensures esp == old(esp) - 11
      ensures mem[esp] == ebx && mem[esp + 1] == ecx && mem[esp + 2] == old(edx) && mem[esp + 3] == esi
      ensures mem[esp + 4] == edi && mem[esp + 5] == ebp && mem[esp + 6] == eax
      ensures mem[esp + 7] == old(ds) && mem[esp + 8] == old(es) && mem[esp + 9] == fs && mem[esp + 10] == gs
      ensures ds == es == edx == KERNEL_DS
      ensures forall i | 0 <= i < mem.Length && !(esp <= i < old(esp)) :: mem[i] == old(mem[i])
    {
      SaveSegments();
      SaveResultAndPointers();
      SaveGeneral();
      edx := KERNEL_DS;
      ds := edx;
      es := edx;
    }

    method SaveSegments()
      requires 4 <= esp <= mem.Length
      modifies this`esp, mem
      ensures esp == old(esp) - 4
      ensures mem[esp] == ds && mem[esp + 1] == es && mem[esp + 2] == fs && mem[esp + 3] == gs
      ensures forall i | 0 <= i < mem.Length && !(esp <= i < old(esp)) :: mem[i] == old(mem[i])
    {
      esp := esp - 1; mem[esp] := gs;
      esp := esp - 1; mem[esp] := fs;
      esp := esp - 1; mem[esp] := es;
      esp := esp - 1; mem[esp] := ds;
    }

    method SaveResultAndPointers()
      requires 3 <= esp <= mem.Length
      modifies this`esp, mem
      ensures esp == old(esp) - 3
      ensures mem[esp] == edi && mem[esp + 1] == ebp && mem[esp + 2] == eax
      ensures forall i | 0 <= i < mem.Length && !(esp <= i < old(esp)) :: mem[i] == old(mem[i])
    {
      esp := esp - 1; mem[esp] := eax;
      esp := esp - 1; mem[esp] := ebp;
      esp := esp - 1; mem[esp] := edi;
    }

    method SaveGeneral()
      requires 4 <= esp <= mem.Length
      modifies this`esp, mem
      ensures esp == old(esp) - 4
      ensures mem[esp] == ebx && mem[esp + 1] == ecx && mem[esp + 2] == edx && mem[esp + 3] == esi
      ensures forall i | 0 <= i < mem.Length && !(esp <= i < old(esp)) :: mem[i] == old(mem[i])
    {
      esp := esp - 1; mem[esp] := esi;
      esp := esp - 1; mem[esp] := edx;
      esp := esp - 1; mem[esp] := ecx;
      esp := esp - 1; mem[esp] := ebx;
    }

    method RestoreAll()
      requires 0 <= esp && esp + 11 <= mem.Length
      modifies this
      ensures esp == old(esp) + 11
      ensures ebx == mem[old(esp)] && ecx == mem[old(esp) + 1] && edx == mem[old(esp) + 2]
      ensures esi == mem[old(esp) + 3] && edi == mem[old(esp) + 4] && ebp == mem[old(esp) + 5]
      ensures eax == mem[old(esp) + 6] && ds == mem[old(esp) + 7] && es == mem[old(esp) + 8]
      ensures fs == mem[old(esp) + 9] && gs == mem[old(esp) + 10]
    {
      ebx := Pop();
      ecx := Pop();
      edx := Pop();
      esi := Pop();
      RestoreResultAndPointers();
      RestoreSegments();
    }

    method RestoreResultAndPointers()
      requires 0 <= esp && esp + 3 <= mem.Length
      modifies this`esp, this`edi, this`ebp, this`eax
      ensures esp == old(esp) + 3
      ensures edi == mem[old(esp)] && ebp == mem[old(esp) + 1] && eax == mem[old(esp) + 2]
    {
      edi := Pop();
      ebp := Pop();
      eax := Pop();
    }

    method RestoreSegments()
      requires 0 <= esp && esp + 4 <= mem.Length
      modifies this`esp, this`ds, this`es, this`fs, this`gs
      ensures esp == old(esp) + 4
      ensures ds == mem[old(esp)] && es == mem[old(esp) + 1] && fs == mem[old(esp) + 2] && gs == mem[old(esp) + 3]
    {
      ds := Pop();
      es := Pop();
      fs := Pop();
      gs := Pop();
    }

    /** The end of system_call_handler, up to and including `sysexit`. */
    method SysenterFin() returns (user: UserState)
      requires 0 <= esp && esp + 16 <= mem.Length
      modifies this, mem
      ensures user == Sysexit(old(mem[..]), old(esp), old(eax))
    {
      mem[esp + 6] := eax;
      RestoreAll();
      edx := mem[esp];
      ecx := mem[esp + 3];
      user := UserState(edx, ecx, eax, ebx, esi, edi, ebp, ds, es, fs, gs);
    }

    /** The compiled body of ret_from_fork. */
    method RetFromFork()
      requires 0 < esp < mem.Length
      modifies this, mem
      ensures eax == 0 && ebp == old(ebp) && esp == old(esp) + 1 && eip == old(mem[esp])
      ensures forall i | 0 <= i < mem.Length && i != old(esp) - 1 :: mem[i] == old(mem[i])
    {
      Push(ebp);
      ebp := esp;
      eax := 0;
      ebp := Pop();
      eip := Pop();
    }

    /** copy_data of a whole thread union, a word at a time. */
    method CopyUnion(t: nat, c: nat)
      requires t != c && Top(t) <= mem.Length && Top(c) <= mem.Length
      modifies mem
      ensures forall i | 0 <= i < mem.Length ::
                mem[i] == old(if Base(c) <= i < Top(c) then mem[i - Base(c) + Base(t)] else mem[i])
    {
      var k := 0;
      while k < PAGE
        invariant 0 <= k <= PAGE
        invariant forall i | 0 <= i < mem.Length ::
                    mem[i] == old(if Base(c) <= i < Base(c) + k then mem[i - Base(c) + Base(t)] else mem[i])
      {
        mem[Base(c) + k] := mem[Base(t) + k];
        k := k + 1;
      }
    }

    /** The stack part of sys_fork, run by thread `t` with its frame pointer in ebp. */
    method FabricateFork(t: nat, c: nat)
      requires t != c && Top(t) <= mem.Length && Top(c) <= mem.Length
      requires Base(t) + STRUCT < ebp < Top(t)
      modifies mem
      ensures mem[Base(c) + ESP_SLOT] == ebp - Base(t) + Base(c) - 1
      ensures mem[ebp - Base(t) + Base(c)] == RET_FROM_FORK
      ensures mem[ebp - Base(t) + Base(c) - 1] == old(mem[ebp])
      ensures forall i | ebp < i < Top(t) :: mem[i - Base(t) + Base(c)] == old(mem[i])
      ensures forall u | ebp == Top(t) - 18 && ServiceStack(old(mem[..]), t, u) :: ForkedStack(mem[..], c, u)
      ensures forall i | 0 <= i < mem.Length && !(Base(c) <= i < Top(c)) :: mem[i] == old(mem[i])
    {
      ghost var before := mem[..];
      CopyUnion(t, c);
      var registerEbp := ebp - Base(t) + Base(c);
      var registerEsp := registerEbp + 1;
      var tempEbp := mem[registerEbp];
      registerEsp := registerEsp - 1;
      mem[registerEsp] := RET_FROM_FORK;
      registerEsp := registerEsp - 1;
      mem[registerEsp] := tempEbp;
      mem[Base(c) + ESP_SLOT] := registerEsp;
      forall u | ebp == Top(t) - 18 && ServiceStack(before, t, u)
        ensures ForkedStack(mem[..], c, u)
      {
        CopiedStack(before, mem[..], t, c, u);
      }
    }

    /** The stack part of sys_pthread_create. */
    method FabricateThread(t: nat, c: nat, startRoutine: int, stackTop: int)
      requires t != c && Top(t) <= mem.Length && Top(c) <= mem.Length
      modifies mem
      ensures forall u | ServiceStack(old(mem[..]), t, u) :: CreatedStack(mem[..], c, u, startRoutine, stackTop)
      ensures forall i | 0 <= i < mem.Length && !(Base(c) <= i < Top(c)) :: mem[i] == old(mem[i])
    {
      CopyUnion(t, c);
      mem[Top(c) - 18] := 0;
      mem[Base(c) + ESP_SLOT] := Top(c) - 18;
      mem[Top(c) - 5] := startRoutine;
      mem[Top(c) - 2] := stackTop;
    }

    /** A service's own return: its epilogue, then the end of the handler. */
    method ReturnFromService(ghost t: nat, ghost u: UserState, result: int) returns (user: UserState)
      requires esp == Top(t) - 18 && ServiceStack(mem[..], t, u)
      modifies this, mem
      ensures user == u.(eax := result)
    {
      eax := result;
      ebp := Pop();
      eip := Pop();
      user := SysenterFin();
    }

    /** A forked child's first dispatch, from whatever thread calls task_switch, ends in
        the user state its parent called fork from, with result zero. */
    method FirstRunOfFork(ghost t: nat, ghost c: nat, ghost u: UserState, locals: seq<int>, b: int, s: int, d: int)
      returns (user: UserState)
      requires Room(mem.Length, t, esp, |locals|) && mem[esp + 1] == Base(c)
      requires t != c && ForkedStack(mem[..], c, u)
      modifies this, mem
      ensures user == u.(eax := 0)
    {
      TaskSwitch(t, c, locals, b, s, d);
      assert forall i | Base(c) <= i < Top(c) :: mem[..][i] == old(mem[..])[i];
      assert esp == Top(c) - 17;
      user := StartChild(c, u);
    }

    /** ret_from_fork and what follows it on the child's stack. */
    method StartChild(ghost c: nat, ghost u: UserState) returns (user: UserState)
      requires Top(c) <= mem.Length && esp == Top(c) - 17 && eip == RET_FROM_FORK
      requires mem[esp] == SYSENTER_FIN && Sysexit(mem[..], Top(c) - 16, u.eax) == u
      modifies this, mem
      ensures user == u.(eax := 0)
    {
      RetFromFork();
      assert eip == SYSENTER_FIN;
      user := SysenterFin();
    }

    /** A created thread's first dispatch ends at its start routine, on its own user stack,
        with every other register but eax as its creator had it. */
    method FirstRunOfThread(ghost t: nat, ghost c: nat, ghost u: UserState, ghost startRoutine: int, ghost stackTop: int,
                            locals: seq<int>, b: int, s: int, d: int)
      returns (user: UserState)
      requires Room(mem.Length, t, esp, |locals|) && mem[esp + 1] == Base(c)
      requires t != c && CreatedStack(mem[..], c, u, startRoutine, stackTop)
      modifies this, mem
      ensures user.eip == startRoutine && user.esp == stackTop
      ensures user == u.(eip := startRoutine, esp := stackTop, eax := user.eax)
    {
      TaskSwitch(t, c, locals, b, s, d);
      assert forall i | Base(c) <= i < Top(c) :: mem[..][i] == old(mem[..])[i];
      assert esp == Top(c) - 16;
      user := SysenterFin();
    }
  }
}
