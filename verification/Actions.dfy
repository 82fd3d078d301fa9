/** The machine's methods do what the actions of a behaviour say. */
module Actions {
  import opened Machine
  import opened Contexts

  /** A call of task_switch by `t`. */
  method Switch(cpu: Cpu, ghost t: nat, ghost next: nat, locals: seq<int>, b: int, s: int, d: int)
    requires SwitchReady(cpu.View(t), next) && Room(cpu.mem.Length, t, cpu.esp, |locals|) && t != next
    modifies cpu, cpu.mem
    ensures Next(old(cpu.View(t)), SwitchTo(next), cpu.View(next))
  {
    cpu.TaskSwitch(t, next, locals, b, s, d);
  }

  /** The same with `t` itself as the argument. */
  method SwitchToSelf(cpu: Cpu, ghost t: nat, locals: seq<int>, b: int, s: int, d: int)
    requires Room(cpu.mem.Length, t, cpu.esp, |locals|) && cpu.mem[cpu.esp + 1] == Base(t)
    requires Readable(cpu.mem[..], cpu.mem[Base(t) + ESP_SLOT], 8)
    modifies cpu, cpu.mem
    ensures Next(old(cpu.View(t)), SwitchTo(t), cpu.View(t))
  {
    cpu.SelfSwitch(t, locals, b, s, d);
  }

  /** Memory outside one thread's page is as it was. */
  predicate OnlyPage(m: seq<int>, m': seq<int>, c: nat) {
    |m| == |m'| && forall i | 0 <= i < |m| && !(Base(c) <= i < Top(c)) :: m'[i] == m[i]
  }

  lemma OtherPagesKept(s: State, s': State, c: nat)
    requires OnlyPage(s.mem, s'.mem, c) && s'.cur == s.cur != c
    ensures KeepsSlot(s, s') && forall t: nat | t != c :: KeepsStack(s.mem, s'.mem, t)
  {
    forall t: nat | t != c && Top(t) <= |s.mem|
      ensures forall i | Base(t) <= i < Top(t) :: s'.mem[i] == s.mem[i]
    {
      assert Top(t) <= Base(c) || Top(c) <= Base(t);
    }
  }

  /** sys_fork prepares `c`, the running thread `t` having entered the kernel from `u`. */
  method Fork(cpu: Cpu, t: nat, c: nat, ghost u: UserState)
    requires t != c && Top(c) <= cpu.mem.Length && cpu.ebp == Top(t) - 18 && ServiceStack(cpu.mem[..], t, u)
    modifies cpu.mem
    ensures ForkedStack(cpu.mem[..], c, u)
    ensures Next(old(cpu.View(t)), Fabricate(c, ForkContext(cpu.mem[..], c, u)), cpu.View(t))
  {
    ghost var before := cpu.View(t);
    cpu.FabricateFork(t, c);
    FabricatedFrames(cpu.mem[..], c, u, 0, 0);
    OtherPagesKept(before, cpu.View(t), c);
  }

  /** A fork that runs out of frames has got as far as the copy. */
  method FailedFork(cpu: Cpu, t: nat, c: nat)
    requires t != c && Top(t) <= cpu.mem.Length && Top(c) <= cpu.mem.Length
    modifies cpu.mem
    ensures Next(old(cpu.View(t)), Spoil(c), cpu.View(t))
  {
    ghost var before := cpu.View(t);
    cpu.CopyUnion(t, c);
    OtherPagesKept(before, cpu.View(t), c);
  }

  /** sys_pthread_create prepares `c`. */
  method Create(cpu: Cpu, t: nat, c: nat, startRoutine: int, stackTop: int, ghost u: UserState)
    requires t != c && Top(c) <= cpu.mem.Length && ServiceStack(cpu.mem[..], t, u)
    modifies cpu.mem
    ensures CreatedStack(cpu.mem[..], c, u, startRoutine, stackTop)
    ensures Next(old(cpu.View(t)), Fabricate(c, CreateContext(cpu.mem[..], c)), cpu.View(t))
  {
    ghost var before := cpu.View(t);
    cpu.FabricateThread(t, c, startRoutine, stackTop);
    FabricatedFrames(cpu.mem[..], c, u, startRoutine, stackTop);
    OtherPagesKept(before, cpu.View(t), c);
  }
}
