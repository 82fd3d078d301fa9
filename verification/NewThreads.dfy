/** sys_fork and sys_pthread_create on the machine: where a new thread starts to run. */
module NewThreads {
  import opened Options
  import opened Rings
  import opened Scheduling
  import opened Steps
  import opened Runs
  import opened Paging
  import opened Kernel
  import M = Machine
  import C = Contexts
  import Actions
  import System

  /** The kernel stacks are not among the kernel's other data, and `u` is the user state
      that the running thread has entered the kernel from. */
  ghost predicate InService(k: System.System, cpu: M.Cpu, u: M.UserState)
    reads k.Repr(), cpu.mem
  {
    && cpu.mem !in k.Repr() && cpu !in k.Repr()
    && M.Top(THREAD_STRUCTS) <= cpu.mem.Length
    && M.ServiceStack(cpu.mem[..], k.sched.current, u)
  }

  /** A fork, queues, pages and kernel stack: the child's thread is prepared to start from its
      parent's user state, and where frames have run out its page is overwritten all the
      same. `running` is the thread that forks. */
  method Fork(k: System.System, cpu: M.Cpu, ghost u: M.UserState) returns (r: int, t: Option<nat>, frames: bool, ghost running: nat)
    requires k.Valid() && InService(k, cpu, u) && cpu.ebp == M.Top(k.sched.current) - 18
    modifies k.Repr(), cpu.mem
    ensures k.Valid() && Next(old(k.View()), Call(DoFork(frames)), k.View())
    ensures r == Steps.Fork(old(k.View()).s, frames).1 && running == old(k.View()).s.current
    ensures t.None? ==> r == -ENOMEM && k.View() == old(k.View())
    ensures t.Some? ==> r == if frames then old(k.View()).s.lastPid + 1 else -EAGAIN
    ensures t.Some? <==> CanFork(old(k.View()).s)
    ensures t.Some? ==> HeadThread(old(k.View()).s, FreeThreads) && t.value == FirstThread(old(k.View()).s, FreeThreads)
    ensures t.None? ==> cpu.mem[..] == old(cpu.mem[..])
    ensures t.Some? && frames ==>
              && M.ForkedStack(cpu.mem[..], t.value, u)
              && C.Next(old(cpu.View(running)), C.Fabricate(t.value, C.ForkContext(cpu.mem[..], t.value, u)), cpu.View(running))
    ensures t.Some? && !frames ==> C.Next(old(cpu.View(running)), C.Spoil(t.value), cpu.View(running))
  {
    var cur := k.sched.current;
    running := cur;
    ghost var stacks := cpu.mem[..];
    HeadIsOther(k.View().s);
    r, t, frames := k.SysFork();
    assert cpu.mem[..] == stacks;
    if t.Some? {
      ForkStack(k, cpu, cur, t.value, frames, u);
    }
  }

  method ForkStack(k: System.System, cpu: M.Cpu, running: nat, t: nat, frames: bool, ghost u: M.UserState)
    requires k.Valid() && cpu.mem !in k.Repr() && running != t && cpu.ebp == M.Top(running) - 18
    requires M.Top(t) <= cpu.mem.Length && M.ServiceStack(cpu.mem[..], running, u)
    modifies cpu.mem
    ensures k.Valid() && k.View() == old(k.View())
    ensures frames ==>
              && M.ForkedStack(cpu.mem[..], t, u)
              && C.Next(old(cpu.View(running)), C.Fabricate(t, C.ForkContext(cpu.mem[..], t, u)), cpu.View(running))
    ensures !frames ==> C.Next(old(cpu.View(running)), C.Spoil(t), cpu.View(running))
  {
    if frames {
      Actions.Fork(cpu, running, t, u);
    } else {
      Actions.FailedFork(cpu, running, t);
    }
  }

  /** A created thread's kernel stack leads to its start routine, on a user stack that starts
      at the end of a page of its own: one that was empty and has just been given a frame
      that was free. */
  method PthreadCreate(k: System.System, cpu: M.Cpu, ghost u: M.UserState, accessOk: bool, startRoutine: int)
      returns (r: int, t: nat, ghost page: nat, ghost running: nat)
    requires k.Valid() && Allowed(k.View(), Call(DoCreate(accessOk))) && InService(k, cpu, u)
    modifies k.Repr(), cpu.mem
    ensures k.Valid() && Next(old(k.View()), Call(DoCreate(accessOk)), k.View())
    ensures (r == -EFAULT <==> !accessOk) && (r == -ENOMEM <==> accessOk && old(k.View()).s.Q(FreeThreads) == [])
    ensures r != 0 ==> k.View() == old(k.View())
    ensures r == Create(old(k.View()).s, accessOk).1 && running == old(k.View()).s.current
    ensures r == 0 ==> HeadThread(old(k.View()).s, FreeThreads) && t == FirstThread(old(k.View()).s, FreeThreads)
    ensures r == 0 ==> NewStack(old(k.View()).m, k.View().m, old(k.View()).s.Proc(), page, (page + 1) * PAGE_SIZE)
    ensures r == 0 ==> M.CreatedStack(cpu.mem[..], t, u, startRoutine, (page + 1) * PAGE_SIZE)
    ensures r == 0 ==> C.Next(old(cpu.View(running)), C.Fabricate(t, C.CreateContext(cpu.mem[..], t)), cpu.View(running))
    ensures r != 0 ==> cpu.mem[..] == old(cpu.mem[..])
  {
    var esp;
    var cur := k.sched.current;
    running := cur;
    ghost var stacks := cpu.mem[..];
    HeadIsOther(k.View().s);
    r, t, page, esp := k.SysPthreadCreate(accessOk);
    assert cpu.mem[..] == stacks;
    if r == 0 {
      CreateStack(k, cpu, cur, t, startRoutine, esp, u);
    }
  }

  method CreateStack(k: System.System, cpu: M.Cpu, running: nat, t: nat, startRoutine: int, esp: nat, ghost u: M.UserState)
    requires k.Valid() && cpu.mem !in k.Repr() && running != t
    requires M.Top(t) <= cpu.mem.Length && M.ServiceStack(cpu.mem[..], running, u)
    modifies cpu.mem
    ensures k.Valid() && k.View() == old(k.View())
    ensures M.CreatedStack(cpu.mem[..], t, u, startRoutine, esp)
    ensures C.Next(old(cpu.View(running)), C.Fabricate(t, C.CreateContext(cpu.mem[..], t)), cpu.View(running))
  {
    Actions.Create(cpu, running, t, startRoutine, esp, u);
  }

  lemma HeadIsOther(s: Sched)
    requires Inv(s)
    ensures s.current < THREAD_STRUCTS
    ensures s.Q(FreeThreads) != [] ==> HeadThread(s, FreeThreads) && FirstThread(s, FreeThreads) != s.current
  {
    if s.Q(FreeThreads) != [] {
      HeadOfFreeThreads(s);
    }
  }
}
