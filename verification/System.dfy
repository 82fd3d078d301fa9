/** sys_fork, sys_pthread_create and sys_exit whole: queues and structs together with frames
    and page tables, in the order of the C code. */
module System {
  import opened Options
  import opened Rings
  import opened Scheduling
  import opened Agreement
  import opened Steps
  import opened Runs
  import opened Boot
  import opened LiveProcesses
  import opened Frames
  import opened Paging
  import opened AddressSpaces
  import opened Kernel
  import Effects
  import Scheduler
  import Memory

  class System {
    const sched: Scheduler.Scheduler
    const mem: Memory.Memory
    ghost var stacks: nat

    ghost function Repr(): set<object> {
      {this} + sched.Repr() + mem.Repr()
    }

    /** The two halves share no object. */
    ghost predicate Apart()
      reads mem.Repr()
    {
      && mem.Valid()
      && this !in sched.Repr() && this !in mem.Repr()
      && sched !in mem.Repr() && sched.heap !in mem.Repr()
      && sched.tasks !in mem.Repr() && sched.threads !in mem.Repr() && sched.mutexes !in mem.Repr()
    }

    ghost function View(): State
      reads Repr()
    {
      State(sched.View(), mem.view, stacks)
    }

    ghost predicate Valid()
      reads Repr()
    {
      Apart() && sched.Valid() && Good(View())
    }

    /** A kernel of two parts that have just been booted. */
    constructor (sched: Scheduler.Scheduler, mem: Memory.Memory)
      requires sched.Valid() && Booted(sched.View()) && mem.Valid() && BootPages(mem.view)
      requires sched.Repr() !! mem.Repr()
      ensures Valid() && BootedKernel(View()) && this.sched == sched && this.mem == mem
    {
      this.sched, this.mem, stacks := sched, mem, 0;
      new;
      BootGood(View());
    }

    /** `t` is the thread struct taken, if there was one, and `frames` says whether all data
        pages found a frame. */
    method SysFork() returns (r: int, t: Option<nat>, frames: bool)
      requires Valid()
      modifies Repr()
      ensures Valid() && Next(old(View()), Call(DoFork(frames)), View())
      ensures r == Fork(old(View()).s, frames).1
      ensures t.Some? <==> CanFork(old(View()).s)
      ensures t.Some? ==> HeadThread(old(View()).s, FreeThreads) && t.value == FirstThread(old(View()).s, FreeThreads)
      ensures t.None? ==> r == -ENOMEM && View() == old(View())
      ensures t.Some? && !frames ==> r == -EAGAIN
      ensures t.Some? && frames ==> r == old(View()).s.lastPid + 1
    {
      ghost var k := View();
      var noTask := sched.heap.ListEmpty(FreeTasks);
      if noTask {
        NoStructs(k);
        return -ENOMEM, None, false;
      }
      var noThread := sched.heap.ListEmpty(FreeThreads);
      if noThread {
        NoStructs(k);
        return -ENOMEM, None, false;
      }
      TakenWellFormed(k.s);
      var taken;
      r, taken, frames := ForkStructsAndPages(k);
      t := Some(taken);
      ForkGood(k, frames, View());
      ForkIsNext(k, frames, View());
    }

    lemma NoStructs(k: State)
      requires Good(k) && !CanFork(k.s)
      ensures Next(k, Call(DoFork(false)), k) && Fork(k.s, false).1 == -ENOMEM
    {
    }

    lemma ForkIsNext(k: State, frames: bool, k': State)
      requires Good(k) && CanFork(k.s) && ForkStep(k, frames, k') && k'.s == Fork(k.s, frames).0
      ensures Next(k, Call(DoFork(frames)), k')
    {
      assert MemoryStep(k, DoFork(frames), k');
      StepIsNext(k, DoFork(frames), k');
    }

    lemma StepIsNext(k: State, step: Step, k': State)
      requires Good(k) && Allowed(k, Call(step)) && k'.s == Apply(k.s, step) && MemoryStep(k, step, k')
      ensures Next(k, Call(step), k')
    {
    }

    method ForkStructsAndPages(ghost k: State) returns (r: int, t: nat, frames: bool)
      requires Apart() && sched.Coherent() && Good(k) && CanFork(k.s) && k == View()
      requires HeadTask(k.s, FreeTasks) && HeadThread(k.s, FreeThreads)
      modifies Repr()
      ensures Apart() && sched.Coherent() && ForkStep(k, frames, View())
      ensures View().s == Fork(k.s, frames).0 && r == Fork(k.s, frames).1
      ensures t == FirstThread(k.s, FreeThreads)
    {
      ForkAddsProcess(k.s);
      RunningIsLive(k.s);
      DataPagesInUse(k.m, k.s.Proc(), LiveSet(k.s));
      var c;
      c, t := TakeStructs();
      frames := PagesForChild(k.s, c, LiveSet(k.s));
      r := FinishFork(k.s, c, t, frames);
    }

    method TakeStructs() returns (c: nat, t: nat)
      requires Apart() && sched.Coherent() && HeadTask(sched.View(), FreeTasks) && HeadThread(sched.View(), FreeThreads)
      modifies sched.Repr()
      ensures Apart() && mem.view == old(mem.view) && sched.Coherent()
      ensures c == FirstTask(old(sched.View()), FreeTasks) && t == FirstThread(old(sched.View()), FreeThreads)
      ensures c < NR_TASKS && t < THREAD_STRUCTS
      ensures Task(c) !in sched.heap.rings.home && Thread(t) !in sched.heap.rings.home
      ensures {FreeTasks, FreeThreads} <= old(sched.View()).rings.seqs.Keys && sched.View() == Taken(old(sched.View()))
    {
      c, t := sched.TakeStructs();
    }

    /** Data pages for child `c`; `s` is the state before the fork. */
    method PagesForChild(ghost s: Sched, c: nat, ghost live: set<nat>) returns (ok: bool)
      requires Apart() && sched.Coherent() && s.Sized() && c < NR_TASKS && s.Proc() < NR_TASKS && c != s.Proc()
      requires sched.CurrentP() == s.Proc() && Isolated(mem.view, live) && s.Proc() in live
      modifies mem.Repr()
      ensures Apart() && sched.Coherent() && sched.View() == old(sched.View()) && sched.heap.rings == old(sched.heap.rings)
      ensures ok <==> |FreeFrames(old(mem.view).used)| >= NUM_PAG_DATA
      ensures if ok then Forked(old(mem.view), mem.view, s.Proc(), c) else RolledBack(old(mem.view), mem.view, c)
    {
      DataPagesInUse(mem.view, s.Proc(), live);
      ok := mem.ForkPages(sched.CurrentP(), c);
    }

    method FinishFork(ghost s: Sched, c: nat, t: nat, ok: bool) returns (r: int)
      requires Inv(s) && CanFork(s) && HeadTask(s, FreeTasks) && HeadThread(s, FreeThreads)
      requires c == FirstTask(s, FreeTasks) && t == FirstThread(s, FreeThreads)
      requires Apart() && sched.Coherent() && sched.View() == Taken(s)
      requires Task(c) !in sched.heap.rings.home && Thread(t) !in sched.heap.rings.home
      modifies sched.Repr()
      ensures Apart() && mem.view == old(mem.view)
      ensures sched.Coherent() && sched.View() == Fork(s, ok).0 && r == Fork(s, ok).1
    {
      r := sched.FinishFork(s, c, t, ok);
    }

    /** `t` is the new thread, `esp` where its stack starts, at the end of `page`. */
    method SysPthreadCreate(accessOk: bool) returns (r: int, t: nat, ghost page: nat, esp: nat)
      requires Valid() && Allowed(View(), Call(DoCreate(accessOk)))
      modifies Repr()
      ensures Valid() && Next(old(View()), Call(DoCreate(accessOk)), View())
      ensures r == Create(old(View()).s, accessOk).1 <= 0
      ensures (r == -EFAULT <==> !accessOk) && (r == -ENOMEM <==> accessOk && old(View()).s.Q(FreeThreads) == [])
      ensures View() == old(View()) <==> r != 0
      ensures r == 0 ==> HeadThread(old(View()).s, FreeThreads) && t == FirstThread(old(View()).s, FreeThreads)
      ensures r == 0 ==> NewStack(old(View()).m, View().m, old(View()).s.Proc(), page, esp)
    {
      ghost var k := View();
      Effects.CreateAnswers(k.s, accessOk);
      if !accessOk {
        return -EFAULT, 0, 0, 0;
      }
      var none := sched.heap.ListEmpty(FreeThreads);
      if none {
        return -ENOMEM, 0, 0, 0;
      }
      CreateInParts(k.s);
      ghost var f;
      t, page, f, esp := CreateThread(k);
      r := 0;
      MappedIsNew(k.m, View().m, k.s.Proc(), page, f);
      CreateGood(k, DoCreate(true), View());
    }

    method CreateThread(ghost k: State) returns (t: nat, ghost page: nat, ghost f: int, esp: nat)
      requires Apart() && sched.Coherent() && Good(k) && k == View() && k.s.Q(FreeThreads) != []
      modifies Repr()
      ensures Apart() && sched.Coherent()
      ensures View().s == Create(k.s, true).0 && View().stacks == k.stacks + 1
      ensures HeadThread(k.s, FreeThreads) && t == FirstThread(k.s, FreeThreads)
      ensures StackMapped(k.m, View().m, k.s.Proc(), page, f) && esp == (page + 1) * PAGE_SIZE
    {
      CreateInParts(k.s);
      t := CopyThread();
      var pg, fr;
      pg, fr, esp := StackForThread(LiveSet(k.s));
      page, f := pg, fr;
      StartThread(t);
      stacks := stacks + 1;
    }

    method CopyThread() returns (t: nat)
      requires Apart() && sched.Coherent() && HeadThread(sched.View(), FreeThreads)
      modifies sched.Repr()
      ensures Apart() && mem.view == old(mem.view) && sched.Coherent()
      ensures t == FirstThread(old(sched.View()), FreeThreads) && t < THREAD_STRUCTS && Thread(t) !in sched.heap.rings.home
      ensures sched.View() == CopiedThread(old(sched.View()))
    {
      t := sched.CopyThread();
    }

    method StackForThread(ghost live: set<nat>) returns (page: nat, f: int, esp: nat)
      requires Apart() && sched.Coherent() && sched.CurrentP() < NR_TASKS && Isolated(mem.view, live)
      modifies mem.Repr()
      ensures Apart() && sched.Coherent() && sched.View() == old(sched.View()) && sched.heap.rings == old(sched.heap.rings)
      ensures StackMapped(old(mem.view), mem.view, old(sched.CurrentP()), page, f) && esp == (page + 1) * PAGE_SIZE
    {
      StackSearchEnds(mem.view, live, sched.CurrentP());
      page, f, esp := mem.MapStack(sched.CurrentP());
    }

    method StartThread(t: nat)
      requires Apart() && sched.Coherent() && t < THREAD_STRUCTS && t != sched.current && Thread(t) !in sched.heap.rings.home
      requires var s := sched.View(); s.Proc() < NR_TASKS && Ready(s.Proc()) in s.rings.seqs && s.threads[t].task == s.Proc()
      modifies sched.Repr()
      ensures Apart() && mem.view == old(mem.view)
      ensures sched.Coherent() && sched.View() == StartedThread(old(sched.View()), t)
    {
      sched.StartThread(t);
    }

    method SysExit()
      requires Valid() && ExitGuard(View().s)
      modifies Repr()
      ensures Valid() && Allowed(old(View()), Call(DoExit)) && Next(old(View()), Call(DoExit), View())
    {
      ghost var k := View();
      FreeAndLeave();
      ExitGood(k, View());
      ExitIsNext(k, View());
    }

    lemma ExitIsNext(k: State, k': State)
      requires Good(k) && ExitGuard(k.s) && k'.s == Exit(k.s)
      requires k'.stacks == k.stacks && DataFreed(k.m, k'.m, k.s.Proc())
      ensures Allowed(k, Call(DoExit)) && Next(k, Call(DoExit), k')
    {
    }

    method FreeAndLeave()
      requires Apart() && sched.Valid() && ExitGuard(sched.View())
      modifies Repr()
      ensures Apart() && sched.Valid() && stacks == old(stacks)
      ensures Inv(old(sched.View())) && sched.View() == Exit(old(sched.View()))
      ensures DataFreed(old(mem.view), mem.view, old(sched.View()).Proc())
    {
      ExitDispatches(sched.View());
      FreeDataPages();
      label Freed:
      Leave(sched.View());
      KeptIsApart@Freed();
    }

    method FreeDataPages()
      requires Apart() && sched.Coherent() && sched.CurrentP() < NR_TASKS
      modifies mem.Repr()
      ensures Apart() && sched.Coherent() && sched.View() == old(sched.View())
      ensures DataFreed(old(mem.view), mem.view, old(sched.CurrentP()))
    {
      mem.FreePages(sched.CurrentP());
    }

    method Leave(ghost s: Sched)
      requires Apart() && sched.Coherent() && s == sched.View() && Inv(s) && ExitGuard(s)
      modifies sched, sched.heap, sched.tasks, sched.threads
      ensures MemoryKept()
      ensures sched.Coherent() && sched.View() == Exit(s)
    {
      sched.LeaveProcess();
    }

    /** The memory half is as it was. */
    twostate predicate MemoryKept()
      reads mem.Repr()
    {
      && mem.view == old(mem.view)
      && mem.used[..] == old(mem.used[..]) && mem.ram[..] == old(mem.ram[..])
      && forall p | 0 <= p < |mem.tables| :: mem.RowOf(p) == old(mem.RowOf(p))
    }

    twostate lemma KeptIsApart()
      requires old(Apart()) && MemoryKept()
      ensures Apart()
    {
    }

    method StoreByte(page: nat, o: nat, b: Byte)
      requires Valid() && Allowed(View(), Store(page, o, b))
      modifies Repr()
      ensures Valid() && Next(old(View()), Store(page, o, b), View())
    {
      ghost var k := View();
      mem.StoreUser(sched.CurrentP(), page, o, b);
      NextGood(k, Store(page, o, b), View());
    }
  }

  method StartKernel(contents: seq<Byte>) returns (k: System)
    requires |contents| == TOTAL_PAGES * PAGE_SIZE
    ensures fresh(k) && fresh(k.Repr()) && k.Valid() && BootedKernel(k.View())
  {
    var sched := new Scheduler.Scheduler();
    var mem := new Memory.Memory(contents);
    k := new System(sched, mem);
  }
}
