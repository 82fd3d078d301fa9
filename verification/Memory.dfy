/** mm.c and the memory half of sys_fork, sys_pthread_create and sys_exit, in place on
    phys_mem, the page tables and the frames. */
module Memory {
  import opened Frames
  import opened Paging
  import opened Scheduling
  import CopyData

  type PageTable = array<FrameNo>

  method SetSsPag(pt: PageTable, page: nat, frame: nat)
    requires page < pt.Length
    modifies pt
    ensures pt[..] == Entered(old(pt[..]), page, BaseAddr(frame))
  {
    pt[page] := 0;
    pt[page] := BaseAddr(frame);
  }

  method DelSsPag(pt: PageTable, page: nat)
    requires page < pt.Length
    modifies pt
    ensures pt[..] == Entered(old(pt[..]), page, 0)
  {
    pt[page] := 0;
  }

  function GetFrame(pt: PageTable, page: nat): FrameNo
    requires page < pt.Length
    reads pt
  {
    pt[page]
  }

  class Memory {
    const used: array<bool>
    const tables: seq<PageTable>
    const ram: array<Byte>
    /** What the arrays hold. */
    ghost var view: Mem

    ghost function Repr(): set<object> {
      {this, used, ram} + Arrays()
    }

    ghost function Arrays(): set<object> {
      set p | 0 <= p < |tables| :: tables[p]
    }

    ghost predicate Sized() {
      && used.Length == TOTAL_PAGES && ram.Length == TOTAL_PAGES * PAGE_SIZE
      && |tables| == NR_TASKS
      && (forall p | 0 <= p < NR_TASKS :: tables[p].Length == TOTAL_PAGES)
      && (forall p, q | 0 <= p < q < NR_TASKS :: tables[p] != tables[q])
    }

    ghost predicate Valid()
      reads Repr()
    {
      && Sized()
      && view.used == used[..] && view.ram == ram[..] && |view.tables| == NR_TASKS
      && forall p | 0 <= p < NR_TASKS :: view.tables[p] == RowOf(p)
    }

    ghost function RowOf(p: nat): Table
      requires p < |tables|
      reads Repr()
    {
      assert tables[p] in Repr();
      tables[p][..]
    }

    ghost function Rows(): seq<Table>
      reads Repr()
    {
      seq(|tables|, p requires 0 <= p < |tables| reads Repr() => RowOf(p))
    }

    // ---------------------------------------------------------------- mm.c

    method AllocFrame() returns (f: int)
      requires Sized()
      modifies used
      ensures f == -1 <==> FreeFrames(old(used[..])) == {}
      ensures f == -1 ==> used[..] == old(used[..])
      ensures f != -1 ==> f >= 0 && Lowest(old(used[..]), f) && used[..] == old(used[..])[f := true]
    {
      var i := NUM_PAG_KERNEL;
      while i < TOTAL_PAGES
        invariant i % 2 == 0 && NUM_PAG_KERNEL <= i && used[..] == old(used[..])
        invariant forall g | NUM_PAG_KERNEL <= g < i && g < TOTAL_PAGES && Candidate(g) :: used[g]
        decreases TOTAL_PAGES - i
      {
        if !used[i] {
          used[i] := true;
          f := i;
          assert f in FreeFrames(old(used[..]));
          return;
        }
        i := i + 2;
      }
      f := -1;
    }

    method FreeFrame(f: nat)
      requires Sized()
      modifies used
      ensures used[..] == if NUM_PAG_KERNEL < f < TOTAL_PAGES then old(used[..])[f := false] else old(used[..])
    {
      if f > NUM_PAG_KERNEL && f < TOTAL_PAGES {
        used[f] := false;
      }
    }

    // ---------------------------------------------------------------- sys_fork

    /** The memory half of sys_fork, for parent `p` and child `c`. */
    method ForkPages(p: nat, c: nat) returns (ok: bool)
      requires Valid() && p < NR_TASKS && c < NR_TASKS && p != c
      requires forall i | 0 <= i < NUM_PAG_DATA :: DataFrames(view.tables[p])[i] < TOTAL_PAGES && used[DataFrames(view.tables[p])[i]]
      modifies Repr()
      ensures Valid() && (ok <==> |FreeFrames(old(view).used)| >= NUM_PAG_DATA)
      ensures if ok then Forked(old(view), view, p, c) else RolledBack(old(view), view, c)
    {
      ghost var m := view;
      ok := GrantOrRollBack(c);
      if ok {
        ghost var m1 := view;
        GrantedCount(m.used, m1.used, DataFrames(m1.tables[c])[..NUM_PAG_DATA]);
        GrantedAreOthers(m, m1, p, c);
        ghost var m2 := Duplicate(p, c);
        ForkedInSteps(m, m1, m2, view, p, c);
      }
    }

    /** The loop over the child's data pages, with its way out when frames run out. */
    method GrantOrRollBack(c: nat) returns (ok: bool)
      requires Valid() && c < NR_TASKS
      modifies this, used, tables[c]
      ensures Valid()
      ensures if ok then Granting(old(view), view, c, NUM_PAG_DATA) else RolledBack(old(view), view, c)
    {
      ghost var m := view;
      var granted := GrantPages(tables[c]);
      ghost var m1 := Mem(used[..], m.tables[c := tables[c][..]], m.ram);
      view := m1;
      ok := granted == NUM_PAG_DATA;
      if !ok {
        TakeBack(tables[c], granted);
        ghost var m2 := Mem(used[..], m.tables[c := tables[c][..]], m.ram);
        view := m2;
        RolledBackInSteps(m, m1, m2, c, granted);
      }
    }

    /** The rest of fork's page work; `m2` is the state between its two parts. */
    method Duplicate(p: nat, c: nat) returns (ghost m2: Mem)
      requires Valid() && p < NR_TASKS && c < NR_TASKS && p != c
      requires Copyable(DataFrames(tables[p][..]), DataFrames(tables[c][..]))
      modifies this, tables[p], tables[c], ram
      ensures Valid()
      ensures var m1 := old(view);
              && m2 == m1.(tables := m1.tables[c := Shared(m1.tables[p], m1.tables[c], PAG_LOG_INIT_DATA)])
              && view == m2.(tables := m2.tables[p := ClearedWindow(m2.tables[p], NUM_PAG_DATA)], ram := ram[..])
              && PagesCopied(m2.ram, ram[..], DataFrames(m2.tables[p]), DataFrames(m2.tables[c]))
    {
      ghost var m1 := view;
      m2 := m1.(tables := m1.tables[c := Shared(m1.tables[p], m1.tables[c], PAG_LOG_INIT_DATA)]);
      CopyEntries(tables[p], tables[c]);
      assert DataFrames(tables[c][..]) == DataFrames(m1.tables[c]);
      CopyDataPages(tables[p], tables[c]);
      view := Mem(m2.used, m2.tables[p := ClearedWindow(m2.tables[p], NUM_PAG_DATA)], ram[..]);
    }

    /** The allocation loop, up to the first failure. */
    method GrantPages(pt: PageTable) returns (pag: nat)
      requires Sized() && pt.Length == TOTAL_PAGES
      modifies used, pt
      ensures pag <= NUM_PAG_DATA && (pag < NUM_PAG_DATA ==> FreeFrames(used[..]) == {})
      ensures GrantedTo(old(used[..]), used[..], old(pt[..]), pt[..], pag)
    {
      ghost var u, t := used[..], pt[..];
      pag := 0;
      while pag < NUM_PAG_DATA
        invariant pag <= NUM_PAG_DATA && GrantedTo(u, used[..], t, pt[..], pag)
      {
        ghost var u1, t1 := used[..], pt[..];
        var f := AllocFrame();
        if f == -1 {
          return;
        }
        SetSsPag(pt, PAG_LOG_INIT_DATA + pag, f);
        GrantingStep(u, u1, t, t1, pag, f);
        pag := pag + 1;
      }
    }

    /** The rollback loop. */
    method TakeBack(pt: PageTable, pag: nat)
      requires Sized() && pt.Length == TOTAL_PAGES && pag <= NUM_PAG_DATA
      modifies used, pt
      ensures Returned(old(used[..]), used[..], DataFrames(old(pt[..]))[..pag])
      ensures pt[..] == Unmapped(old(pt[..]), pag)
    {
      ghost var u, t := used[..], pt[..];
      ghost var fs := DataFrames(t);
      var i := 0;
      while i < pag
        invariant i <= pag && Returned(u, used[..], fs[..i]) && pt[..] == Unmapped(t, i)
      {
        assert pt[PAG_LOG_INIT_DATA + i] == fs[i] && fs[..i + 1] == fs[..i] + [fs[i]];
        ReturnOne(u, used[..], fs[..i], fs[i]);
        FreeFrame(GetFrame(pt, PAG_LOG_INIT_DATA + i));
        DelSsPag(pt, PAG_LOG_INIT_DATA + i);
        i := i + 1;
      }
    }

    /** Kernel and code pages are the parent's. */
    method CopyEntries(parent: PageTable, child: PageTable)
      requires parent.Length == child.Length == TOTAL_PAGES && parent != child
      modifies child
      ensures child[..] == Shared(parent[..], old(child[..]), PAG_LOG_INIT_DATA)
    {
      CopyRange(parent, child, 0, NUM_PAG_KERNEL);
      CopyRange(parent, child, PAG_LOG_INIT_CODE, NUM_PAG_CODE);
    }

    method CopyRange(parent: PageTable, child: PageTable, first: nat, count: nat)
      requires parent.Length == child.Length == TOTAL_PAGES && parent != child && first + count <= TOTAL_PAGES
      modifies child
      ensures forall j | 0 <= j < TOTAL_PAGES ::
                child[j] == if first <= j < first + count then parent[j] else old(child[j])
    {
      var pag := 0;
      while pag < count
        invariant pag <= count
        invariant forall j | 0 <= j < TOTAL_PAGES ::
                    child[j] == if first <= j < first + pag then parent[j] else old(child[j])
      {
        SetSsPag(child, first + pag, GetFrame(parent, first + pag));
        pag := pag + 1;
      }
    }

    /** Each data page is copied through a page of the parent's that is mapped to the
        child's frame meanwhile. */
    method CopyDataPages(parent: PageTable, child: PageTable)
      requires Sized() && parent.Length == child.Length == TOTAL_PAGES && parent != child
      requires Copyable(DataFrames(parent[..]), DataFrames(child[..]))
      modifies parent, ram
      ensures parent[..] == ClearedWindow(old(parent[..]), NUM_PAG_DATA)
      ensures PagesCopied(old(ram[..]), ram[..], DataFrames(old(parent[..])), DataFrames(child[..]))
    {
      ghost var t, r := parent[..], ram[..];
      ghost var src, dst := DataFrames(t), DataFrames(child[..]);
      var pag := PAG_LOG_INIT_DATA;
      while pag < PAG_STACKS
        invariant PAG_LOG_INIT_DATA <= pag <= PAG_STACKS
        invariant parent[..] == ClearedWindow(t, pag - PAG_LOG_INIT_DATA)
        invariant PagesCopied(r, ram[..], src[..pag - PAG_LOG_INIT_DATA], dst[..pag - PAG_LOG_INIT_DATA])
      {
        ghost var k, r1 := pag - PAG_LOG_INIT_DATA, ram[..];
        assert parent[pag] == src[k] && child[pag] == dst[k];
        CopyPage(parent, child, pag);
        CopyOnePage(r, r1, src[..k], dst[..k], src[k], dst[k]);
        assert src[..k + 1] == src[..k] + [src[k]] && dst[..k + 1] == dst[..k] + [dst[k]];
        pag := pag + 1;
      }
      assert src[..NUM_PAG_DATA] == src && dst[..NUM_PAG_DATA] == dst;
    }

    method CopyPage(parent: PageTable, child: PageTable, pag: nat)
      requires Sized() && parent.Length == child.Length == TOTAL_PAGES && parent != child && pag < PAG_STACKS
      requires parent[pag] < TOTAL_PAGES && child[pag] < TOTAL_PAGES && parent[pag] != child[pag]
      modifies parent, ram
      ensures parent[..] == Entered(old(parent[..]), pag + NUM_PAG_DATA, 0)
      ensures ram[..] == CopyData.Moved(old(ram[..]), old(parent[pag]) * PAGE_SIZE, child[pag] * PAGE_SIZE, PAGE_SIZE)
    {
      SetSsPag(parent, pag + NUM_PAG_DATA, GetFrame(child, pag));
      assert parent[pag + NUM_PAG_DATA] == child[pag] && parent[pag] == old(parent[pag]);
      CopyMapped(parent, pag, pag + NUM_PAG_DATA);
      DelSsPag(parent, pag + NUM_PAG_DATA);
    }

    /** copy_data of a whole page to another, through one table. */
    method CopyMapped(pt: PageTable, from: nat, to: nat)
      requires Sized() && from < pt.Length && to < pt.Length
      requires pt[from] < TOTAL_PAGES && pt[to] < TOTAL_PAGES && pt[from] != pt[to]
      modifies ram
      ensures ram[..] == CopyData.Moved(old(ram[..]), pt[from] * PAGE_SIZE, pt[to] * PAGE_SIZE, PAGE_SIZE)
    {
      CopyData.CopyBlock(ram, GetFrame(pt, from) * PAGE_SIZE, GetFrame(pt, to) * PAGE_SIZE, PAGE_SIZE);
    }

    // ---------------------------------------------------------------- sys_pthread_create

    /** The search for a stack page; `esp` is where the new thread's stack starts. */
    method MapStack(p: nat) returns (page: nat, f: int, esp: nat)
      requires Valid() && p < NR_TASKS
      requires exists j :: PAG_STACKS <= j < TOTAL_PAGES && tables[p][j] == 0
      modifies this, used, tables[p]
      ensures Valid() && StackMapped(old(view), view, p, page, f) && esp == (page + 1) * PAGE_SIZE
      ensures view.tables[p][page] == (if FreeFrames(old(view).used) == {} then 0xF_FFFF else f)
      ensures view.tables[p][page] != 0 && (view.Maps(p, page) <==> FreeFrames(old(view).used) != {})
    {
      ghost var m := view;
      var pt := tables[p];
      page := PAG_STACKS;
      while pt[page] != 0
        invariant PAG_STACKS <= page < TOTAL_PAGES
        invariant exists j :: page <= j < TOTAL_PAGES && pt[j] == 0
        invariant forall j | PAG_STACKS <= j < page :: pt[j] != 0
        decreases TOTAL_PAGES - page
      {
        page := page + 1;
      }
      f := AllocFrame();
      pt[page] := 0;
      pt[page] := BaseAddr(f);
      esp := (page + 1) * PAGE_SIZE;
      view := Mem(used[..], m.tables[p := Entered(m.tables[p], page, BaseAddr(f))], m.ram);
    }

    // ---------------------------------------------------------------- sys_exit

    method FreePages(p: nat)
      requires Valid() && p < NR_TASKS
      modifies this, used, tables[p]
      ensures Valid() && DataFreed(old(view), view, p)
    {
      ghost var m := view;
      TakeBack(tables[p], NUM_PAG_DATA);
      assert DataFrames(m.tables[p])[..NUM_PAG_DATA] == DataFrames(m.tables[p]);
      view := Mem(used[..], m.tables[p := Unmapped(m.tables[p], NUM_PAG_DATA)], m.ram);
    }

    // ---------------------------------------------------------------- user code

    /** A store by the running process to one of its own pages. */
    method StoreUser(p: nat, page: nat, o: nat, b: Byte)
      requires Valid() && view.Maps(p, page) && o < PAGE_SIZE
      modifies this, ram
      ensures Valid() && view == Stored(old(view), p, page, o, b)
    {
      ghost var m := view;
      ram[GetFrame(tables[p], page) * PAGE_SIZE + o] := b;
      view := Mem(m.used, m.tables, ram[..]);
    }

    // ---------------------------------------------------------------- boot

    /** init_mm, and set_user_pages for the process of init_task1. */
    constructor (contents: seq<Byte>)
      requires |contents| == TOTAL_PAGES * PAGE_SIZE
      ensures Valid() && fresh(Repr()) && BootPages(view)
    {
      used := new bool[TOTAL_PAGES](_ => false);
      ram := new Byte[TOTAL_PAGES * PAGE_SIZE](i requires 0 <= i < |contents| => contents[i]);
      var ts: seq<PageTable> := [];
      while |ts| < NR_TASKS
        invariant |ts| <= NR_TASKS
        invariant forall p | 0 <= p < |ts| :: fresh(ts[p]) && ts[p].Length == TOTAL_PAGES
        invariant forall p, q | 0 <= p < q < |ts| :: ts[p] != ts[q]
      {
        var t := new FrameNo[TOTAL_PAGES](_ => 0);
        ts := ts + [t];
      }
      tables := ts;
      new;
      InitTablePages();
      InitFrames();
      SetUserPages(tables[1]);
      view := Mem(used[..], Rows(), ram[..]);
    }

    method InitTablePages()
      requires Sized()
      modifies Arrays()
      ensures forall p | 0 <= p < NR_TASKS :: KernelTable(tables[p][..])
    {
      var j := 0;
      while j < NR_TASKS
        invariant j <= NR_TASKS
        invariant forall p | 0 <= p < j :: KernelTable(tables[p][..])
        modifies Arrays()
      {
        InitTable(tables[j]);
        j := j + 1;
      }
    }

    method InitTable(pt: PageTable)
      requires pt.Length == TOTAL_PAGES
      modifies pt
      ensures KernelTable(pt[..])
    {
      var i := 0;
      while i < TOTAL_PAGES
        invariant i <= TOTAL_PAGES && forall j | 0 <= j < i :: pt[j] == 0
      {
        pt[i] := 0;
        i := i + 1;
      }
      i := 1;
      while i < NUM_PAG_KERNEL
        invariant 1 <= i <= NUM_PAG_KERNEL
        invariant forall j | 0 <= j < TOTAL_PAGES :: pt[j] == if j < i then j else 0
      {
        pt[i] := i;
        i := i + 1;
      }
    }

    method InitFrames()
      requires Sized()
      modifies used
      ensures forall f | 0 <= f < TOTAL_PAGES :: used[f] == (f < NUM_PAG_KERNEL)
    {
      var i := 0;
      while i < TOTAL_PAGES
        invariant i <= TOTAL_PAGES && forall f | 0 <= f < i :: !used[f]
      {
        used[i] := false;
        i := i + 1;
      }
      i := 0;
      while i < NUM_PAG_KERNEL
        invariant i <= NUM_PAG_KERNEL
        invariant forall f | 0 <= f < TOTAL_PAGES :: used[f] == (f < i)
      {
        used[i] := true;
        i := i + 1;
      }
    }

    method SetUserPages(pt: PageTable)
      requires Sized() && pt.Length == TOTAL_PAGES && UserTable(pt[..], PAG_LOG_INIT_CODE) && FirstUsed(used[..], 0)
      modifies used, pt
      ensures UserTable(pt[..], PAG_STACKS) && FirstUsed(used[..], NUM_PAG_CODE + NUM_PAG_DATA)
    {
      FillPages(pt, PAG_LOG_INIT_CODE, NUM_PAG_CODE);
      FillPages(pt, PAG_LOG_INIT_DATA, NUM_PAG_DATA);
    }

    /** One of the loops of set_user_pages. */
    method FillPages(pt: PageTable, first: nat, count: nat)
      requires Sized() && pt.Length == TOTAL_PAGES && PAG_LOG_INIT_CODE <= first && first + count <= PAG_STACKS
      requires UserTable(pt[..], first) && FirstUsed(used[..], first - PAG_LOG_INIT_CODE)
      modifies used, pt
      ensures UserTable(pt[..], first + count) && FirstUsed(used[..], first + count - PAG_LOG_INIT_CODE)
    {
      var pag := 0;
      while pag < count
        invariant pag <= count
        invariant UserTable(pt[..], first + pag) && FirstUsed(used[..], first + pag - PAG_LOG_INIT_CODE)
      {
        NextFrame(used[..], first + pag - PAG_LOG_INIT_CODE);
        var f := AllocFrame();
        pt[first + pag] := 0;
        pt[first + pag] := BaseAddr(f);
        pag := pag + 1;
      }
    }
  }
}
