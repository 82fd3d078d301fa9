/** Address spaces: page tables over frames, and what fork, pthread_create and exit do to
    them (mm.c, sys.c). A table maps pages to frames; 0 is an empty entry. */
module Paging {
  import opened Frames
  import CopyData
  import opened Scheduling

  const PAGE_SIZE: nat := 4096
  const NUM_PAG_CODE: nat := 8
  const NUM_PAG_DATA: nat := 20
  const PAG_LOG_INIT_CODE: nat := 256
  const PAG_LOG_INIT_DATA: nat := PAG_LOG_INIT_CODE + NUM_PAG_CODE
  /** Above the data pages: thread stacks, and fork's window on the child's pages. */
  const PAG_STACKS: nat := PAG_LOG_INIT_DATA + NUM_PAG_DATA
  const END_WINDOW: nat := PAG_STACKS + NUM_PAG_DATA

  type Byte = b: nat | b < 256

  /** What the 20 bits of pbase_addr hold. */
  type FrameNo = f: nat | f < 0x10_0000

  type Table = seq<FrameNo>

  /** phys_mem, pagusr_table, and what is in the frames. */
  datatype Mem = Mem(used: seq<bool>, tables: seq<Table>, ram: seq<Byte>)
  {
    ghost predicate Sized() {
      && |used| == TOTAL_PAGES && |ram| == TOTAL_PAGES * PAGE_SIZE
      && |tables| == NR_TASKS && forall p | 0 <= p < NR_TASKS :: |tables[p]| == TOTAL_PAGES
    }

    /** The page table of `p` leads to a frame. */
    ghost predicate Maps(p: nat, page: nat)
      requires Sized()
    {
      p < NR_TASKS && page < TOTAL_PAGES && 0 < tables[p][page] < TOTAL_PAGES
    }

    /** The byte that process `p` reads at offset `o` of a page. */
    ghost function Load(p: nat, page: nat, o: nat): Byte
      requires Sized() && Maps(p, page) && o < PAGE_SIZE
    {
      Cell(ram, tables[p][page], o)
    }
  }

  function Cell(ram: seq<Byte>, f: nat, o: nat): Byte
    requires |ram| == TOTAL_PAGES * PAGE_SIZE && f < TOTAL_PAGES && o < PAGE_SIZE
  {
    ram[f * PAGE_SIZE + o]
  }

  function Entered(t: Table, page: nat, frame: FrameNo): Table
    requires page < |t|
  {
    t[page := frame]
  }

  predicate InRam(fs: seq<nat>) {
    forall i | 0 <= i < |fs| :: fs[i] < TOTAL_PAGES
  }

  /** The frames `src` have been copied to the frames `dst`, each to its own. */
  ghost predicate PagesCopied(r: seq<Byte>, r': seq<Byte>, src: seq<nat>, dst: seq<nat>) {
    && |r| == |r'| == TOTAL_PAGES * PAGE_SIZE && |src| == |dst| && InRam(src) && InRam(dst)
    && (forall i, o | 0 <= i < |dst| && 0 <= o < PAGE_SIZE :: Cell(r', dst[i], o) == Cell(r, src[i], o))
    && (forall f: nat, o | f < TOTAL_PAGES && f !in dst && 0 <= o < PAGE_SIZE :: Cell(r', f, o) == Cell(r, f, o))
  }

  /** copy_data on one page more, from and to frames that are not among the targets so far. */
  lemma CopyOnePage(r: seq<Byte>, r1: seq<Byte>, src: seq<nat>, dst: seq<nat>, s: nat, d: nat)
    requires PagesCopied(r, r1, src, dst)
    requires s < TOTAL_PAGES && d < TOTAL_PAGES && s != d && s !in dst && d !in dst
    ensures PagesCopied(r, CopyData.Moved(r1, s * PAGE_SIZE, d * PAGE_SIZE, PAGE_SIZE), src + [s], dst + [d])
  {
    var r2 := CopyData.Moved(r1, s * PAGE_SIZE, d * PAGE_SIZE, PAGE_SIZE);
    forall f: nat, o | f < TOTAL_PAGES && 0 <= o < PAGE_SIZE
      ensures Cell(r2, f, o) == if f == d then Cell(r1, s, o) else Cell(r1, f, o)
    {
      MovedCell(r1, s, d, f, o);
    }
    assert forall x :: x in dst + [d] <==> x in dst || x == d;
  }

  lemma MovedCell(r: seq<Byte>, s: nat, d: nat, f: nat, o: nat)
    requires |r| == TOTAL_PAGES * PAGE_SIZE && s < TOTAL_PAGES && d < TOTAL_PAGES && f < TOTAL_PAGES && o < PAGE_SIZE
    ensures Cell(CopyData.Moved(r, s * PAGE_SIZE, d * PAGE_SIZE, PAGE_SIZE), f, o) == if f == d then Cell(r, s, o) else Cell(r, f, o)
  {
    if f == d {
      assert r[s * PAGE_SIZE..s * PAGE_SIZE + PAGE_SIZE][o] == r[s * PAGE_SIZE + o];
    }
  }

  // ------------------------------------------------------------------ fork

  function DataFrames(t: Table): (fs: seq<FrameNo>)
    requires |t| == TOTAL_PAGES
    ensures |fs| == NUM_PAG_DATA
  {
    t[PAG_LOG_INIT_DATA..PAG_STACKS]
  }

  /** The child's data frames are the lowest free ones, its kernel and code pages are the
      parent's, the frames' contents are those of the parent's data pages, and whatever the
      parent had in the window is unmapped. */
  ghost predicate Forked(m: Mem, m': Mem, p: nat, c: nat) {
    && m.Sized() && m'.Sized() && p < NR_TASKS && c < NR_TASKS
    && Granted(m.used, m'.used, DataFrames(m'.tables[c]))
    && m'.tables == m.tables[p := ClearedWindow(m.tables[p], NUM_PAG_DATA)]
                            [c := ChildTable(m.tables[p], m.tables[c], DataFrames(m'.tables[c]))]
    && PagesCopied(m.ram, m'.ram, DataFrames(m.tables[p]), DataFrames(m'.tables[c]))
  }

  /** `k` data pages of a table have been granted their frames. */
  ghost predicate GrantedTo(used: seq<bool>, used': seq<bool>, t: Table, t': Table, k: nat) {
    && |t| == |t'| == TOTAL_PAGES && k <= NUM_PAG_DATA
    && Granted(used, used', DataFrames(t')[..k])
    && t' == WithData(t, DataFrames(t')[..k])
  }

  ghost predicate Granting(m: Mem, m1: Mem, c: nat, k: nat) {
    && m.Sized() && m1.Sized() && c < NR_TASKS
    && GrantedTo(m.used, m1.used, m.tables[c], m1.tables[c], k)
    && m1.ram == m.ram && m1.tables == m.tables[c := m1.tables[c]]
  }

  function WithData(t: Table, fs: seq<FrameNo>): (t': Table)
    requires |t| == TOTAL_PAGES && |fs| <= NUM_PAG_DATA
    ensures |t'| == TOTAL_PAGES
    ensures forall j | 0 <= j < TOTAL_PAGES ::
              t'[j] == if PAG_LOG_INIT_DATA <= j < PAG_LOG_INIT_DATA + |fs| then fs[j - PAG_LOG_INIT_DATA] else t[j]
  {
    t[..PAG_LOG_INIT_DATA] + fs + t[PAG_LOG_INIT_DATA + |fs|..]
  }

  lemma GrantingStep(u: seq<bool>, u1: seq<bool>, t: Table, t1: Table, k: nat, f: nat)
    requires GrantedTo(u, u1, t, t1, k) && k < NUM_PAG_DATA && Lowest(u1, f)
    ensures GrantedTo(u, u1[f := true], t, Entered(t1, PAG_LOG_INIT_DATA + k, BaseAddr(f)), k + 1)
  {
    var fs, t2 := DataFrames(t1)[..k], Entered(t1, PAG_LOG_INIT_DATA + k, BaseAddr(f));
    GrantOne(u, u1, fs, f);
    assert DataFrames(t2)[..k + 1] == fs + [f];
    assert t2 == WithData(t, fs + [f]);
  }

  /** Two sets of data frames that have nothing in common, neither with themselves. */
  ghost predicate Copyable(src: seq<nat>, dst: seq<nat>) {
    && InRam(src) && InRam(dst) && Increasing(dst)
    && forall i, j | 0 <= i < |src| && 0 <= j < |dst| :: src[i] != dst[j]
  }

  function ClearedWindow(t: Table, k: nat): (t': Table)
    requires |t| == TOTAL_PAGES && k <= NUM_PAG_DATA
    ensures |t'| == TOTAL_PAGES
    ensures forall j | 0 <= j < TOTAL_PAGES :: t'[j] == if PAG_STACKS <= j < PAG_STACKS + k then 0 else t[j]
  {
    seq(TOTAL_PAGES, j requires 0 <= j < TOTAL_PAGES => if PAG_STACKS <= j < PAG_STACKS + k then 0 else t[j])
  }

  /** The first `k` entries of a table that shares pages with its parent's. */
  function Shared(parent: Table, child: Table, k: nat): (t: Table)
    requires |parent| == |child| == TOTAL_PAGES && k <= TOTAL_PAGES
    ensures |t| == TOTAL_PAGES
    ensures forall j | 0 <= j < TOTAL_PAGES :: t[j] == if j < k then parent[j] else child[j]
  {
    parent[..k] + child[k..]
  }

  /** The loops after the allocation, put together. */
  lemma ForkedInSteps(m: Mem, m1: Mem, m2: Mem, m3: Mem, p: nat, c: nat)
    requires Granting(m, m1, c, NUM_PAG_DATA) && p < NR_TASKS && p != c
    requires m2 == m1.(tables := m1.tables[c := Shared(m1.tables[p], m1.tables[c], PAG_LOG_INIT_DATA)])
    requires m3 == m2.(tables := m2.tables[p := ClearedWindow(m2.tables[p], NUM_PAG_DATA)], ram := m3.ram)
    requires PagesCopied(m2.ram, m3.ram, DataFrames(m2.tables[p]), DataFrames(m2.tables[c]))
    ensures Forked(m, m3, p, c)
  {
    var fs := DataFrames(m1.tables[c]);
    assert fs[..NUM_PAG_DATA] == fs;
    assert DataFrames(m3.tables[c]) == fs == DataFrames(m2.tables[c]);
    assert m3.tables[c] == ChildTable(m.tables[p], m.tables[c], fs);
  }

  /** A process's data frames and newly granted ones have nothing in common. */
  lemma GrantedAreOthers(m: Mem, m1: Mem, p: nat, c: nat)
    requires Granting(m, m1, c, NUM_PAG_DATA) && p < NR_TASKS && p != c
    requires forall i | 0 <= i < NUM_PAG_DATA :: DataFrames(m.tables[p])[i] < TOTAL_PAGES && m.used[DataFrames(m.tables[p])[i]]
    ensures Copyable(DataFrames(m1.tables[p]), DataFrames(m1.tables[c]))
  {
    var fs := DataFrames(m1.tables[c]);
    assert fs[..NUM_PAG_DATA] == fs;
  }

  lemma RolledBackInSteps(m: Mem, m1: Mem, m2: Mem, c: nat, k: nat)
    requires Granting(m, m1, c, k) && k < NUM_PAG_DATA && FreeFrames(m1.used) == {}
    requires Returned(m1.used, m2.used, DataFrames(m1.tables[c])[..k])
    requires m2 == m1.(used := m2.used, tables := m1.tables[c := Unmapped(m1.tables[c], k)])
    ensures RolledBack(m, m2, c)
  {
    var fs := DataFrames(m1.tables[c])[..k];
    GrantedCount(m.used, m1.used, fs);
    ReturnGranted(m.used, m1.used, m2.used, fs);
    assert m2.tables[c] == Unmapped(m.tables[c], k);
  }

  function ChildTable(parent: Table, child: Table, fs: seq<FrameNo>): (t: Table)
    requires |parent| == |child| == TOTAL_PAGES && |fs| == NUM_PAG_DATA
    ensures |t| == TOTAL_PAGES
    ensures forall j | 0 <= j < TOTAL_PAGES ::
              t[j] == if j < PAG_LOG_INIT_DATA then parent[j] else if j < PAG_STACKS then fs[j - PAG_LOG_INIT_DATA] else child[j]
  {
    parent[..PAG_LOG_INIT_DATA] + fs + child[PAG_STACKS..]
  }

  /** Frames have run out: what was granted is free again and unmapped. Frame 256, were it
      free, would be lost. */
  ghost predicate RolledBack(m: Mem, m': Mem, c: nat) {
    && m.Sized() && c < NR_TASKS && |FreeFrames(m.used)| < NUM_PAG_DATA
    && m' == m.(used := if FreeFrames(m.used) == {} then m.used else m.used[NUM_PAG_KERNEL := true],
                tables := m.tables[c := Unmapped(m.tables[c], |FreeFrames(m.used)|)])
  }

  /** The first `k` data pages are unmapped. */
  function Unmapped(t: Table, k: nat): (t': Table)
    requires |t| == TOTAL_PAGES && k <= NUM_PAG_DATA
    ensures |t'| == TOTAL_PAGES
    ensures forall j | 0 <= j < TOTAL_PAGES ::
              t'[j] == if PAG_LOG_INIT_DATA <= j < PAG_LOG_INIT_DATA + k then 0 else t[j]
  {
    seq(TOTAL_PAGES, j requires 0 <= j < TOTAL_PAGES =>
      if PAG_LOG_INIT_DATA <= j < PAG_LOG_INIT_DATA + k then 0 else t[j])
  }

  // ------------------------------------------------------------------ pthread_create and exit

  /** Lowest page from 284 up with an empty entry. */
  predicate FirstStackPage(t: Table, page: nat)
    requires |t| == TOTAL_PAGES
  {
    PAG_STACKS <= page < TOTAL_PAGES && t[page] == 0 && forall j | PAG_STACKS <= j < page :: t[j] != 0
  }

  /** The 20 bits of an entry hold -1 as 0xFFFFF. */
  function BaseAddr(frame: int): FrameNo {
    frame % 0x10_0000
  }

  /** A stack page has been mapped for a new thread of `p`; without a free frame the entry
      points nowhere. */
  ghost predicate StackMapped(m: Mem, m': Mem, p: nat, page: nat, f: int) {
    && m.Sized() && p < NR_TASKS && FirstStackPage(m.tables[p], page)
    && (if FreeFrames(m.used) == {} then f == -1 else f >= 0 && Lowest(m.used, f))
    && m' == m.(used := if f == -1 then m.used else m.used[f := true],
                tables := m.tables[p := Entered(m.tables[p], page, BaseAddr(f))])
  }

  /** `p` has a page more, one that was empty, on a frame that was free; a stack that starts
      at `esp` grows down through it. */
  ghost predicate NewStack(m: Mem, m': Mem, p: nat, page: nat, esp: int) {
    && m.Sized() && m'.Sized() && p < NR_TASKS && FirstStackPage(m.tables[p], page)
    && m'.Maps(p, page) && Lowest(m.used, m'.tables[p][page])
    && esp == (page + 1) * PAGE_SIZE
  }

  lemma MappedIsNew(m: Mem, m': Mem, p: nat, page: nat, f: int)
    requires StackMapped(m, m', p, page, f) && FreeFrames(m.used) != {}
    ensures NewStack(m, m', p, page, (page + 1) * PAGE_SIZE)
  {
  }

  /** The data pages of `p` are unmapped and their frames free. */
  ghost predicate DataFreed(m: Mem, m': Mem, p: nat) {
    && m.Sized() && p < NR_TASKS
    && Returned(m.used, m'.used, DataFrames(m.tables[p]))
    && m' == m.(used := m'.used, tables := m.tables[p := Unmapped(m.tables[p], NUM_PAG_DATA)])
  }

  // ------------------------------------------------------------------ user code

  function Stored(m: Mem, p: nat, page: nat, o: nat, b: Byte): Mem
    requires m.Sized() && m.Maps(p, page) && o < PAGE_SIZE
  {
    m.(ram := m.ram[m.tables[p][page] * PAGE_SIZE + o := b])
  }

  // ------------------------------------------------------------------ boot

  /** Kernel pages lead to the frames of the same number, page 0 among them nowhere. */
  predicate KernelTable(t: Table) {
    |t| == TOTAL_PAGES && forall j | 0 <= j < TOTAL_PAGES :: t[j] == if j < NUM_PAG_KERNEL then j else 0
  }

  /** And user pages, up to `top`, to every other frame from the first on. */
  predicate UserTable(t: Table, top: nat) {
    |t| == TOTAL_PAGES && forall j | 0 <= j < TOTAL_PAGES ::
      t[j] == if j < NUM_PAG_KERNEL then j else if j < top then FrameAt(j - PAG_LOG_INIT_CODE) else 0
  }

  function FrameAt(k: nat): nat {
    NUM_PAG_KERNEL + 2 * k
  }

  /** The kernel's frames and the first `k` of the others that are handed out are in use. */
  predicate FirstUsed(used: seq<bool>, k: nat) {
    |used| == TOTAL_PAGES && forall f | 0 <= f < TOTAL_PAGES ::
      used[f] == (f < NUM_PAG_KERNEL || (Candidate(f) && f < FrameAt(k)))
  }

  lemma NextFrame(used: seq<bool>, k: nat)
    requires FirstUsed(used, k) && FrameAt(k) < TOTAL_PAGES
    ensures FrameAt(k) in FreeFrames(used)
    ensures forall f | Lowest(used, f) :: f == FrameAt(k)
    ensures FirstUsed(used[FrameAt(k) := true], k + 1)
  {
  }

  ghost predicate BootPages(m: Mem) {
    && m.Sized() && FirstUsed(m.used, NUM_PAG_CODE + NUM_PAG_DATA)
    && UserTable(m.tables[1], PAG_STACKS)
    && forall p | 0 <= p < NR_TASKS && p != 1 :: KernelTable(m.tables[p])
  }
}
