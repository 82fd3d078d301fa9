/** What fork, pthread_create, exit and user code keep of every process's address space. */
module AddressSpaces {
  import opened Frames
  import opened Paging
  import opened Scheduling

  /** Everyone's kernel and code pages are the same frames; no other frame is mapped twice,
      in one table or in two, and every mapped frame is in use. A process that is not live
      has no data pages, though the stack pages of its threads stay mapped. */
  ghost predicate Isolated(m: Mem, live: set<nat>) {
    && m.Sized()
    && (forall p | p in live :: 0 < p < NR_TASKS)
    && FramesHeld(m.used)
    && (forall p, j | 0 <= p < NR_TASKS && 0 <= j < NUM_PAG_KERNEL :: m.tables[p][j] == j)
    && (forall p, j | p in live && PAG_LOG_INIT_CODE <= j < PAG_LOG_INIT_DATA :: m.tables[p][j] == FrameAt(j - PAG_LOG_INIT_CODE))
    && (forall p: nat, j | p < NR_TASKS && PAG_LOG_INIT_DATA <= j < PAG_STACKS :: m.tables[p][j] != 0 <==> p in live)
    && (forall p, j | 0 <= p < NR_TASKS && PAG_LOG_INIT_DATA <= j < TOTAL_PAGES && m.tables[p][j] != 0 :: Own(m.used, m.tables[p][j]))
    && (forall p, j, q, k | Private(m, p, j) && Private(m, q, k) && m.tables[p][j] == m.tables[q][k] :: p == q && j == k)
  }

  /** The kernel's frames and the eight code frames are in use, and no odd frame beyond. */
  predicate FramesHeld(used: seq<bool>) {
    && |used| == TOTAL_PAGES
    && (forall f | 0 <= f < NUM_PAG_KERNEL :: used[f])
    && (forall i: nat | i < NUM_PAG_CODE :: used[FrameAt(i)])
    && (forall f | NUM_PAG_KERNEL <= f < TOTAL_PAGES && used[f] :: Candidate(f))
  }

  predicate Own(used: seq<bool>, f: nat)
    requires |used| == TOTAL_PAGES
  {
    FrameAt(NUM_PAG_CODE) <= f < TOTAL_PAGES && Candidate(f) && used[f]
  }

  /** A data or stack page. */
  ghost predicate Private(m: Mem, p: int, j: int)
    requires m.Sized()
  {
    0 <= p < NR_TASKS && PAG_LOG_INIT_DATA <= j < TOTAL_PAGES && m.tables[p][j] != 0
  }

  lemma FreeIsBeyondCode(used: seq<bool>, f: nat)
    requires FramesHeld(used) && f < TOTAL_PAGES && Candidate(f) && !used[f]
    ensures FrameAt(NUM_PAG_CODE) <= f
  {
    assert f == FrameAt((f - NUM_PAG_KERNEL) / 2);
  }

  lemma BootIsolated(m: Mem)
    requires BootPages(m)
    ensures Isolated(m, {1})
  {
  }

  // ------------------------------------------------------------------ fork

  lemma ForkIsolated(m: Mem, m': Mem, p: nat, c: nat, live: set<nat>)
    requires Isolated(m, live) && Forked(m, m', p, c) && p in live && 0 < c && c !in live
    ensures Isolated(m', live + {c})
  {
    var fs := DataFrames(m'.tables[c]);
    forall i | 0 <= i < NUM_PAG_DATA
      ensures Own(m'.used, fs[i]) && !m.used[fs[i]]
    {
      FreeIsBeyondCode(m.used, fs[i]);
    }
    ForkedEntries(m, m', p, c, fs);
  }

  /** Every data or stack page afterwards is one of the child's new ones or was there. */
  lemma ForkedEntries(m: Mem, m': Mem, p: nat, c: nat, fs: seq<nat>)
    requires Forked(m, m', p, c) && fs == DataFrames(m'.tables[c])
    requires forall q, j | Private(m, q, j) :: Own(m.used, m.tables[q][j])
    requires forall i | 0 <= i < NUM_PAG_DATA :: Own(m'.used, fs[i])
    ensures forall q, j | Private(m', q, j) ::
              && Own(m'.used, m'.tables[q][j])
              && ((q == c && j < PAG_STACKS) || (Private(m, q, j) && m'.tables[q][j] == m.tables[q][j]))
  {
    forall q, j | Private(m', q, j)
      ensures Own(m'.used, m'.tables[q][j])
      ensures (q == c && j < PAG_STACKS) || (Private(m, q, j) && m'.tables[q][j] == m.tables[q][j])
    {
      if q == c && j < PAG_STACKS {
        assert m'.tables[q][j] == fs[j - PAG_LOG_INIT_DATA];
      }
    }
  }

  /** What fork relies on: the parent's data pages are there. */
  lemma DataPagesInUse(m: Mem, p: nat, live: set<nat>)
    requires Isolated(m, live) && p in live
    ensures forall i | 0 <= i < NUM_PAG_DATA :: DataFrames(m.tables[p])[i] < TOTAL_PAGES && m.used[DataFrames(m.tables[p])[i]]
  {
    assert forall i | 0 <= i < NUM_PAG_DATA :: DataFrames(m.tables[p])[i] == m.tables[p][PAG_LOG_INIT_DATA + i];
  }

  /** The rollback leaves no trace at all: frame 256 is a code page's, and the child's table
      had no data pages. */
  lemma RollbackIsExact(m: Mem, m': Mem, c: nat, live: set<nat>)
    requires Isolated(m, live) && RolledBack(m, m', c) && c !in live
    ensures m' == m
  {
    assert m.used[FrameAt(0)];
    assert m'.tables[c] == m.tables[c];
  }

  // ------------------------------------------------------------------ pthread_create and exit

  lemma StackIsolated(m: Mem, m': Mem, p: nat, page: nat, f: int, live: set<nat>)
    requires Isolated(m, live) && StackMapped(m, m', p, page, f) && f != -1
    ensures Isolated(m', live)
  {
    FreeIsBeyondCode(m.used, f);
    forall q, j | 0 <= q < NR_TASKS && PAG_LOG_INIT_DATA <= j < TOTAL_PAGES && m'.tables[q][j] != 0
      ensures Own(m'.used, m'.tables[q][j])
      ensures (q == p && j == page && m'.tables[q][j] == f) || (Private(m, q, j) && m'.tables[q][j] == m.tables[q][j])
    {
    }
  }

  lemma ExitIsolated(m: Mem, m': Mem, p: nat, live: set<nat>)
    requires Isolated(m, live) && DataFreed(m, m', p) && p in live
    ensures Isolated(m', live - {p})
  {
    var fs := DataFrames(m.tables[p]);
    forall i | 0 <= i < NUM_PAG_DATA
      ensures fs[i] == m.tables[p][PAG_LOG_INIT_DATA + i] && Own(m.used, fs[i])
    {
    }
    assert forall i: nat | i < NUM_PAG_CODE :: FrameAt(i) !in fs;
    forall q, j | 0 <= q < NR_TASKS && PAG_LOG_INIT_DATA <= j < TOTAL_PAGES && m'.tables[q][j] != 0
      ensures Own(m'.used, m'.tables[q][j]) && Private(m, q, j) && m'.tables[q][j] == m.tables[q][j]
    {
      assert forall k | PAG_LOG_INIT_DATA <= k < PAG_STACKS :: Private(m, p, k);
    }
  }

  lemma StoreIsolated(m: Mem, p: nat, page: nat, o: nat, b: Byte, live: set<nat>)
    requires Isolated(m, live) && m.Maps(p, page) && o < PAGE_SIZE
    ensures Isolated(Stored(m, p, page, o, b), live)
  {
  }

  // ------------------------------------------------------------------ what a process reads

  /** Process `q` has the same pages, with the same bytes in them. */
  ghost predicate SameSpace(m: Mem, m': Mem, q: nat) {
    && m.Sized() && m'.Sized() && q < NR_TASKS
    && m'.tables[q] == m.tables[q]
    && forall page: nat, o: nat | page < TOTAL_PAGES && o < PAGE_SIZE && m.Maps(q, page) :: m'.Load(q, page, o) == m.Load(q, page, o)
  }

  /** The same but for the contents of the code pages, whose frames all processes share. */
  ghost predicate SameButCode(m: Mem, m': Mem, q: nat) {
    && m.Sized() && m'.Sized() && q < NR_TASKS
    && m'.tables[q] == m.tables[q]
    && forall page: nat, o: nat | page < TOTAL_PAGES && !IsCode(page) && o < PAGE_SIZE && m.Maps(q, page) ::
         m'.Load(q, page, o) == m.Load(q, page, o)
  }

  predicate IsCode(page: nat) {
    PAG_LOG_INIT_CODE <= page < PAG_LOG_INIT_DATA
  }

  /** What every live process reads at offset `o` of a code page. */
  ghost function CodeByte(m: Mem, page: nat, o: nat): Byte
    requires m.Sized() && IsCode(page) && o < PAGE_SIZE
  {
    Cell(m.ram, FrameAt(page - PAG_LOG_INIT_CODE), o)
  }

  lemma ReadsCode(m: Mem, live: set<nat>, q: nat, page: nat, o: nat)
    requires Isolated(m, live) && q in live && IsCode(page) && o < PAGE_SIZE
    ensures m.Maps(q, page) && m.Load(q, page, o) == CodeByte(m, page, o)
  {
  }

  lemma SameSpaceIff(m: Mem, m': Mem, live: set<nat>, q: nat)
    requires Isolated(m, live) && q in live && SameButCode(m, m', q)
    ensures SameSpace(m, m', q) <==>
              forall page: nat, o: nat | IsCode(page) && o < PAGE_SIZE :: CodeByte(m', page, o) == CodeByte(m, page, o)
  {
    forall page: nat, o: nat | IsCode(page) && o < PAGE_SIZE
      ensures m.Maps(q, page) && m.Load(q, page, o) == CodeByte(m, page, o)
      ensures m'.Maps(q, page) && m'.Load(q, page, o) == CodeByte(m', page, o)
    {
      ReadsCode(m, live, q, page, o);
    }
  }

  /** Process `c` now reads from the page what `p` did. */
  ghost predicate SamePage(m: Mem, m': Mem, p: nat, c: nat, page: nat)
    requires m.Sized() && m'.Sized()
  {
    m.Maps(p, page) && m'.Maps(c, page) &&
    forall o: nat | o < PAGE_SIZE :: m'.Load(c, page, o) == m.Load(p, page, o)
  }

  /** The child reads, in every code and data page, what the parent did. */
  ghost predicate Duplicated(m: Mem, m': Mem, p: nat, c: nat) {
    m.Sized() && m'.Sized() && forall page: nat | PAG_LOG_INIT_CODE <= page < PAG_STACKS :: SamePage(m, m', p, c, page)
  }

  lemma FramesInUse(m: Mem, live: set<nat>, q: nat, page: nat)
    requires Isolated(m, live) && q < NR_TASKS && m.Maps(q, page)
    requires q in live || !(PAG_LOG_INIT_CODE <= page < PAG_LOG_INIT_DATA)
    ensures m.used[m.tables[q][page]]
  {
  }

  lemma ForkDuplicates(m: Mem, m': Mem, p: nat, c: nat, live: set<nat>)
    requires Isolated(m, live) && Forked(m, m', p, c) && p in live && c !in live
    ensures Duplicated(m, m', p, c)
  {
    forall page: nat | PAG_LOG_INIT_CODE <= page < PAG_STACKS
      ensures SamePage(m, m', p, c, page)
    {
      if page < PAG_LOG_INIT_DATA {
        FramesInUse(m, live, p, page);
        assert m.tables[p][page] !in DataFrames(m'.tables[c]);
      } else {
        var i := page - PAG_LOG_INIT_DATA;
        assert DataFrames(m.tables[p])[i] == m.tables[p][page];
        assert DataFrames(m'.tables[c])[i] == m'.tables[c][page];
      }
    }
  }

  /** Every other live process keeps its address space. */
  lemma ForkLeavesOthers(m: Mem, m': Mem, p: nat, c: nat, q: nat, live: set<nat>)
    requires Isolated(m, live) && Forked(m, m', p, c) && p in live && c !in live && q in live && q != p
    ensures SameSpace(m, m', q)
  {
    forall page: nat, o: nat | page < TOTAL_PAGES && o < PAGE_SIZE && m.Maps(q, page)
      ensures m'.Load(q, page, o) == m.Load(q, page, o)
    {
      FramesInUse(m, live, q, page);
      assert m.tables[q][page] !in DataFrames(m'.tables[c]);
    }
  }

  /** The parent keeps its own exactly when it has no thread stack in the window. */
  lemma ForkLeavesParentIff(m: Mem, m': Mem, p: nat, c: nat, live: set<nat>)
    requires Isolated(m, live) && Forked(m, m', p, c) && p in live && c !in live
    ensures SameSpace(m, m', p) <==> forall j | PAG_STACKS <= j < END_WINDOW :: m.tables[p][j] == 0
  {
    if forall j | PAG_STACKS <= j < END_WINDOW :: m.tables[p][j] == 0 {
      assert m'.tables[p] == m.tables[p];
      forall page: nat, o: nat | page < TOTAL_PAGES && o < PAGE_SIZE && m.Maps(p, page)
        ensures m'.Load(p, page, o) == m.Load(p, page, o)
      {
        FramesInUse(m, live, p, page);
        assert m.tables[p][page] !in DataFrames(m'.tables[c]);
      }
    } else {
      var j :| PAG_STACKS <= j < END_WINDOW && m.tables[p][j] != 0;
      assert m'.tables[p][j] == 0;
    }
  }

  lemma StackLeavesOthers(m: Mem, m': Mem, p: nat, page: nat, f: int, q: nat)
    requires StackMapped(m, m', p, page, f) && q < NR_TASKS && q != p
    ensures SameSpace(m, m', q)
  {
  }

  lemma ExitLeavesOthers(m: Mem, m': Mem, p: nat, q: nat)
    requires DataFreed(m, m', p) && q < NR_TASKS && q != p
    ensures SameSpace(m, m', q)
  {
  }

  /** A store to a data or stack page is seen by nobody else. */
  lemma StoreLeavesOthers(m: Mem, p: nat, page: nat, o: nat, b: Byte, q: nat, live: set<nat>)
    requires Isolated(m, live) && PAG_LOG_INIT_DATA <= page && m.Maps(p, page) && o < PAGE_SIZE
    requires q in live && q != p
    ensures SameSpace(m, Stored(m, p, page, o, b), q)
  {
    var m' := Stored(m, p, page, o, b);
    forall k: nat, i: nat | k < TOTAL_PAGES && i < PAGE_SIZE && m.Maps(q, k)
      ensures m'.Load(q, k, i) == m.Load(q, k, i)
    {
      assert Private(m, p, page);
      if k >= PAG_LOG_INIT_DATA {
        assert Private(m, q, k);
      }
      assert m.tables[q][k] != m.tables[p][page];
    }
  }

  /** One to a code page by everybody, and no store by anybody elsewhere. */
  lemma StoreSeenIff(m: Mem, p: nat, page: nat, o: nat, b: Byte, q: nat, live: set<nat>)
    requires Isolated(m, live) && PAG_LOG_INIT_CODE <= page && m.Maps(p, page) && o < PAGE_SIZE
    requires p in live && q in live && q != p && b != m.Load(p, page, o)
    ensures SameSpace(m, Stored(m, p, page, o, b), q) <==> !IsCode(page)
  {
    if IsCode(page) {
      ReadsCode(m, live, p, page, o);
      ReadsCode(m, live, q, page, o);
      assert Stored(m, p, page, o, b).Load(q, page, o) == b;
    } else {
      StoreLeavesOthers(m, p, page, o, b, q, live);
    }
  }

  lemma StoreLeavesButCode(m: Mem, p: nat, page: nat, o: nat, b: Byte, q: nat, live: set<nat>)
    requires Isolated(m, live) && IsCode(page) && m.Maps(p, page) && o < PAGE_SIZE && p in live && q in live
    ensures SameButCode(m, Stored(m, p, page, o, b), q)
  {
    var m' := Stored(m, p, page, o, b);
    forall k: nat, i: nat | k < TOTAL_PAGES && !IsCode(k) && i < PAGE_SIZE && m.Maps(q, k)
      ensures m'.Load(q, k, i) == m.Load(q, k, i)
    {
      assert m.tables[q][k] != m.tables[p][page];
    }
  }

  lemma StoreToCode(m: Mem, p: nat, page: nat, o: nat, b: Byte, k: nat, i: nat, live: set<nat>)
    requires Isolated(m, live) && PAG_LOG_INIT_CODE <= page && m.Maps(p, page) && o < PAGE_SIZE && p in live
    requires IsCode(k) && i < PAGE_SIZE
    ensures CodeByte(Stored(m, p, page, o, b), k, i) == if page == k && o == i then b else CodeByte(m, k, i)
  {
    ReadsCode(m, live, p, k, i);
    if page != k {
      assert m.tables[p][page] != m.tables[p][k];
    }
  }

  lemma ForkLeavesCode(m: Mem, m': Mem, p: nat, c: nat, live: set<nat>, page: nat, o: nat)
    requires Isolated(m, live) && Forked(m, m', p, c) && IsCode(page) && o < PAGE_SIZE
    ensures CodeByte(m', page, o) == CodeByte(m, page, o)
  {
    var f := FrameAt(page - PAG_LOG_INIT_CODE);
    assert m.used[f] && f !in DataFrames(m'.tables[c]);
  }

  // ------------------------------------------------------------------ conservation

  /** Kernel, code, twenty frames a process, and every stack page ever mapped. */
  ghost predicate Conserved(m: Mem, live: set<nat>, stacks: nat) {
    && |m.used| == TOTAL_PAGES
    && |UsedFrames(m.used)| == NUM_PAG_KERNEL + NUM_PAG_CODE + NUM_PAG_DATA * |live| + stacks
  }

  lemma ForkConserves(m: Mem, m': Mem, p: nat, c: nat, live: set<nat>, stacks: nat)
    requires Conserved(m, live, stacks) && Forked(m, m', p, c) && c !in live
    ensures Conserved(m', live + {c}, stacks)
  {
    var fs := DataFrames(m'.tables[c]);
    GrantedUsed(m.used, m'.used, fs);
    assert |live + {c}| == |live| + 1;
  }

  lemma GrantedUsed(used: seq<bool>, used': seq<bool>, fs: seq<nat>)
    requires Granted(used, used', fs)
    ensures |UsedFrames(used')| == |UsedFrames(used)| + |fs|
  {
    DistinctElements(fs);
    assert UsedFrames(used') == UsedFrames(used) + Elements(fs);
    assert UsedFrames(used) !! Elements(fs);
  }

  lemma StackConserves(m: Mem, m': Mem, p: nat, page: nat, f: int, live: set<nat>, stacks: nat)
    requires Conserved(m, live, stacks) && StackMapped(m, m', p, page, f) && f != -1
    ensures Conserved(m', live, stacks + 1)
  {
    assert UsedFrames(m'.used) == UsedFrames(m.used) + {f};
  }

  lemma ExitConserves(m: Mem, m': Mem, p: nat, live: set<nat>, stacks: nat)
    requires Isolated(m, live) && Conserved(m, live, stacks) && DataFreed(m, m', p) && p in live
    ensures Conserved(m', live - {p}, stacks)
  {
    var fs := DataFrames(m.tables[p]);
    forall i, j | 0 <= i < j < |fs|
      ensures fs[i] != fs[j]
    {
      assert Private(m, p, PAG_LOG_INIT_DATA + i) && Private(m, p, PAG_LOG_INIT_DATA + j);
    }
    forall i | 0 <= i < |fs|
      ensures Own(m.used, fs[i])
    {
      assert Private(m, p, PAG_LOG_INIT_DATA + i);
    }
    DistinctElements(fs);
    assert UsedFrames(m'.used) == UsedFrames(m.used) - Elements(fs);
    assert Elements(fs) <= UsedFrames(m.used);
  }

  function Candidates(): (fs: seq<nat>)
    ensures |fs| == 384 && forall i | 0 <= i < 384 :: fs[i] == FrameAt(i)
  {
    seq(384, i requires 0 <= i => FrameAt(i))
  }

  /** Every frame that can be handed out is either free or in use beside the kernel's. */
  lemma FreeAndUsed(used: seq<bool>)
    requires FramesHeld(used)
    ensures |FreeFrames(used)| + |UsedFrames(used)| == NUM_PAG_KERNEL + |Candidates()|
  {
    var all := seq(NUM_PAG_KERNEL, i => i) + Candidates();
    DistinctElements(all);
    forall f: nat | f < TOTAL_PAGES && Candidate(f)
      ensures f in Elements(all)
    {
      assert all[NUM_PAG_KERNEL + (f - NUM_PAG_KERNEL) / 2] == f;
    }
    forall f: nat | f < NUM_PAG_KERNEL
      ensures f in Elements(all)
    {
      assert all[f] == f;
    }
    assert FreeFrames(used) + UsedFrames(used) == Elements(all);
  }

  /** How much room there is for a fork, by what has happened so far. */
  lemma RoomForFork(m: Mem, live: set<nat>, stacks: nat)
    requires Isolated(m, live) && Conserved(m, live, stacks)
    ensures |FreeFrames(m.used)| == 376 - NUM_PAG_DATA * |live| - stacks
    ensures |FreeFrames(m.used)| >= NUM_PAG_DATA <==> NUM_PAG_DATA * (|live| + 1) + stacks <= 376
  {
    FreeAndUsed(m.used);
  }

  lemma BootConserves(m: Mem)
    requires BootPages(m)
    ensures Conserved(m, {1}, 0)
  {
    BootIsolated(m);
    FreeAndUsed(m.used);
    var rest := Candidates()[28..];
    DistinctElements(rest);
    forall f: nat | f in FreeFrames(m.used)
      ensures f in Elements(rest)
    {
      assert rest[(f - FrameAt(28)) / 2] == f;
    }
    assert FreeFrames(m.used) == Elements(rest);
  }

  // ------------------------------------------------------------------ the stack page search

  /** As long as every stack page got a frame, the search finds an empty entry, in the lower
      half of where it may look. */
  lemma StackSearchEnds(m: Mem, live: set<nat>, p: nat)
    requires Isolated(m, live) && p < NR_TASKS
    ensures exists j :: PAG_STACKS <= j < PAG_STACKS + 377 && m.tables[p][j] == 0
  {
    var t := m.tables[p][PAG_STACKS..PAG_STACKS + 377];
    if forall j | PAG_STACKS <= j < PAG_STACKS + 377 :: m.tables[p][j] != 0 {
      forall i, j | 0 <= i < j < |t|
        ensures t[i] != t[j]
      {
        assert Private(m, p, PAG_STACKS + i) && Private(m, p, PAG_STACKS + j);
      }
      DistinctElements(t);
      var all := Candidates()[NUM_PAG_CODE..];
      DistinctElements(all);
      forall f | f in Elements(t)
        ensures f in Elements(all)
      {
        assert all[(f - FrameAt(NUM_PAG_CODE)) / 2] == f;
      }
      Subset(Elements(t), Elements(all));
      assert false;
    }
  }
}
