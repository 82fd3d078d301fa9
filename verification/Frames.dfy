/** Physical frames: the byte map of mm.c and its allocator, which takes the lowest free
    frame of every other one from NUM_PAG_KERNEL up. */
module Frames {
  const TOTAL_PAGES: nat := 1024
  const NUM_PAG_KERNEL: nat := 256

  /** The frames that alloc_frame looks at. */
  predicate Candidate(f: int) {
    NUM_PAG_KERNEL <= f < TOTAL_PAGES && f % 2 == 0
  }

  function FreeFrames(used: seq<bool>): set<nat>
    requires |used| == TOTAL_PAGES
  {
    set f: nat | f < TOTAL_PAGES && Candidate(f) && !used[f]
  }

  predicate Lowest(used: seq<bool>, f: nat)
    requires |used| == TOTAL_PAGES
  {
    f < TOTAL_PAGES && Candidate(f) && !used[f] && forall g: nat | NUM_PAG_KERNEL <= g < f && Candidate(g) :: used[g]
  }

  predicate Increasing(fs: seq<nat>) {
    forall i, j | 0 <= i < j < |fs| :: fs[i] < fs[j]
  }

  /** `fs` are the lowest |fs| free frames, in order, and what has become of the map. */
  ghost predicate Granted(used: seq<bool>, used': seq<bool>, fs: seq<nat>) {
    && |used| == |used'| == TOTAL_PAGES
    && Increasing(fs)
    && (forall i | 0 <= i < |fs| :: fs[i] < TOTAL_PAGES && Candidate(fs[i]) && !used[fs[i]])
    && (forall f | 0 <= f < TOTAL_PAGES :: used'[f] == (used[f] || f in fs))
    && (forall g: nat, i | g < TOTAL_PAGES && Candidate(g) && !used'[g] && 0 <= i < |fs| :: fs[i] < g)
  }

  lemma GrantOne(used: seq<bool>, used': seq<bool>, fs: seq<nat>, f: nat)
    requires Granted(used, used', fs) && Lowest(used', f)
    ensures Granted(used, used'[f := true], fs + [f])
  {
    var fs' := fs + [f];
    assert forall x :: x in fs' <==> x in fs || x == f;
    assert forall i | 0 <= i < |fs'| :: fs'[i] == if i < |fs| then fs[i] else f;
  }

  function Elements(fs: seq<nat>): set<nat> {
    set i | 0 <= i < |fs| :: fs[i]
  }

  ghost predicate Distinct(fs: seq<nat>) {
    forall i, j | 0 <= i < j < |fs| :: fs[i] != fs[j]
  }

  lemma {:induction false} Subset(a: set<nat>, b: set<nat>)
    requires a <= b
    ensures |a| <= |b|
  {
    assert b == a + (b - a);
  }

  lemma {:induction false} DistinctElements(fs: seq<nat>)
    requires Distinct(fs)
    ensures |Elements(fs)| == |fs|
  {
    if fs != [] {
      var init, last := fs[..|fs| - 1], fs[|fs| - 1];
      DistinctElements(init);
      assert Elements(fs) == Elements(init) + {last};
    }
  }

  lemma GrantedCount(used: seq<bool>, used': seq<bool>, fs: seq<nat>)
    requires Granted(used, used', fs)
    ensures |FreeFrames(used')| + |fs| == |FreeFrames(used)|
  {
    DistinctElements(fs);
    assert FreeFrames(used') == FreeFrames(used) - Elements(fs);
    assert Elements(fs) <= FreeFrames(used);
  }

  /** The map with the frames of `fs` freed again: free_frame leaves frame 256 alone. */
  ghost predicate Returned(used: seq<bool>, used': seq<bool>, fs: seq<nat>) {
    && |used| == |used'| == TOTAL_PAGES
    && forall f | 0 <= f < TOTAL_PAGES :: used'[f] == (used[f] && (f <= NUM_PAG_KERNEL || f !in fs))
  }

  lemma ReturnOne(used: seq<bool>, used': seq<bool>, fs: seq<nat>, f: nat)
    requires Returned(used, used', fs)
    ensures Returned(used, if NUM_PAG_KERNEL < f < TOTAL_PAGES then used'[f := false] else used', fs + [f])
  {
    assert forall x :: x in fs + [f] <==> x in fs || x == f;
  }

  lemma FirstGranted(used: seq<bool>, used': seq<bool>, fs: seq<nat>, g: nat)
    requires Granted(used, used', fs) && fs != [] && g < TOTAL_PAGES && Candidate(g) && !used[g]
    ensures fs[0] <= g
  {
    if used'[g] {
      var i :| 0 <= i < |fs| && fs[i] == g;
    }
  }

  /** Granting and returning the same frames gives back the old map exactly when frame 256
      was held, or none was granted. */
  lemma ReturnGranted(used: seq<bool>, used1: seq<bool>, used2: seq<bool>, fs: seq<nat>)
    requires Granted(used, used1, fs) && Returned(used1, used2, fs)
    ensures used2 == used <==> used[NUM_PAG_KERNEL] || fs == []
    ensures fs != [] ==> used2 == used[NUM_PAG_KERNEL := true]
  {
    if fs != [] && !used[NUM_PAG_KERNEL] {
      FirstGranted(used, used1, fs, NUM_PAG_KERNEL);
      assert fs[0] == NUM_PAG_KERNEL;
      assert used2[NUM_PAG_KERNEL];
    }
  }

  function UsedFrames(used: seq<bool>): set<nat>
    requires |used| == TOTAL_PAGES
  {
    set f: nat | f < TOTAL_PAGES && used[f]
  }
}
