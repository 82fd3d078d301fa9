/** The kernel's block copy (utils.c): four bytes at a time while more than four
    remain, then byte by byte, always upwards. */
module CopyData {

  /** The intended effect: the block at `src`, read before anything is written,
      lands at `dst`; nothing else changes. */
  function Moved<T>(m: seq<T>, src: nat, dst: nat, size: nat): (r: seq<T>)
    requires src + size <= |m| && dst + size <= |m|
    ensures |r| == |m|
  {
    m[..dst] + m[src..src + size] + m[dst + size..]
  }

  /** What the two loops compute. */
  function Copied<T>(m: seq<T>, src: nat, dst: nat, size: int): (r: seq<T>)
    requires src + size <= |m| && dst + size <= |m|
    ensures |r| == |m|
    decreases size
  {
    if size > 4 then
      Copied(Moved(m, src, dst, 4), src + 4, dst + 4, size - 4)
    else if size > 0 then
      Copied(Moved(m, src, dst, 1), src + 1, dst + 1, size - 1)
    else
      m
  }

  /** The destination starts strictly inside the source block. */
  predicate ForwardOverlap(src: nat, dst: nat, size: int) {
    src < dst < src + size
  }

  method Copy<T>(mem: array<T>, src: nat, dst: nat, size: int)
    requires src + size <= mem.Length && dst + size <= mem.Length
    modifies mem
    ensures mem[..] == Copied(old(mem[..]), src, dst, size)
  {
    ghost var goal := Copied(mem[..], src, dst, size);
    var p: nat, q: nat, left := src, dst, size;
    while left > 4
      invariant p + left == src + size && q + left == dst + size
      invariant Copied(mem[..], p, q, left) == goal
    {
      StoreWord(mem, p, q);
      p, q, left := p + 4, q + 4, left - 4;
    }
    CopyBytes(mem, p, q, left);
  }

  /** Copy on blocks that it moves exactly. */
  method CopyBlock<T>(mem: array<T>, src: nat, dst: nat, size: nat)
    requires src + size <= mem.Length && dst + size <= mem.Length && !ForwardOverlap(src, dst, size)
    modifies mem
    ensures mem[..] == Moved(old(mem[..]), src, dst, size)
  {
    CopiedIsMoved(mem[..], src, dst, size);
    Copy(mem, src, dst, size);
  }

  method CopyBytes<T>(mem: array<T>, src: nat, dst: nat, size: int)
    requires src + size <= mem.Length && dst + size <= mem.Length && size <= 4
    modifies mem
    ensures mem[..] == Copied(old(mem[..]), src, dst, size)
  {
    ghost var goal := Copied(mem[..], src, dst, size);
    var p: nat, q: nat, left := src, dst, size;
    while left > 0
      invariant p + left == src + size && q + left == dst + size
      invariant Copied(mem[..], p, q, left) == goal
    {
      StoreByte(mem, p, q);
      p, q, left := p + 1, q + 1, left - 1;
    }
  }

  method StoreByte<T>(mem: array<T>, p: nat, q: nat)
    requires p < mem.Length && q < mem.Length
    modifies mem
    ensures mem[..] == Moved(old(mem[..]), p, q, 1)
  {
    ghost var m := mem[..];
    mem[q] := mem[p];
    assert m[p..p + 1] == [m[p]];
    assert forall k | 0 <= k < mem.Length :: mem[k] == if k == q then m[p] else m[k];
  }

  /** One 32-bit load and store: all four bytes are read before any is written. */
  method StoreWord<T>(mem: array<T>, p: nat, q: nat)
    requires p + 4 <= mem.Length && q + 4 <= mem.Length
    modifies mem
    ensures mem[..] == Moved(old(mem[..]), p, q, 4)
  {
    ghost var m := mem[..];
    mem[q], mem[q + 1], mem[q + 2], mem[q + 3] := mem[p], mem[p + 1], mem[p + 2], mem[p + 3];
    assert m[p..p + 4] == [m[p], m[p + 1], m[p + 2], m[p + 3]];
  }

  /** Disjoint blocks, or a destination at or below the source: a byte-exact move. */
  lemma {:induction false} CopiedIsMoved<T>(m: seq<T>, src: nat, dst: nat, size: nat)
    requires src + size <= |m| && dst + size <= |m|
    requires !ForwardOverlap(src, dst, size)
    ensures Copied(m, src, dst, size) == Moved(m, src, dst, size)
    decreases size
  {
    if size > 0 {
      var step := if size > 4 then 4 else 1;
      var m' := Moved(m, src, dst, step);
      CopiedIsMoved(m', src + step, dst + step, size - step);
      MoveInSteps(m, src, dst, step, size);
    }
  }

  /** A move can be made in two steps, provided the first does not spoil the second's source. */
  lemma MoveInSteps<T>(m: seq<T>, src: nat, dst: nat, step: nat, size: nat)
    requires src + size <= |m| && dst + size <= |m| && step <= size
    requires !ForwardOverlap(src, dst, size)
    ensures Moved(Moved(m, src, dst, step), src + step, dst + step, size - step) == Moved(m, src, dst, size)
  {
    var m' := Moved(m, src, dst, step);
    var r, r' := Moved(m, src, dst, size), Moved(m', src + step, dst + step, size - step);
    forall k | 0 <= k < |m|
      ensures r'[k] == r[k]
    {
      if dst + step <= k < dst + size {
        assert r'[k] == m'[src + (k - dst)];
      }
    }
  }

  lemma {:induction false} CopiedKeepsConstant<T>(m: seq<T>, b: T, src: nat, dst: nat, size: int)
    requires src + size <= |m| && dst + size <= |m|
    requires forall k | 0 <= k < |m| :: m[k] == b
    ensures forall k | 0 <= k < |m| :: Copied(m, src, dst, size)[k] == b
    decreases size
  {
    if size > 0 {
      var step := if size > 4 then 4 else 1;
      CopiedKeepsConstant(Moved(m, src, dst, step), b, src + step, dst + step, size - step);
    }
  }

  /** A memory on which a forward-overlapping copy goes wrong: a single `a` that
      the very first store overwrites before the copy has read it. */
  function Spoiled<T>(len: nat, a: T, b: T, src: nat, dst: nat, size: int): (m: seq<T>)
    ensures |m| == len
  {
    var spot := if size > 4 && dst < src + 4 then src + 4 else dst;
    seq(len, i => if i == spot then a else b)
  }

  lemma {:induction false} ForwardOverlapFails<T>(len: nat, a: T, b: T, src: nat, dst: nat, size: nat)
    requires a != b
    requires src + size <= len && dst + size <= len
    requires ForwardOverlap(src, dst, size)
    ensures var m := Spoiled(len, a, b, src, dst, size);
            Copied(m, src, dst, size) != Moved(m, src, dst, size)
  {
    var m := Spoiled(len, a, b, src, dst, size);
    var spot := if size > 4 && dst < src + 4 then src + 4 else dst;
    var step := if size > 4 then 4 else 1;
    var m' := Moved(m, src, dst, step);
    assert forall k | 0 <= k < len :: m'[k] == b;
    CopiedKeepsConstant(m', b, src + step, dst + step, size - step);
    var there := dst + (spot - src);
    assert m[spot] == a;
    assert Moved(m, src, dst, size)[there] == a;
    assert Copied(m, src, dst, size)[there] == b;
  }

  /** The copy is a move on every memory exactly when the blocks do not overlap forwards. */
  lemma CopyIsMoveIff<T(!new)>(len: nat, a: T, b: T, src: nat, dst: nat, size: nat)
    requires a != b
    requires src + size <= len && dst + size <= len
    ensures (forall m: seq<T> | |m| == len :: Copied(m, src, dst, size) == Moved(m, src, dst, size))
       <==> !ForwardOverlap(src, dst, size)
  {
    if ForwardOverlap(src, dst, size) {
      ForwardOverlapFails(len, a, b, src, dst, size);
    } else {
      forall m: seq<T> | |m| == len
        ensures Copied(m, src, dst, size) == Moved(m, src, dst, size)
      {
        CopiedIsMoved(m, src, dst, size);
      }
    }
  }
}
