/** The intrusive circular doubly linked lists of list.c, on a heap that carries all of
    the kernel's lists at once. */
module ListHeap {
  import opened Rings

  /** Where a list_head lives: on its own, as the head of a list, or inside a struct. */
  datatype Addr = Null | Head(q: Queue) | Of(n: Node)

  type Memory = map<Addr, Addr>

  /** The address at position `i` of the circle through `q`'s head: the head at both ends. */
  function At(q: Queue, s: seq<Node>, i: nat): Addr
    requires i <= |s| + 1
  {
    if 1 <= i <= |s| then Of(s[i - 1]) else Head(q)
  }

  predicate Linked(next: Memory, prev: Memory, a: Addr, b: Addr) {
    a in next && next[a] == b && b in prev && prev[b] == a
  }

  predicate LinkAt(next: Memory, prev: Memory, q: Queue, s: seq<Node>, i: nat)
    requires i <= |s|
  {
    Linked(next, prev, At(q, s, i), At(q, s, i + 1))
  }

  /** `next` runs once around the circle and `prev` runs back. */
  predicate Circle(next: Memory, prev: Memory, q: Queue, s: seq<Node>) {
    forall i: nat | i <= |s| :: LinkAt(next, prev, q, s, i)
  }

  ghost predicate Represents(next: Memory, prev: Memory, r: Rings) {
    && WellFormed(r)
    && forall q | q in r.seqs :: Circle(next, prev, q, r.seqs[q])
  }

  /** The address belongs to the circle of `q`. */
  ghost predicate OnCircle(r: Rings, q: Queue, a: Addr) {
    match a
    case Null => false
    case Head(h) => h == q
    case Of(n) => n in r.home && r.home[n] == q
  }

  lemma AtIsOnCircle(r: Rings, q: Queue, i: nat)
    requires WellFormed(r) && q in r.seqs && i <= |r.seqs[q]| + 1
    ensures OnCircle(r, q, At(q, r.seqs[q], i))
  {
    if 1 <= i <= |r.seqs[q]| {
      assert r.home[r.seqs[q][i - 1]] == q;
    }
  }

  /** Stores at addresses of other circles, or of none, leave a circle alone. */
  lemma CircleFrame(next: Memory, prev: Memory, next': Memory, prev': Memory, r: Rings, q: Queue)
    requires Represents(next, prev, r) && q in r.seqs
    requires forall a | OnCircle(r, q, a) && a in next :: a in next' && next'[a] == next[a]
    requires forall a | OnCircle(r, q, a) && a in prev :: a in prev' && prev'[a] == prev[a]
    ensures Circle(next', prev', q, r.seqs[q])
  {
    var s := r.seqs[q];
    forall i: nat | i <= |s|
      ensures LinkAt(next', prev', q, s, i)
    {
      assert LinkAt(next, prev, q, s, i);
      AtIsOnCircle(r, q, i);
      AtIsOnCircle(r, q, i + 1);
    }
  }

  lemma AddTailCircle(next: Memory, prev: Memory, r: Rings, q: Queue, n: Node)
    requires Represents(next, prev, r) && q in r.seqs && n !in r.home
    ensures Head(q) in prev
    ensures var last := prev[Head(q)];
            Circle(next[Of(n) := Head(q)][last := Of(n)], prev[Head(q) := Of(n)][Of(n) := last], q, r.seqs[q] + [n])
  {
    var s := r.seqs[q];
    var s' := s + [n];
    assert LinkAt(next, prev, q, s, |s|);
    var last := prev[Head(q)];
    var next', prev' := next[Of(n) := Head(q)][last := Of(n)], prev[Head(q) := Of(n)][Of(n) := last];
    forall i: nat | i <= |s'|
      ensures LinkAt(next', prev', q, s', i)
    {
      if i < |s| {
        assert LinkAt(next, prev, q, s, i);
        assert s[i] in r.home;
        assert i > 0 ==> s[i - 1] in r.home;
      }
    }
  }

  lemma AddCircle(next: Memory, prev: Memory, r: Rings, q: Queue, n: Node)
    requires Represents(next, prev, r) && q in r.seqs && n !in r.home
    ensures Head(q) in next
    ensures var first := next[Head(q)];
            Circle(next[Of(n) := first][Head(q) := Of(n)], prev[first := Of(n)][Of(n) := Head(q)], q, [n] + r.seqs[q])
  {
    var s := r.seqs[q];
    var s' := [n] + s;
    assert LinkAt(next, prev, q, s, 0);
    var first := next[Head(q)];
    var next', prev' := next[Of(n) := first][Head(q) := Of(n)], prev[first := Of(n)][Of(n) := Head(q)];
    forall i: nat | i <= |s'|
      ensures LinkAt(next', prev', q, s', i)
    {
      if i > 1 {
        assert LinkAt(next, prev, q, s, i - 1);
        assert s[i - 2] in r.home;
        assert i <= |s| ==> s[i - 1] in r.home;
      }
    }
  }

  lemma DelCircle(next: Memory, prev: Memory, r: Rings, n: Node)
    requires Represents(next, prev, r) && n in r.home
    ensures Of(n) in next && Of(n) in prev
    ensures var q, before, after := r.home[n], prev[Of(n)], next[Of(n)];
            && OnCircle(r, q, before) && OnCircle(r, q, after)
            && Circle(next[before := after][Of(n) := Null], prev[after := before][Of(n) := Null], q, Without(r.seqs[q], n))
  {
    var q := r.home[n];
    var s := r.seqs[q];
    var s', k := Without(s, n), IndexOf(s, n);
    assert LinkAt(next, prev, q, s, k) && LinkAt(next, prev, q, s, k + 1);
    var before, after := prev[Of(n)], next[Of(n)];
    AtIsOnCircle(r, q, k);
    AtIsOnCircle(r, q, k + 2);
    var next', prev' := next[before := after][Of(n) := Null], prev[after := before][Of(n) := Null];
    forall i: nat | i <= |s'|
      ensures LinkAt(next', prev', q, s', i)
    {
      if i < k {
        assert LinkAt(next, prev, q, s, i);
      } else if i > k {
        assert LinkAt(next, prev, q, s, i + 1);
      }
    }
  }

  lemma HeadLinks(next: Memory, prev: Memory, r: Rings, q: Queue)
    requires Represents(next, prev, r) && q in r.seqs
    ensures Head(q) in next && Head(q) in prev
    ensures next[Head(q)] == if r.seqs[q] == [] then Head(q) else Of(r.seqs[q][0])
    ensures prev[Head(q)] == if r.seqs[q] == [] then Head(q) else Of(r.seqs[q][|r.seqs[q]| - 1])
    ensures OnCircle(r, q, next[Head(q)]) && OnCircle(r, q, prev[Head(q)])
  {
    var s := r.seqs[q];
    assert LinkAt(next, prev, q, s, 0) && LinkAt(next, prev, q, s, |s|);
    AtIsOnCircle(r, q, 1);
    AtIsOnCircle(r, q, |s|);
  }

  class ListHeap {
    var next: Memory
    var prev: Memory
    ghost var rings: Rings

    ghost predicate Valid()
      reads this
    {
      Represents(next, prev, rings)
    }

    constructor ()
      ensures Valid() && rings == Rings(map[], map[])
    {
      next, prev, rings := map[], map[], Rings(map[], map[]);
    }

    /** INIT_LIST_HEAD. */
    method InitListHead(q: Queue)
      requires Valid() && (q in rings.seqs ==> rings.seqs[q] == [])
      modifies this
      ensures Valid() && rings == Init(old(rings), q)
    {
      InitWellFormed(rings, q);
      ghost var next0, prev0 := next, prev;
      next := next[Head(q) := Head(q)];
      prev := prev[Head(q) := Head(q)];
      forall h | h in rings.seqs && h != q
        ensures Circle(next, prev, h, rings.seqs[h])
      {
        CircleFrame(next0, prev0, next, prev, rings, h);
      }
      rings := Init(rings, q);
    }

    /** list_add_tail: an unlinked node goes in front of the head, that is, last. */
    method ListAddTail(n: Node, q: Queue)
      requires Valid() && q in rings.seqs && n !in rings.home
      modifies this
      ensures Valid() && rings == Append(old(rings), q, n)
    {
      AppendWellFormed(rings, q, n);
      AddTailCircle(next, prev, rings, q, n);
      ghost var next0, prev0 := next, prev;
      var before, after := prev[Head(q)], Head(q);
      prev := prev[after := Of(n)];
      next := next[Of(n) := after];
      prev := prev[Of(n) := before];
      next := next[before := Of(n)];
      forall h | h in rings.seqs && h != q
        ensures Circle(next, prev, h, rings.seqs[h])
      {
        HeadLinks(next0, prev0, rings, q);
        CircleFrame(next0, prev0, next, prev, rings, h);
      }
      rings := Append(rings, q, n);
    }

    /** list_add: an unlinked node goes behind the head, that is, first. */
    method ListAdd(n: Node, q: Queue)
      requires Valid() && q in rings.seqs && n !in rings.home
      modifies this
      ensures Valid() && rings == Prepend(old(rings), q, n)
    {
      PrependWellFormed(rings, q, n);
      AddCircle(next, prev, rings, q, n);
      ghost var next0, prev0 := next, prev;
      var before, after := Head(q), next[Head(q)];
      prev := prev[after := Of(n)];
      next := next[Of(n) := after];
      prev := prev[Of(n) := before];
      next := next[before := Of(n)];
      forall h | h in rings.seqs && h != q
        ensures Circle(next, prev, h, rings.seqs[h])
      {
        HeadLinks(next0, prev0, rings, q);
        CircleFrame(next0, prev0, next, prev, rings, h);
      }
      rings := Prepend(rings, q, n);
    }

    /** list_del: a linked node leaves its list, wherever in the list it is, and its own
        pointers are cleared. Calling it on an unlinked node would dereference them. */
    method ListDel(n: Node)
      requires Valid() && n in rings.home
      modifies this
      ensures Valid() && rings == Delete(old(rings), n)
      ensures Of(n) in next && next[Of(n)] == Null && Of(n) in prev && prev[Of(n)] == Null
    {
      DeleteWellFormed(rings, n);
      DelCircle(next, prev, rings, n);
      ghost var next0, prev0, q := next, prev, rings.home[n];
      var before, after := prev[Of(n)], next[Of(n)];
      prev := prev[after := before];
      next := next[before := after];
      next := next[Of(n) := Null];
      prev := prev[Of(n) := Null];
      forall h | h in rings.seqs && h != q
        ensures Circle(next, prev, h, rings.seqs[h])
      {
        CircleFrame(next0, prev0, next, prev, rings, h);
      }
      rings := Delete(rings, n);
    }

    /** list_empty. */
    method ListEmpty(q: Queue) returns (empty: bool)
      requires Valid() && q in rings.seqs
      ensures empty <==> rings.seqs[q] == []
    {
      HeadLinks(next, prev, rings, q);
      empty := next[Head(q)] == Head(q);
    }

    /** list_first: the head itself when the list is empty. */
    method ListFirst(q: Queue) returns (first: Addr)
      requires Valid() && q in rings.seqs
      ensures first == if rings.seqs[q] == [] then Head(q) else Of(rings.seqs[q][0])
    {
      HeadLinks(next, prev, rings, q);
      first := next[Head(q)];
    }

    /** list_is_last. */
    method ListIsLast(n: Node, q: Queue) returns (last: bool)
      requires Valid() && q in rings.seqs && n in rings.seqs[q]
      ensures last <==> n == rings.seqs[q][|rings.seqs[q]| - 1]
    {
      ghost var s := rings.seqs[q];
      ghost var k := IndexOf(s, n);
      assert LinkAt(next, prev, q, s, k + 1);
      last := next[Of(n)] == Head(q);
    }
  }
}
