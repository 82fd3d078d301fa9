/** Queues as sequences: what the intrusive circular lists of the kernel stand for. */
module Rings {

  /** The list heads of the kernel (sched.h, mutex.h). */
  datatype Queue =
    | FreeTasks          // freequeue
    | ReadyTasks         // readyqueue
    | FreeThreads        // free_threadqueue
    | Ready(p: nat)      // ready_threads of task p
    | Joining(p: nat)    // blocked_threads of task p
    | Waiting(m: nat)    // blocked of mutex m

  /** The structs that embed a list node. */
  datatype Node = Task(p: nat) | Thread(t: nat)

  /** Every initialised queue with its members, and for each linked node its queue. */
  datatype Rings = Rings(seqs: map<Queue, seq<Node>>, home: map<Node, Queue>)

  predicate NoDup(s: seq<Node>) {
    forall i, j | 0 <= i < j < |s| :: s[i] != s[j]
  }

  /** No node is in two places, and `home` says where it is. */
  ghost predicate WellFormed(r: Rings) {
    && (forall n | n in r.home :: r.home[n] in r.seqs && n in r.seqs[r.home[n]])
    && (forall q, i | q in r.seqs && 0 <= i < |r.seqs[q]| :: r.seqs[q][i] in r.home && r.home[r.seqs[q][i]] == q)
    && (forall q | q in r.seqs :: NoDup(r.seqs[q]))
  }

  function IndexOf(s: seq<Node>, n: Node): (i: nat)
    requires n in s
    ensures i < |s| && s[i] == n && n !in s[..i]
  {
    if s[0] == n then 0 else 1 + IndexOf(s[1..], n)
  }

  function Without(s: seq<Node>, n: Node): seq<Node> {
    if n in s then s[..IndexOf(s, n)] + s[IndexOf(s, n) + 1..] else s
  }

  function Init(r: Rings, q: Queue): Rings {
    r.(seqs := r.seqs[q := []])
  }

  function Append(r: Rings, q: Queue, n: Node): Rings
    requires q in r.seqs
  {
    Rings(r.seqs[q := r.seqs[q] + [n]], r.home[n := q])
  }

  function Prepend(r: Rings, q: Queue, n: Node): Rings
    requires q in r.seqs
  {
    Rings(r.seqs[q := [n] + r.seqs[q]], r.home[n := q])
  }

  function Delete(r: Rings, n: Node): Rings
    requires n in r.home && r.home[n] in r.seqs
  {
    Rings(r.seqs[r.home[n] := Without(r.seqs[r.home[n]], n)], r.home - {n})
  }

  lemma InitWellFormed(r: Rings, q: Queue)
    requires WellFormed(r) && (q in r.seqs ==> r.seqs[q] == [])
    ensures WellFormed(Init(r, q))
  {
    var r' := Init(r, q);
    forall n | n in r'.home
      ensures r'.home[n] in r'.seqs && n in r'.seqs[r'.home[n]]
    {
      assert r.home[n] in r.seqs && n in r.seqs[r.home[n]];
    }
  }

  lemma AppendWellFormed(r: Rings, q: Queue, n: Node)
    requires WellFormed(r) && q in r.seqs && n !in r.home
    ensures WellFormed(Append(r, q, n))
  {
    var r' := Append(r, q, n);
    assert n !in r.seqs[q];
    forall x | x in r'.home
      ensures r'.home[x] in r'.seqs && x in r'.seqs[r'.home[x]]
    {
      if x != n {
        assert r.home[x] in r.seqs && x in r.seqs[r.home[x]];
      } else {
        assert r'.seqs[q][|r.seqs[q]|] == n;
      }
    }
  }

  lemma PrependWellFormed(r: Rings, q: Queue, n: Node)
    requires WellFormed(r) && q in r.seqs && n !in r.home
    ensures WellFormed(Prepend(r, q, n))
  {
    var r' := Prepend(r, q, n);
    assert n !in r.seqs[q];
    forall x | x in r'.home
      ensures r'.home[x] in r'.seqs && x in r'.seqs[r'.home[x]]
    {
      if x != n {
        assert r.home[x] in r.seqs && x in r.seqs[r.home[x]];
        if r.home[x] == q {
          var i :| 0 <= i < |r.seqs[q]| && r.seqs[q][i] == x;
          assert r'.seqs[q][i + 1] == x;
        }
      } else {
        assert r'.seqs[q][0] == n;
      }
    }
  }

  /** Removal from a sequence without repetitions. */
  lemma WithoutElements(s: seq<Node>, n: Node)
    requires NoDup(s) && n in s
    ensures NoDup(Without(s, n)) && |Without(s, n)| == |s| - 1
    ensures forall x :: x in Without(s, n) <==> x in s && x != n
  {
    var k := IndexOf(s, n);
    var s' := Without(s, n);
    assert s' == s[..k] + s[k + 1..];
    forall x | x in s && x != n
      ensures x in s'
    {
      WithoutKeeps(s, n, x);
    }
    NothingTwice(s, s', k);
  }

  lemma NothingTwice(s: seq<Node>, s': seq<Node>, k: nat)
    requires NoDup(s) && k < |s| && s' == s[..k] + s[k + 1..]
    ensures NoDup(s') && s[k] !in s' && forall x | x in s' :: x in s
  {
    assert forall i | 0 <= i < |s'| :: s'[i] == if i < k then s[i] else s[i + 1];
  }

  lemma WithoutKeeps(s: seq<Node>, n: Node, x: Node)
    requires n in s && x in s && x != n
    ensures x in Without(s, n)
  {
    var k := IndexOf(s, n);
    var s' := s[..k] + s[k + 1..];
    var i :| 0 <= i < |s| && s[i] == x;
    if i < k {
      assert s'[i] == x;
    } else {
      assert s'[i - 1] == x;
    }
  }

  lemma DeleteWellFormed(r: Rings, n: Node)
    requires WellFormed(r) && n in r.home
    ensures WellFormed(Delete(r, n)) && n !in Delete(r, n).home
  {
    var q, r' := r.home[n], Delete(r, n);
    WithoutElements(r.seqs[q], n);
    forall x | x in r'.home
      ensures r'.home[x] in r'.seqs && x in r'.seqs[r'.home[x]]
    {
      assert r.home[x] in r.seqs && x in r.seqs[r.home[x]];
    }
    forall q', i | q' in r'.seqs && 0 <= i < |r'.seqs[q']|
      ensures r'.seqs[q'][i] in r'.home && r'.home[r'.seqs[q'][i]] == q'
    {
      var x := r'.seqs[q'][i];
      assert x in r'.seqs[q'];
      assert x in r.seqs[q'];
      var j :| 0 <= j < |r.seqs[q']| && r.seqs[q'][j] == x;
    }
  }

  /** Removing what was appended, or prepended, gives back the queues there were. */
  lemma DeleteUndoesAppend(r: Rings, q: Queue, n: Node)
    requires WellFormed(r) && q in r.seqs && n !in r.home
    ensures Delete(Append(r, q, n), n) == r
  {
    var s := r.seqs[q];
    WithoutLast(s, n);
    assert r.home[n := q] - {n} == r.home;
    assert r.seqs[q := s + [n]][q := s] == r.seqs;
  }

  lemma WithoutLast(s: seq<Node>, n: Node)
    requires n !in s
    ensures Without(s + [n], n) == s
  {
    var k := IndexOf(s + [n], n);
    assert forall i | 0 <= i < |s| :: s[i] in s && (s + [n])[i] == s[i];
  }

  function PopHead(r: Rings, q: Queue): Rings
    requires q in r.seqs && r.seqs[q] != []
  {
    Rings(r.seqs[q := r.seqs[q][1..]], r.home - {r.seqs[q][0]})
  }

  /** Removing the head of a queue leaves its tail. */
  lemma DeleteHead(r: Rings, q: Queue)
    requires WellFormed(r) && q in r.seqs && r.seqs[q] != []
    ensures r.seqs[q][0] in r.home && r.home[r.seqs[q][0]] == q
    ensures Delete(r, r.seqs[q][0]) == PopHead(r, q)
    ensures WellFormed(PopHead(r, q))
  {
    var n := r.seqs[q][0];
    assert r.home[r.seqs[q][0]] == q;
    DeleteWellFormed(r, n);
    assert Without(r.seqs[q], n) == r.seqs[q][1..];
  }

  /** The head of one queue becomes the last of another. */
  function Moved(r: Rings, q: Queue, to: Queue): Rings
    requires q in r.seqs && to in r.seqs && r.seqs[q] != []
  {
    Rings(r.seqs[q := r.seqs[q][1..]][to := r.seqs[to] + [r.seqs[q][0]]], r.home[r.seqs[q][0] := to])
  }

  lemma DeleteAppendMoves(r: Rings, q: Queue, to: Queue)
    requires WellFormed(r) && q in r.seqs && to in r.seqs && r.seqs[q] != [] && q != to
    ensures r.seqs[q][0] in r.home && r.home[r.seqs[q][0]] == q
    ensures Append(Delete(r, r.seqs[q][0]), to, r.seqs[q][0]) == Moved(r, q, to)
    ensures WellFormed(Moved(r, q, to))
  {
    DeleteHead(r, q);
    AppendWellFormed(PopHead(r, q), to, r.seqs[q][0]);
    AppendHead(r, q, to);
  }

  lemma AppendHead(r: Rings, q: Queue, to: Queue)
    requires q in r.seqs && to in r.seqs && r.seqs[q] != [] && q != to
    ensures Append(PopHead(r, q), to, r.seqs[q][0]) == Moved(r, q, to)
  {
    var n := r.seqs[q][0];
    assert (r.home - {n})[n := to] == r.home[n := to];
  }

  /** The first `k` members of `q` have been moved, one by one, to the end of `to`. */
  function Drained(r: Rings, q: Queue, to: Queue, k: nat): Rings
    requires q in r.seqs && to in r.seqs && k <= |r.seqs[q]|
  {
    Rings(r.seqs[to := r.seqs[to] + r.seqs[q][..k]][q := r.seqs[q][k..]],
          map n | n in r.home :: if n in r.seqs[q][..k] then to else r.home[n])
  }

  lemma DrainedStep(r: Rings, q: Queue, to: Queue, k: nat)
    requires q in r.seqs && to in r.seqs && q != to && k < |r.seqs[q]|
    requires r.seqs[q][k] in r.home
    ensures Moved(Drained(r, q, to, k), q, to) == Drained(r, q, to, k + 1)
  {
    var s, d, d' := r.seqs[q], Drained(r, q, to, k), Drained(r, q, to, k + 1);
    assert d.seqs[q][0] == s[k] && s[..k] + [s[k]] == s[..k + 1];
    assert r.seqs[to] + s[..k] + [s[k]] == r.seqs[to] + s[..k + 1];
    var m := Moved(d, q, to);
    assert m.seqs == d'.seqs;
    assert m.home == d'.home;
  }

  lemma {:induction false} DrainedWellFormed(r: Rings, q: Queue, to: Queue, k: nat)
    requires WellFormed(r) && q in r.seqs && to in r.seqs && q != to && k <= |r.seqs[q]|
    ensures WellFormed(Drained(r, q, to, k))
  {
    if k == 0 {
      DrainedNone(r, q, to);
    } else {
      DrainedWellFormed(r, q, to, k - 1);
      DrainedOneMore(r, q, to, k - 1);
    }
  }

  lemma DrainedNone(r: Rings, q: Queue, to: Queue)
    requires q in r.seqs && to in r.seqs && q != to
    ensures Drained(r, q, to, 0) == r
  {
    assert r.seqs[to] + r.seqs[q][..0] == r.seqs[to];
  }

  lemma DrainedOneMore(r: Rings, q: Queue, to: Queue, k: nat)
    requires WellFormed(r) && q in r.seqs && to in r.seqs && q != to && k < |r.seqs[q]|
    requires WellFormed(Drained(r, q, to, k))
    ensures WellFormed(Drained(r, q, to, k + 1))
  {
    assert r.seqs[q][k] in r.home;
    DrainedStep(r, q, to, k);
    MovedWellFormed(Drained(r, q, to, k), q, to);
  }

  lemma MovedWellFormed(r: Rings, q: Queue, to: Queue)
    requires WellFormed(r) && q in r.seqs && to in r.seqs && r.seqs[q] != [] && q != to
    ensures WellFormed(Moved(r, q, to))
  {
    DeleteAppendMoves(r, q, to);
  }

  lemma DrainedAll(r: Rings, r': Rings, q: Queue, to: Queue)
    requires WellFormed(r) && q in r.seqs && to in r.seqs && q != to && r' == Drained(r, q, to, |r.seqs[q]|)
    ensures r'.seqs == r.seqs[to := r.seqs[to] + r.seqs[q]][q := []]
    ensures r'.home.Keys == r.home.Keys
    ensures forall n | n in r.home :: r'.home[n] == if r.home[n] == q then to else r.home[n]
  {
    var ns := r.seqs[q];
    assert ns[..|ns|] == ns;
    assert forall n | n in r.home :: n in ns <==> r.home[n] == q;
  }

  /** The first `k` members of `q` have gone, one by one, to its own end. */
  function Rotated(r: Rings, q: Queue, k: nat): Rings
    requires q in r.seqs && k <= |r.seqs[q]|
  {
    r.(seqs := r.seqs[q := r.seqs[q][k..] + r.seqs[q][..k]])
  }

  lemma NotRotated(r: Rings, q: Queue)
    requires q in r.seqs
    ensures Rotated(r, q, 0) == r && Rotated(r, q, |r.seqs[q]|) == r
  {
    var s := r.seqs[q];
    assert s[0..] + s[..0] == s && s[|s|..] + s[..|s|] == s;
  }

  lemma RotateStep(r: Rings, q: Queue, k: nat)
    requires q in r.seqs && k < |r.seqs[q]| && WellFormed(Rotated(r, q, k))
    ensures var n := r.seqs[q][k];
            && Rotated(r, q, k).seqs[q][0] == n
            && n in r.home && r.home[n] == q
            && Append(Delete(Rotated(r, q, k), n), q, n) == Rotated(r, q, k + 1)
            && WellFormed(Rotated(r, q, k + 1))
  {
    HeadToTail(Rotated(r, q, k), q);
    RotatedOnce(r, q, k);
  }

  lemma RotatedOnce(r: Rings, q: Queue, k: nat)
    requires q in r.seqs && k < |r.seqs[q]|
    ensures var rk := Rotated(r, q, k);
            && rk.seqs[q][0] == r.seqs[q][k]
            && rk.(seqs := rk.seqs[q := rk.seqs[q][1..] + [rk.seqs[q][0]]]) == Rotated(r, q, k + 1)
  {
    var s := r.seqs[q];
    assert (s[k..] + s[..k])[1..] + [s[k]] == s[k + 1..] + s[..k + 1];
  }

  lemma RotateFirst(r: Rings, q: Queue)
    requires WellFormed(r) && q in r.seqs && r.seqs[q] != []
    ensures r.seqs[q][0] in r.home && r.home[r.seqs[q][0]] == q
    ensures Append(Delete(r, r.seqs[q][0]), q, r.seqs[q][0]) == Rotated(r, q, 1)
  {
    DeleteHead(r, q);
    PutBehind(r, q);
  }

  lemma PutBehind(r: Rings, q: Queue)
    requires q in r.seqs && r.seqs[q] != [] && r.seqs[q][0] in r.home && r.home[r.seqs[q][0]] == q
    ensures Append(PopHead(r, q), q, r.seqs[q][0]) == Rotated(r, q, 1)
  {
    assert r.seqs[q][..1] == [r.seqs[q][0]];
    assert (r.home - {r.seqs[q][0]})[r.seqs[q][0] := q] == r.home;
  }

  lemma HeadToTail(r: Rings, q: Queue)
    requires WellFormed(r) && q in r.seqs && r.seqs[q] != []
    ensures var n := r.seqs[q][0];
            && n in r.home && r.home[n] == q
            && Append(Delete(r, n), q, n) == r.(seqs := r.seqs[q := r.seqs[q][1..] + [n]])
            && WellFormed(Append(Delete(r, n), q, n))
  {
    DeleteHead(r, q);
    AppendWellFormed(PopHead(r, q), q, r.seqs[q][0]);
    PutBack(r, q);
  }

  lemma PutBack(r: Rings, q: Queue)
    requires q in r.seqs && r.seqs[q] != [] && r.seqs[q][0] in r.home && r.home[r.seqs[q][0]] == q
    ensures Append(PopHead(r, q), q, r.seqs[q][0]) == r.(seqs := r.seqs[q := r.seqs[q][1..] + [r.seqs[q][0]]])
  {
    var n := r.seqs[q][0];
    assert (r.home - {n})[n := q] == r.home;
  }
}
