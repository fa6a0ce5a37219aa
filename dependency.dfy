/** Wire dependencies of a queue: which earlier slot an entry depends on,
    per wire, and the per-wire index lists.  A queue is seen through its
    footprint: the wire list of every slot, in queue order. */
module Dependency {
  import opened Operations

  type Edge = (nat, nat)

  /** The latest slot of `fp` that acts on `w`, if any: the wire's "last toucher". */
  function LastToucher(fp: seq<seq<Wire>>, w: Wire): (r: Option<nat>)
    ensures r.Some? ==> r.value < |fp| && w in fp[r.value]
    ensures r.Some? ==> forall k :: r.value < k < |fp| ==> w !in fp[k]
    ensures r.None? <==> forall k :: 0 <= k < |fp| ==> w !in fp[k]
  {
    if fp == [] then None
    else if w in fp[|fp| - 1] then Some(|fp| - 1)
    else LastToucher(fp[..|fp| - 1], w)
  }

  /** The edges that the entry placed after `prefix`, acting on `ws`, adds:
      one from each of its wires' last toucher. */
  function NewEdges(prefix: seq<seq<Wire>>, ws: seq<Wire>): set<Edge>
  {
    set w | w in ws && LastToucher(prefix, w).Some? :: (LastToucher(prefix, w).value, |prefix|)
  }

  /** Every edge goes from an earlier slot to a later one, both below `n`. */
  ghost predicate Forward(E: set<Edge>, n: nat) {
    forall e :: e in E ==> e.0 < e.1 < n
  }

  /** The dependency edges of a queue, built by walking it in order and linking
      every entry to the last toucher of each wire it acts on.  Every edge points
      forward in the queue, so the graph is acyclic. */
  function Edges(fp: seq<seq<Wire>>): (r: set<Edge>)
    ensures Forward(r, |fp|)
  {
    if fp == [] then {}
    else Edges(fp[..|fp| - 1]) + NewEdges(fp[..|fp| - 1], fp[|fp| - 1])
  }

  /** Slots `j < i` share a wire that no slot between them acts on. */
  ghost predicate Adjacent(fp: seq<seq<Wire>>, j: nat, i: nat) {
    j < i < |fp| &&
    exists w :: w in fp[j] && w in fp[i] && forall k :: j < k < i ==> w !in fp[k]
  }

  /** The edge set is exactly the set of pairs of adjacent touches of a wire. */
  lemma {:induction false} EdgesAreAdjacentTouches(fp: seq<seq<Wire>>, j: nat, i: nat)
    ensures (j, i) in Edges(fp) <==> Adjacent(fp, j, i)
  {
    if fp != [] {
      var n := |fp| - 1;
      var p := fp[..n];
      if i < n {
        EdgesAreAdjacentTouches(p, j, i);
        EarlierPairs(fp, j, i);
      } else if i == n {
        LastPairs(fp, j);
      }
    }
  }

  /** A pair ending before the last slot is an edge, and adjacent, exactly as
      it is without the last slot. */
  lemma EarlierPairs(fp: seq<seq<Wire>>, j: nat, i: nat)
    requires fp != [] && i < |fp| - 1
    ensures (j, i) in Edges(fp) <==> (j, i) in Edges(fp[..|fp| - 1])
    ensures Adjacent(fp, j, i) <==> Adjacent(fp[..|fp| - 1], j, i)
  {
    var n := |fp| - 1;
    assert (j, i) !in NewEdges(fp[..n], fp[n]);
    EarlierAdjacent(fp, j, i);
  }

  lemma EarlierAdjacent(fp: seq<seq<Wire>>, j: nat, i: nat)
    requires fp != [] && i < |fp| - 1
    ensures Adjacent(fp, j, i) <==> Adjacent(fp[..|fp| - 1], j, i)
  {
    var p := fp[..|fp| - 1];
    if Adjacent(p, j, i) {
      var w :| w in p[j] && w in p[i] && forall k :: j < k < i ==> w !in p[k];
      assert w in fp[j] && w in fp[i] && forall k :: j < k < i ==> w !in fp[k];
    }
    if Adjacent(fp, j, i) {
      var w :| w in fp[j] && w in fp[i] && forall k :: j < k < i ==> w !in fp[k];
      assert w in p[j] && w in p[i] && forall k :: j < k < i ==> w !in p[k];
    }
  }

  /** A pair ending at the last slot is an edge exactly when it is adjacent. */
  lemma LastPairs(fp: seq<seq<Wire>>, j: nat)
    requires fp != []
    ensures (j, |fp| - 1) in Edges(fp) <==> Adjacent(fp, j, |fp| - 1)
  {
    var n := |fp| - 1;
    var p := fp[..n];
    assert (j, n) !in Edges(p);
    if (j, n) in NewEdges(p, fp[n]) {
      var w :| w in fp[n] && LastToucher(p, w).Some? && LastToucher(p, w).value == j;
      LinkIsAdjacent(fp, j, w);
    }
    if Adjacent(fp, j, n) {
      var w :| w in fp[j] && w in fp[n] && forall k :: j < k < n ==> w !in fp[k];
      AdjacentIsLink(fp, j, w);
    }
  }

  lemma LinkIsAdjacent(fp: seq<seq<Wire>>, j: nat, w: Wire)
    requires fp != [] && w in fp[|fp| - 1]
    requires LastToucher(fp[..|fp| - 1], w) == Some(j)
    ensures Adjacent(fp, j, |fp| - 1)
  {
    var n := |fp| - 1;
    assert w in fp[j] && w in fp[n] && forall k :: j < k < n ==> w !in fp[k];
  }

  lemma AdjacentIsLink(fp: seq<seq<Wire>>, j: nat, w: Wire)
    requires fp != [] && j < |fp| - 1 && w in fp[j] && w in fp[|fp| - 1]
    requires forall k :: j < k < |fp| - 1 ==> w !in fp[k]
    ensures (j, |fp| - 1) in NewEdges(fp[..|fp| - 1], fp[|fp| - 1])
  {
    var n := |fp| - 1;
    var p := fp[..n];
    assert w in p[j];
    var lt := LastToucher(p, w);
    assert lt.Some?;
    assert lt.value == j;
  }

  /** The slots that act on `w`, in queue order. */
  function WireIndices(fp: seq<seq<Wire>>, w: Wire): (r: seq<nat>)
    ensures forall t :: 0 <= t < |r| ==> r[t] < |fp| && w in fp[r[t]]
    ensures forall k :: 0 <= k < |fp| && w in fp[k] ==> k in r
    ensures StrictlyIncreasing(r)
  {
    if fp == [] then []
    else WireIndices(fp[..|fp| - 1], w) + (if w in fp[|fp| - 1] then [|fp| - 1] else [])
  }

  predicate StrictlyIncreasing(r: seq<nat>) {
    forall s, t :: 0 <= s < t < |r| ==> r[s] < r[t]
  }

  /** Two strictly increasing lists with the same elements are equal. */
  lemma {:induction false} IncreasingBySet(a: seq<nat>, b: seq<nat>)
    requires StrictlyIncreasing(a) && StrictlyIncreasing(b)
    requires forall x :: x in a <==> x in b
    ensures a == b
  {
    if b != [] {
      assert b[0] in b;
    }
    if a != [] {
      assert a[0] in a && b != [] && b[0] in b;
      assert a[0] == b[0];
      TailsAgree(a, b);
      IncreasingBySet(a[1..], b[1..]);
      assert a == [a[0]] + a[1..] && b == [b[0]] + b[1..];
    }
  }

  /** Strictly increasing lists with the same elements and the same head have
      tails with the same elements. */
  lemma TailsAgree(a: seq<nat>, b: seq<nat>)
    requires StrictlyIncreasing(a) && StrictlyIncreasing(b)
    requires forall x :: x in a <==> x in b
    requires a != [] && b != [] && a[0] == b[0]
    ensures forall x :: x in a[1..] <==> x in b[1..]
  {
    forall x ensures x in a[1..] <==> x in b[1..] {
      if x in a[1..] {
        var s :| 0 <= s < |a[1..]| && a[1..][s] == x;
        assert a[s + 1] == x && a[0] < x;
        assert x in b;
        var t :| 0 <= t < |b| && b[t] == x;
        assert t > 0;
        assert b[1..][t - 1] == x;
      }
      if x in b[1..] {
        var t :| 0 <= t < |b[1..]| && b[1..][t] == x;
        assert b[t + 1] == x && b[0] < x;
        assert x in a;
        var s :| 0 <= s < |a| && a[s] == x;
        assert s > 0;
        assert a[1..][s - 1] == x;
      }
    }
  }

  /** The index list of `w` is the only strictly increasing list holding exactly
      the slots that act on `w`. */
  lemma WireIndicesUnique(fp: seq<seq<Wire>>, w: Wire, r: seq<nat>)
    requires StrictlyIncreasing(r)
    requires forall k :: k in r <==> 0 <= k < |fp| && w in fp[k]
    ensures WireIndices(fp, w) == r
  {
    var ix := WireIndices(fp, w);
    forall x ensures x in ix <==> x in r {
    }
    IncreasingBySet(ix, r);
  }

  /** `j` and `i` are consecutive entries of the index list of `w`. */
  ghost predicate Consecutive(fp: seq<seq<Wire>>, w: Wire, j: nat, i: nat) {
    exists t :: 0 <= t < |WireIndices(fp, w)| - 1 &&
      WireIndices(fp, w)[t] == j && WireIndices(fp, w)[t + 1] == i
  }

  lemma {:induction false} AdjacentIsConsecutive(fp: seq<seq<Wire>>, w: Wire, j: nat, i: nat)
    requires j < i < |fp| && w in fp[j] && w in fp[i]
    requires forall k :: j < k < i ==> w !in fp[k]
    ensures Consecutive(fp, w, j, i)
  {
    var r := WireIndices(fp, w);
    assert j in r && i in r;
    var s :| 0 <= s < |r| && r[s] == j;
    var t :| 0 <= t < |r| && r[t] == i;
    assert s < t;
    assert w in fp[r[s + 1]] && j < r[s + 1];
    assert i <= r[s + 1];
    assert s + 1 == t;
  }

  lemma {:induction false} ConsecutiveIsAdjacent(fp: seq<seq<Wire>>, w: Wire, j: nat, i: nat)
    requires Consecutive(fp, w, j, i)
    ensures Adjacent(fp, j, i)
  {
    var r := WireIndices(fp, w);
    var t :| 0 <= t < |r| - 1 && r[t] == j && r[t + 1] == i;
    forall k | j < k < i ensures w !in fp[k] {
    }
  }

  /** Consecutive entries of a wire's index list are joined by an edge, and every
      edge joins consecutive entries of the index list of some wire. */
  lemma {:induction false} WireNeighboursAreEdges(fp: seq<seq<Wire>>, j: nat, i: nat)
    ensures (j, i) in Edges(fp) <==> exists w :: Consecutive(fp, w, j, i)
  {
    EdgesAreAdjacentTouches(fp, j, i);
    if Adjacent(fp, j, i) {
      var w :| w in fp[j] && w in fp[i] && forall k :: j < k < i ==> w !in fp[k];
      AdjacentIsConsecutive(fp, w, j, i);
    }
    if exists w :: Consecutive(fp, w, j, i) {
      var w :| Consecutive(fp, w, j, i);
      ConsecutiveIsAdjacent(fp, w, j, i);
    }
  }

  // ---- one step of the queue walk ----

  /** After one more entry acting on `ws`, each of its wires is last touched by it. */
  lemma LastToucherSnoc(fp: seq<seq<Wire>>, ws: seq<Wire>, w: Wire)
    ensures LastToucher(fp + [ws], w) == if w in ws then Some(|fp|) else LastToucher(fp, w)
  {
    assert (fp + [ws])[..|fp|] == fp;
  }

  /** One more entry adds exactly its own new edges. */
  lemma EdgesSnoc(fp: seq<seq<Wire>>, ws: seq<Wire>)
    ensures Edges(fp + [ws]) == Edges(fp) + NewEdges(fp, ws)
  {
    assert (fp + [ws])[..|fp|] == fp;
  }

  /** Visiting one more wire of the entry adds at most the edge from its last toucher. */
  lemma NewEdgesStep(prefix: seq<seq<Wire>>, ws: seq<Wire>, t: nat)
    requires t < |ws|
    ensures NewEdges(prefix, ws[..t + 1]) ==
      NewEdges(prefix, ws[..t]) +
      (if LastToucher(prefix, ws[t]).Some? then {(LastToucher(prefix, ws[t]).value, |prefix|)} else {})
  {
    assert ws[..t + 1] == ws[..t] + [ws[t]];
  }
}
