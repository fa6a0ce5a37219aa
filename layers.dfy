/** Parametrized layers: the trainable parameters of a circuit, in flattened
    parameter order, grouped so that no operation of a layer depends on another
    operation of the same layer. */
module Layers {
  import opened Operations
  import opened Dependency
  import opened Reachability

  /** One entry of the flattened parameter list: the slot that owns the
      parameter and whether it is trainable. */
  datatype ParEntry = ParEntry(op: nat, trainable: bool)

  /** A layer: its operations (as queue slots) and the flattened indices of the
      trainable parameters that put them there, position by position. */
  datatype Layer = Layer(ops: seq<nat>, paramInds: seq<nat>)

  /** What iterating over the layers yields for one layer: the ancestors of
      the layer, its operations, its parameter indices, its descendants. */
  datatype LayerView = LayerView(pre: set<nat>, ops: seq<nat>, paramInds: seq<nat>, post: set<nat>)

  /** The number of parameters of all entries of `queue`. */
  function ParamCount(queue: seq<Op>): nat {
    if queue == [] then 0 else ParamCount(queue[..|queue| - 1]) + |queue[|queue| - 1].params|
  }

  /** The entries of the owner slots never decrease along the flattened list,
      and all are slots below `n`. */
  ghost predicate OpsOrdered(info: seq<ParEntry>, n: nat) {
    forall a, b :: 0 <= a <= b < |info| ==> info[a].op <= info[b].op < n
  }

  /** The flattened parameter list of a queue: every parameter of every entry,
      trainable or not, entry by entry in queue order. */
  function ParInfo(queue: seq<Op>): (r: seq<ParEntry>)
    ensures |r| == ParamCount(queue)
    ensures OpsOrdered(r, |queue|)
  {
    if queue == [] then []
    else
      var k := |queue| - 1;
      var ps := queue[k].params;
      ParInfo(queue[..k]) + seq(|ps|, t requires 0 <= t < |ps| => ParEntry(k, ps[t].trainable))
  }

  /** Parameter `t` of slot `k` sits at flattened index "parameters of the
      earlier slots" + `t`. */
  lemma {:induction false} ParInfoAt(queue: seq<Op>, k: nat, t: nat)
    requires k < |queue| && t < |queue[k].params|
    ensures ParamCount(queue[..k]) + t < |ParInfo(queue)|
    ensures ParInfo(queue)[ParamCount(queue[..k]) + t] == ParEntry(k, queue[k].params[t].trainable)
  {
    var m := |queue| - 1;
    assert queue[..|queue|] == queue;
    if k < m {
      ParInfoAt(queue[..m], k, t);
      assert queue[..m][..k] == queue[..k];
      assert queue[..m][k] == queue[k];
      ParamCountPrefix(queue, k, m);
    } else {
      assert queue[..m + 1] == queue;
    }
  }

  lemma {:induction false} ParamCountPrefix(queue: seq<Op>, k: nat, m: nat)
    requires k < m <= |queue|
    ensures ParamCount(queue[..k]) + |queue[k].params| <= ParamCount(queue[..m])
    decreases m - k
  {
    assert queue[..m][..m - 1] == queue[..m - 1];
    if k < m - 1 {
      ParamCountPrefix(queue, k, m - 1);
    } else {
      assert queue[..m][m - 1] == queue[k];
    }
  }

  /** Some operation of layer `l` is an ancestor of slot `op`. */
  predicate DependsOnLayer(E: set<Edge>, n: nat, l: Layer, op: nat) {
    exists a :: a in l.ops && a in Ancestors(E, n, {op})
  }

  /** Adds trainable parameter `idx` of slot `op`: it joins the open (last)
      layer unless one of that layer's operations is an ancestor of `op`, in
      which case it opens a new layer. */
  function AddParam(E: set<Edge>, n: nat, layers: seq<Layer>, idx: nat, op: nat): seq<Layer>
  {
    if layers == [] then [Layer([op], [idx])]
    else
      var cur := layers[|layers| - 1];
      if DependsOnLayer(E, n, cur, op) then layers + [Layer([op], [idx])]
      else layers[..|layers| - 1] + [Layer(cur.ops + [op], cur.paramInds + [idx])]
  }

  /** The parametrized layers: the trainable entries of the flattened parameter
      list, taken in order and added one by one. */
  function LayersOf(E: set<Edge>, n: nat, info: seq<ParEntry>): seq<Layer>
  {
    if info == [] then []
    else
      var layers := LayersOf(E, n, info[..|info| - 1]);
      var e := info[|info| - 1];
      if e.trainable then AddParam(E, n, layers, |info| - 1, e.op) else layers
  }

  /** The set of the operations of a layer. */
  function OpSet(ops: seq<nat>): set<nat> {
    set a | a in ops
  }

  /** One view per layer, in layer order. */
  function IterateLayers(E: set<Edge>, n: nat, info: seq<ParEntry>): (r: seq<LayerView>)
    ensures |r| == |LayersOf(E, n, info)|
    ensures forall k :: 0 <= k < |r| ==>
      r[k].ops == LayersOf(E, n, info)[k].ops && r[k].paramInds == LayersOf(E, n, info)[k].paramInds
  {
    var ls := LayersOf(E, n, info);
    seq(|ls|, k requires 0 <= k < |ls| =>
      LayerView(Ancestors(E, n, OpSet(ls[k].ops)), ls[k].ops, ls[k].paramInds,
                Descendants(E, n, OpSet(ls[k].ops))))
  }

  // ---- what the layering keeps ----

  /** The (operation, parameter index) pairs of a layer, position by position. */
  function Pairs(l: Layer): seq<(nat, nat)>
    requires |l.ops| == |l.paramInds|
  {
    seq(|l.ops|, t requires 0 <= t < |l.ops| => (l.ops[t], l.paramInds[t]))
  }

  /** Every layer is nonempty and pairs each operation with one parameter index. */
  ghost predicate Shaped(layers: seq<Layer>) {
    forall k :: 0 <= k < |layers| ==> 0 < |layers[k].ops| == |layers[k].paramInds|
  }

  /** The pairs of all layers, layer after layer. */
  function Members(layers: seq<Layer>): seq<(nat, nat)>
    requires Shaped(layers)
  {
    if layers == [] then [] else Members(layers[..|layers| - 1]) + Pairs(layers[|layers| - 1])
  }

  /** The trainable entries of the flattened list, as (owner slot, index) pairs. */
  function Trainable(info: seq<ParEntry>): seq<(nat, nat)> {
    if info == [] then []
    else
      var m := |info| - 1;
      Trainable(info[..m]) + (if info[m].trainable then [(info[m].op, m)] else [])
  }

  lemma MembersSnoc(init: seq<Layer>, l: Layer)
    requires Shaped(init + [l])
    ensures Shaped(init) && 0 < |l.ops| == |l.paramInds|
    ensures Members(init + [l]) == Members(init) + Pairs(l)
  {
    assert (init + [l])[|init|] == l;
    assert (init + [l])[..|init|] == init;
  }

  /** Adding one trainable parameter appends exactly its pair to the members. */
  lemma AddParamMembers(E: set<Edge>, n: nat, ls: seq<Layer>, idx: nat, op: nat)
    requires Shaped(ls)
    ensures Shaped(AddParam(E, n, ls, idx, op))
    ensures Members(AddParam(E, n, ls, idx, op)) == Members(ls) + [(op, idx)]
  {
    var r := AddParam(E, n, ls, idx, op);
    if ls == [] {
      MembersSnoc([], Layer([op], [idx]));
    } else {
      var cur := ls[|ls| - 1];
      var init := ls[..|ls| - 1];
      assert ls == init + [cur];
      MembersSnoc(init, cur);
      if DependsOnLayer(E, n, cur, op) {
        assert r == ls + [Layer([op], [idx])];
        MembersSnoc(ls, Layer([op], [idx]));
      } else {
        var cur' := Layer(cur.ops + [op], cur.paramInds + [idx]);
        assert r == init + [cur'];
        MembersSnoc(init, cur');
        assert Pairs(cur') == Pairs(cur) + [(op, idx)];
      }
    }
  }

  /** Every trainable parameter lands in exactly one layer, in flattened order,
      next to its own operation; non-trainable ones land in none. */
  lemma {:induction false} LayersCoverTrainable(E: set<Edge>, n: nat, info: seq<ParEntry>)
    ensures Shaped(LayersOf(E, n, info))
    ensures Members(LayersOf(E, n, info)) == Trainable(info)
  {
    if info != [] {
      var m := |info| - 1;
      var ls := LayersOf(E, n, info[..m]);
      LayersCoverTrainable(E, n, info[..m]);
      if info[m].trainable {
        AddParamMembers(E, n, ls, m, info[m].op);
      }
    }
  }

  /** In a graph with forward edges an ancestor of slot `o` comes before `o`. */
  lemma AncestorBefore(E: set<Edge>, n: nat, o: nat, k: nat)
    requires Forward(E, n) && k in Ancestors(E, n, {o})
    ensures k < o
  {
    AncestorsAreReachability(E, n, {o}, k);
    ReachesForward(E, n, k, o);
  }

  /** No operation of a layer is an ancestor of another operation of it. */
  ghost predicate Independent(E: set<Edge>, n: nat, l: Layer) {
    forall s, t :: 0 <= s < |l.ops| && 0 <= t < |l.ops| ==> l.ops[s] !in Ancestors(E, n, {l.ops[t]})
  }

  /** Every operation in the layers is the owner of one of the entries. */
  lemma {:induction false} LayerOpsAreOwners(E: set<Edge>, n: nat, info: seq<ParEntry>, k: nat, a: nat)
    requires k < |LayersOf(E, n, info)| && a in LayersOf(E, n, info)[k].ops
    ensures exists i :: 0 <= i < |info| && info[i].op == a
  {
    var m := |info| - 1;
    var ls := LayersOf(E, n, info[..m]);
    var e := info[m];
    if !e.trainable || a == e.op {
      if a != e.op {
        LayerOpsAreOwners(E, n, info[..m], k, a);
        var i :| 0 <= i < m && info[..m][i].op == a;
        assert info[i].op == a;
      }
    } else if k < |ls| && a in ls[k].ops {
      LayerOpsAreOwners(E, n, info[..m], k, a);
      var i :| 0 <= i < m && info[..m][i].op == a;
      assert info[i].op == a;
    }
  }

  /** Each layer's operations are mutually independent. */
  lemma {:induction false} LayersIndependent(E: set<Edge>, n: nat, info: seq<ParEntry>)
    requires Forward(E, n) && OpsOrdered(info, n)
    ensures forall k :: 0 <= k < |LayersOf(E, n, info)| ==> Independent(E, n, LayersOf(E, n, info)[k])
  {
    if info != [] {
      var m := |info| - 1;
      var ls := LayersOf(E, n, info[..m]);
      LayersIndependent(E, n, info[..m]);
      var e := info[m];
      if e.trainable && ls != [] {
        var cur := ls[|ls| - 1];
        if !DependsOnLayer(E, n, cur, e.op) {
          var l := Layer(cur.ops + [e.op], cur.paramInds + [m]);
          forall a | a in cur.ops ensures e.op !in Ancestors(E, n, {a}) {
            LayerOpsAreOwners(E, n, info[..m], |ls| - 1, a);
            var i :| 0 <= i < m && info[..m][i].op == a;
            assert a <= e.op;
            if e.op in Ancestors(E, n, {a}) {
              AncestorBefore(E, n, a, e.op);
            }
          }
          assert e.op !in Ancestors(E, n, {e.op});
          assert Independent(E, n, l);
          assert LayersOf(E, n, info) == ls[..|ls| - 1] + [l];
        }
      }
    }
  }

  /** A layer after the first opens because its first operation has an
      ancestor in the layer before it. */
  lemma {:induction false} LayersBreakOnDependency(E: set<Edge>, n: nat, info: seq<ParEntry>, k: nat)
    requires 0 < k < |LayersOf(E, n, info)|
    ensures Shaped(LayersOf(E, n, info))
    ensures DependsOnLayer(E, n, LayersOf(E, n, info)[k - 1], LayersOf(E, n, info)[k].ops[0])
  {
    LayersCoverTrainable(E, n, info);
    var m := |info| - 1;
    var ls := LayersOf(E, n, info[..m]);
    LayersCoverTrainable(E, n, info[..m]);
    var e := info[m];
    if e.trainable && ls != [] {
      var cur := ls[|ls| - 1];
      if k < |ls| {
        LayersBreakOnDependency(E, n, info[..m], k);
        if !DependsOnLayer(E, n, cur, e.op) {
          var l := Layer(cur.ops + [e.op], cur.paramInds + [m]);
          assert LayersOf(E, n, info) == ls[..|ls| - 1] + [l];
          assert l.ops[0] == cur.ops[0];
        } else {
          assert LayersOf(E, n, info) == ls + [Layer([e.op], [m])];
        }
      } else {
        assert DependsOnLayer(E, n, cur, e.op);
        assert LayersOf(E, n, info) == ls + [Layer([e.op], [m])];
        assert LayersOf(E, n, info)[k - 1] == cur;
      }
    } else if !e.trainable {
      LayersBreakOnDependency(E, n, info[..m], k);
    }
  }

  /** For every layer, `pre` holds exactly the slots outside the layer with a
      path into it, `post` exactly those outside it with a path out of it, and
      no slot is in both. */
  lemma IterateLayersSeparated(E: set<Edge>, n: nat, info: seq<ParEntry>, k: nat)
    requires Forward(E, n) && OpsOrdered(info, n)
    requires k < |IterateLayers(E, n, info)|
    ensures forall x :: x in IterateLayers(E, n, info)[k].pre <==>
      x !in IterateLayers(E, n, info)[k].ops && exists a :: a in IterateLayers(E, n, info)[k].ops && Reaches(E, x, a)
    ensures forall x :: x in IterateLayers(E, n, info)[k].post <==>
      x !in IterateLayers(E, n, info)[k].ops && exists a :: a in IterateLayers(E, n, info)[k].ops && Reaches(E, a, x)
    ensures IterateLayers(E, n, info)[k].pre !! IterateLayers(E, n, info)[k].post
  {
    var v := IterateLayers(E, n, info)[k];
    var l := LayersOf(E, n, info)[k];
    var S := OpSet(l.ops);
    assert v.pre == Ancestors(E, n, S) && v.post == Descendants(E, n, S) && v.ops == l.ops;
    forall x ensures x in v.pre <==> x !in v.ops && exists a :: a in v.ops && Reaches(E, x, a) {
      AncestorsAreReachability(E, n, S, x);
    }
    forall x ensures x in v.post <==> x !in v.ops && exists a :: a in v.ops && Reaches(E, a, x) {
      DescendantsAreReachability(E, n, S, x);
    }
    LayersIndependent(E, n, info);
    assert Independent(E, n, l);
    forall x | x in v.pre ensures x !in v.post {
      if x in v.post {
        var b :| b in l.ops && Reaches(E, x, b);
        var a :| a in l.ops && Reaches(E, a, x);
        ReachesTrans(E, a, x, b);
        var s :| 0 <= s < |l.ops| && l.ops[s] == a;
        var t :| 0 <= t < |l.ops| && l.ops[t] == b;
        if a == b {
          ReachesForward(E, n, a, b);
        } else {
          AncestorsAreReachability(E, n, {b}, a);
        }
      }
    }
  }

  lemma IterateLayersSeparatedAll(E: set<Edge>, n: nat, info: seq<ParEntry>)
    requires Forward(E, n) && OpsOrdered(info, n)
    ensures forall k, x :: 0 <= k < |IterateLayers(E, n, info)| ==>
      (x in IterateLayers(E, n, info)[k].pre <==>
        x !in IterateLayers(E, n, info)[k].ops && exists a :: a in IterateLayers(E, n, info)[k].ops && Reaches(E, x, a))
    ensures forall k, x :: 0 <= k < |IterateLayers(E, n, info)| ==>
      (x in IterateLayers(E, n, info)[k].post <==>
        x !in IterateLayers(E, n, info)[k].ops && exists a :: a in IterateLayers(E, n, info)[k].ops && Reaches(E, a, x))
    ensures forall k :: 0 <= k < |IterateLayers(E, n, info)| ==>
      IterateLayers(E, n, info)[k].pre !! IterateLayers(E, n, info)[k].post
  {
    forall k | 0 <= k < |IterateLayers(E, n, info)|
      ensures forall x :: x in IterateLayers(E, n, info)[k].pre <==>
        x !in IterateLayers(E, n, info)[k].ops && exists a :: a in IterateLayers(E, n, info)[k].ops && Reaches(E, x, a)
      ensures forall x :: x in IterateLayers(E, n, info)[k].post <==>
        x !in IterateLayers(E, n, info)[k].ops && exists a :: a in IterateLayers(E, n, info)[k].ops && Reaches(E, a, x)
      ensures IterateLayers(E, n, info)[k].pre !! IterateLayers(E, n, info)[k].post
    {
      IterateLayersSeparated(E, n, info, k);
    }
  }

  /** Every layer after the first opens on an operation that depends on the layer before it. */
  lemma LayersBreakOnDependencyAll(E: set<Edge>, n: nat, info: seq<ParEntry>)
    ensures Shaped(LayersOf(E, n, info))
    ensures forall k :: 0 < k < |LayersOf(E, n, info)| ==>
      DependsOnLayer(E, n, LayersOf(E, n, info)[k - 1], LayersOf(E, n, info)[k].ops[0])
  {
    LayersCoverTrainable(E, n, info);
    forall k | 0 < k < |LayersOf(E, n, info)|
      ensures DependsOnLayer(E, n, LayersOf(E, n, info)[k - 1], LayersOf(E, n, info)[k].ops[0])
    {
      LayersBreakOnDependency(E, n, info, k);
    }
  }
}
