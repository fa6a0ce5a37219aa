/** The circuit graph object: a queue of operations followed by observables,
    the dependency edges between its slots, and the queries over them.  A node
    is identified by its slot in the queue (its `queue_idx`); replacing a node
    swaps the entry in its slot and leaves the edges as they were built. */
module Circuit {
  import opened Operations
  import opened Dependency
  import opened Reachability
  import opened Layers

  /** The last-toucher map agrees with the queue walked so far: a wire is in
      it exactly when some slot of `fp` acted on it, mapped to the latest one. */
  ghost predicate LastMap(last: map<Wire, nat>, fp: seq<seq<Wire>>) {
    (forall w :: w in last <==> LastToucher(fp, w).Some?) &&
    (forall w :: w in last ==> last[w] == LastToucher(fp, w).value)
  }

  /** Links the entry placed in slot `i`, after `fp`, acting on `ws`, to the last toucher of
      each of its wires, then makes it the last toucher of those wires. */
  method LinkEntry(ghost fp: seq<seq<Wire>>, i: nat, ws: seq<Wire>, last: map<Wire, nat>, es: set<Edge>)
    returns (last': map<Wire, nat>, es': set<Edge>)
    requires i == |fp| && DistinctWires(ws)
    requires LastMap(last, fp) && es == Edges(fp)
    ensures LastMap(last', fp + [ws]) && es' == Edges(fp + [ws])
  {
    last', es' := last, es;
    for t := 0 to |ws|
      invariant es' == Edges(fp) + NewEdges(fp, ws[..t])
      invariant forall w :: w in ws[..t] ==> w in last' && last'[w] == i
      invariant forall w :: w !in ws[..t] ==> (w in last' <==> w in last)
      invariant forall w :: w !in ws[..t] && w in last' ==> last'[w] == last[w]
    {
      var w := ws[t];
      NewEdgesStep(fp, ws, t);
      FreshWire(ws, t);
      assert (w in last' <==> LastToucher(fp, w).Some?) && (w in last' ==> last'[w] == LastToucher(fp, w).value);
      if w in last' {
        es' := es' + {(last'[w], i)};
      }
      last' := last'[w := i];
      PrefixSnoc(ws, t);
    }
    assert ws[..|ws|] == ws;
    LinkedAll(fp, ws, last, last', es');
  }

  /** Once every wire of the entry is linked, the map and the edges are those
      of the queue one entry longer. */
  lemma LinkedAll(fp: seq<seq<Wire>>, ws: seq<Wire>, last: map<Wire, nat>, last': map<Wire, nat>, es': set<Edge>)
    requires LastMap(last, fp)
    requires es' == Edges(fp) + NewEdges(fp, ws)
    requires forall w :: w in ws ==> w in last' && last'[w] == |fp|
    requires forall w :: w !in ws ==> (w in last' <==> w in last)
    requires forall w :: w !in ws && w in last' ==> last'[w] == last[w]
    ensures LastMap(last', fp + [ws]) && es' == Edges(fp + [ws])
  {
    EdgesSnoc(fp, ws);
    forall w ensures LastToucher(fp + [ws], w) == if w in ws then Some(|fp|) else LastToucher(fp, w) {
      LastToucherSnoc(fp, ws, w);
    }
  }

  lemma FreshWire(ws: seq<Wire>, t: nat)
    requires DistinctWires(ws) && t < |ws|
    ensures ws[t] !in ws[..t]
  {
  }

  lemma PrefixSnoc(ws: seq<Wire>, t: nat)
    requires t < |ws|
    ensures ws[..t + 1] == ws[..t] + [ws[t]]
  {
  }

  /** The dependency edges of a queue, computed by one walk over it with a
      per-wire last-toucher map. */
  method BuildEdges(queue: seq<Op>) returns (es: set<Edge>)
    requires forall op :: op in queue ==> DistinctWires(op.wires)
    ensures es == Edges(Footprint(queue))
  {
    var last: map<Wire, nat> := map[];
    es := {};
    ghost var fp: seq<seq<Wire>> := [];
    for i := 0 to |queue|
      invariant fp == Footprint(queue)[..i]
      invariant LastMap(last, fp) && es == Edges(fp)
    {
      assert queue[i] in queue;
      last, es := LinkEntry(fp, i, queue[i].wires, last, es);
      assert Footprint(queue)[..i + 1] == fp + [queue[i].wires];
      fp := fp + [queue[i].wires];
    }
    assert Footprint(queue)[..|queue|] == Footprint(queue);
  }

  class CircuitGraph {
    var operations: seq<Op>
    var observables: seq<Op>
    /** The declared wire set. */
    const wires: seq<Wire>
    /** The wires each slot acted on when the graph was built. */
    const slotWires: seq<seq<Wire>>
    /** The dependency edges, built once. */
    const edges: set<Edge>

    ghost predicate Valid()
      reads this
    {
      slotWires == Footprint(operations + observables) &&
      edges == Edges(slotWires) &&
      Forward(edges, |slotWires|)
    }

    /** The combined queue: operations, then observables. */
    function Queue(): seq<Op>
      reads this
    {
      operations + observables
    }

    /** Builds the graph by walking the queue once, keeping for every wire the
        slot that touched it last and linking each entry to the last toucher of
        each of its wires. */
    constructor (ops: seq<Op>, obs: seq<Op>, wires: seq<Wire>)
      requires forall op :: op in ops + obs ==> DistinctWires(op.wires)
      requires forall op, w :: op in ops + obs && w in op.wires ==> w in wires
      ensures Valid()
      ensures operations == ops && observables == obs && this.wires == wires
      ensures slotWires == Footprint(ops + obs)
      ensures edges == Edges(Footprint(ops + obs))
    {
      var queue := ops + obs;
      var es := BuildEdges(queue);
      operations := ops;
      observables := obs;
      this.wires := wires;
      slotWires := Footprint(queue);
      edges := es;
      assert Forward(es, |queue|);
    }

    /** The graph has one node per queue entry. */
    function NodeCount(): (r: nat)
      reads this
      requires Valid()
      ensures r == |operations| + |observables|
      ensures Forward(edges, r)
    {
      |slotWires|
    }

    /** Replaces the entry in slot `idx` with `replacement`, keeping its slot and its
        edges; reports whether there was such a slot.  The replacement acts on the
        wires of the entry it replaces, so the edges stay those of the queue. */
    method UpdateNode(idx: nat, replacement: Op) returns (found: bool)
      requires Valid()
      requires idx < |Queue()| ==> replacement.wires == Queue()[idx].wires
      modifies this`operations, this`observables
      ensures Valid()
      ensures found <==> idx < |old(Queue())|
      ensures Queue() == if found then old(Queue())[idx := replacement] else old(Queue())
      ensures |operations| == |old(operations)| && |observables| == |old(observables)|
    {
      ghost var queue := Queue();
      if idx < |operations| {
        operations := operations[idx := replacement];
        found := true;
        assert Queue() == queue[idx := replacement];
        FootprintUpdate(queue, idx, replacement);
      } else if idx < |operations| + |observables| {
        observables := observables[idx - |operations| := replacement];
        found := true;
        assert Queue() == queue[idx := replacement];
        FootprintUpdate(queue, idx, replacement);
      } else {
        found := false;
      }
    }

    /** The slots with a path into one of the slots `S`, those of `S` excluded. */
    function Ancestors(S: set<nat>): (r: set<nat>)
      reads this
      requires Valid()
      ensures forall k :: k in r <==> k !in S && exists s :: s in S && Reaches(edges, k, s)
    {
      AncestorsExact(edges, |slotWires|, S);
      Reachability.Ancestors(edges, |slotWires|, S)
    }

    /** The slots reached by a path from one of the slots `S`, those of `S` excluded. */
    function Descendants(S: set<nat>): (r: set<nat>)
      reads this
      requires Valid()
      ensures forall k :: k in r <==> k !in S && exists s :: s in S && Reaches(edges, s, k)
    {
      DescendantsExact(edges, |slotWires|, S);
      Reachability.Descendants(edges, |slotWires|, S)
    }

    /** The slots acting on `w`, in strictly increasing order. */
    function WireIndices(w: Wire): (r: seq<nat>)
      reads this
      requires Valid()
      ensures forall k :: k in r ==> k < |slotWires| && w in slotWires[k]
      ensures forall k :: 0 <= k < |slotWires| && w in slotWires[k] ==> k in r
      ensures StrictlyIncreasing(r)
    {
      Dependency.WireIndices(slotWires, w)
    }

    /** The parametrized layers of the current queue. */
    function ParametrizedLayers(): (r: seq<Layer>)
      reads this
      requires Valid()
      ensures Shaped(r) && Members(r) == Trainable(ParInfo(Queue()))
      ensures forall k :: 0 <= k < |r| ==> Independent(edges, |slotWires|, r[k])
      ensures forall k :: 0 < k < |r| ==> DependsOnLayer(edges, |slotWires|, r[k - 1], r[k].ops[0])
    {
      var info := ParInfo(Queue());
      LayersCoverTrainable(edges, |slotWires|, info);
      LayersIndependent(edges, |slotWires|, info);
      LayersBreakOnDependencyAll(edges, |slotWires|, info);
      LayersOf(edges, |slotWires|, info)
    }

    /** One (ancestors, operations, parameter indices, descendants) view per layer. */
    function IterateParametrizedLayers(): (r: seq<LayerView>)
      reads this
      requires Valid()
      ensures |r| == |ParametrizedLayers()|
      ensures forall k :: 0 <= k < |r| ==>
        r[k].ops == ParametrizedLayers()[k].ops && r[k].paramInds == ParametrizedLayers()[k].paramInds
      ensures forall k, x :: 0 <= k < |r| ==>
        (x in r[k].pre <==> x !in r[k].ops && exists a :: a in r[k].ops && Reaches(edges, x, a))
      ensures forall k, x :: 0 <= k < |r| ==>
        (x in r[k].post <==> x !in r[k].ops && exists a :: a in r[k].ops && Reaches(edges, a, x))
      ensures forall k :: 0 <= k < |r| ==> r[k].pre !! r[k].post
    {
      var info := ParInfo(Queue());
      IterateLayersSeparatedAll(edges, |slotWires|, info);
      IterateLayers(edges, |slotWires|, info)
    }
  }
}
