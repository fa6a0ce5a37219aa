/** The reference circuits of the circuit-graph tests and what the model
    computes for them. */
module Scenarios {
  import opened Operations
  import opened Dependency
  import opened Reachability
  import opened Layers
  import opened Circuit

  /** A gate with one trainable parameter. */
  function Rot(name: string, ws: seq<Wire>): Op {
    Op(name, ws, [Param(true)])
  }

  /** A gate without parameters. */
  function Plain(name: string, ws: seq<Wire>): Op {
    Op(name, ws, [])
  }

  /** Seven operations over wires 0, 1, 2, each depending on earlier ones. */
  function ChainOps(): seq<Op> {
    [ Rot("RX", [IntWire(0)]),
      Rot("RY", [IntWire(1)]),
      Rot("RZ", [IntWire(2)]),
      Plain("CNOT", [IntWire(0), IntWire(1)]),
      Plain("Hadamard", [IntWire(2)]),
      Plain("CNOT", [IntWire(2), IntWire(0)]),
      Plain("PauliX", [IntWire(1)]) ]
  }

  /** The two observables measured after `ChainOps`. */
  function ChainObs(): seq<Op> {
    [ Plain("PauliX", [IntWire(0)]),
      Op("Hermitian", [IntWire(1), IntWire(2)], [Param(false)]) ]
  }

  function ChainWires(): seq<seq<Wire>> {
    Footprint(ChainOps() + ChainObs())
  }

  /** Two single-wire operations on different wires: two nodes, no edge. */
  lemma NoDependenceExample()
    ensures |Footprint([Rot("RX", [IntWire(0)]), Rot("RY", [IntWire(1)])])| == 2
    ensures Edges(Footprint([Rot("RX", [IntWire(0)]), Rot("RY", [IntWire(1)])])) == {}
  {
  }

  // ---- evaluating the edge walk on a concrete queue ----

  lemma EdgesPrefixStep(fp: seq<seq<Wire>>, k: nat)
    requires k < |fp|
    ensures Edges(fp[..k + 1]) == Edges(fp[..k]) + NewEdges(fp[..k], fp[k])
  {
    assert fp[..k + 1] == fp[..k] + [fp[k]];
    EdgesSnoc(fp[..k], fp[k]);
  }

  lemma NewEdgesOfOne(p: seq<seq<Wire>>, w: Wire)
    ensures NewEdges(p, [w]) ==
      if LastToucher(p, w).Some? then {(LastToucher(p, w).value, |p|)} else {}
  {
    NewEdgesStep(p, [w], 0);
    assert [w][..1] == [w];
    assert NewEdges(p, [w][..0]) == {};
  }

  lemma NewEdgesOfTwo(p: seq<seq<Wire>>, w: Wire, v: Wire)
    ensures NewEdges(p, [w, v]) == NewEdges(p, [w]) + NewEdges(p, [v])
  {
    NewEdgesStep(p, [w, v], 0);
    NewEdgesStep(p, [w, v], 1);
    NewEdgesOfOne(p, w);
    NewEdgesOfOne(p, v);
    assert [w, v][..2] == [w, v];
    assert [w, v][..1] == [w];
    assert NewEdges(p, [w, v][..0]) == {};
  }

  lemma ChainEdgesUpTo1(w0: Wire)
    ensures Edges([[w0]]) == {}
  {
    var p := [];
    assert p + [[w0]] == [[w0]];
    EdgesSnoc(p, [w0]);
    NewEdgesOfOne(p, w0);
    assert LastToucher(p, w0) == None;
  }

  lemma ChainEdgesUpTo2(w0: Wire, w1: Wire)
    requires w0 != w1
    ensures Edges([[w0], [w1]]) == {}
  {
    ChainEdgesUpTo1(w0);
    var p := [[w0]];
    assert p + [[w1]] == [[w0], [w1]];
    EdgesSnoc(p, [w1]);
    NewEdgesOfOne(p, w1);
    assert LastToucher(p, w1) == None;
  }

  lemma ChainEdgesUpTo3(w0: Wire, w1: Wire, w2: Wire)
    requires w0 != w1 && w1 != w2 && w0 != w2
    ensures Edges([[w0], [w1], [w2]]) == {}
  {
    ChainEdgesUpTo2(w0, w1);
    var p := [[w0], [w1]];
    assert p + [[w2]] == [[w0], [w1], [w2]];
    EdgesSnoc(p, [w2]);
    NewEdgesOfOne(p, w2);
    assert LastToucher(p, w2) == None;
  }

  lemma ChainEdgesUpTo4(w0: Wire, w1: Wire, w2: Wire)
    requires w0 != w1 && w1 != w2 && w0 != w2
    ensures Edges([[w0], [w1], [w2], [w0, w1]]) == {(0, 3), (1, 3)}
  {
    ChainEdgesUpTo3(w0, w1, w2);
    var p := [[w0], [w1], [w2]];
    assert p + [[w0, w1]] == [[w0], [w1], [w2], [w0, w1]];
    EdgesSnoc(p, [w0, w1]);
    NewEdgesOfTwo(p, w0, w1);
    NewEdgesOfOne(p, w0);
    NewEdgesOfOne(p, w1);
    assert LastToucher(p, w0) == Some(0);
    assert LastToucher(p, w1) == Some(1);
  }

  lemma ChainEdgesUpTo5(w0: Wire, w1: Wire, w2: Wire)
    requires w0 != w1 && w1 != w2 && w0 != w2
    ensures Edges([[w0], [w1], [w2], [w0, w1], [w2]]) == {(0, 3), (1, 3), (2, 4)}
  {
    ChainEdgesUpTo4(w0, w1, w2);
    var p := [[w0], [w1], [w2], [w0, w1]];
    assert p + [[w2]] == [[w0], [w1], [w2], [w0, w1], [w2]];
    EdgesSnoc(p, [w2]);
    NewEdgesOfOne(p, w2);
    assert LastToucher(p, w2) == Some(2);
  }

  lemma ChainEdgesUpTo6(w0: Wire, w1: Wire, w2: Wire)
    requires w0 != w1 && w1 != w2 && w0 != w2
    ensures Edges([[w0], [w1], [w2], [w0, w1], [w2], [w2, w0]]) == {(0, 3), (1, 3), (2, 4), (4, 5), (3, 5)}
  {
    ChainEdgesUpTo5(w0, w1, w2);
    var p := [[w0], [w1], [w2], [w0, w1], [w2]];
    assert p + [[w2, w0]] == [[w0], [w1], [w2], [w0, w1], [w2], [w2, w0]];
    EdgesSnoc(p, [w2, w0]);
    NewEdgesOfTwo(p, w2, w0);
    NewEdgesOfOne(p, w2);
    NewEdgesOfOne(p, w0);
    assert LastToucher(p, w2) == Some(4);
    assert LastToucher(p, w0) == Some(3);
  }

  lemma ChainEdgesUpTo7(w0: Wire, w1: Wire, w2: Wire)
    requires w0 != w1 && w1 != w2 && w0 != w2
    ensures Edges([[w0], [w1], [w2], [w0, w1], [w2], [w2, w0], [w1]]) == {(0, 3), (1, 3), (2, 4), (4, 5), (3, 5), (3, 6)}
  {
    ChainEdgesUpTo6(w0, w1, w2);
    var p := [[w0], [w1], [w2], [w0, w1], [w2], [w2, w0]];
    assert p + [[w1]] == [[w0], [w1], [w2], [w0, w1], [w2], [w2, w0], [w1]];
    EdgesSnoc(p, [w1]);
    NewEdgesOfOne(p, w1);
    assert LastToucher(p, w1) == Some(3);
  }

  lemma ChainEdgesUpTo8(w0: Wire, w1: Wire, w2: Wire)
    requires w0 != w1 && w1 != w2 && w0 != w2
    ensures Edges([[w0], [w1], [w2], [w0, w1], [w2], [w2, w0], [w1], [w0]]) == {(0, 3), (1, 3), (2, 4), (4, 5), (3, 5), (3, 6), (5, 7)}
  {
    ChainEdgesUpTo7(w0, w1, w2);
    var p := [[w0], [w1], [w2], [w0, w1], [w2], [w2, w0], [w1]];
    assert p + [[w0]] == [[w0], [w1], [w2], [w0, w1], [w2], [w2, w0], [w1], [w0]];
    EdgesSnoc(p, [w0]);
    NewEdgesOfOne(p, w0);
    assert LastToucher(p, w0) == Some(5);
  }

  lemma ChainEdgesUpTo9(w0: Wire, w1: Wire, w2: Wire)
    requires w0 != w1 && w1 != w2 && w0 != w2
    ensures Edges([[w0], [w1], [w2], [w0, w1], [w2], [w2, w0], [w1], [w0], [w1, w2]]) == {(0, 3), (1, 3), (2, 4), (4, 5), (3, 5), (3, 6), (5, 7), (6, 8), (5, 8)}
  {
    ChainEdgesUpTo8(w0, w1, w2);
    var p := [[w0], [w1], [w2], [w0, w1], [w2], [w2, w0], [w1], [w0]];
    assert p + [[w1, w2]] == [[w0], [w1], [w2], [w0, w1], [w2], [w2, w0], [w1], [w0], [w1, w2]];
    EdgesSnoc(p, [w1, w2]);
    NewEdgesOfTwo(p, w1, w2);
    NewEdgesOfOne(p, w1);
    NewEdgesOfOne(p, w2);
    assert LastToucher(p, w1) == Some(6);
    assert LastToucher(p, w2) == Some(5);
  }

  /** The chained circuit has nine nodes and exactly these nine edges. */
  lemma ChainEdgesExample()
    ensures |ChainWires()| == 9
    ensures Edges(ChainWires()) ==
      {(0, 3), (1, 3), (2, 4), (3, 5), (3, 6), (4, 5), (5, 7), (5, 8), (6, 8)}
  {
    var w0, w1, w2 := IntWire(0), IntWire(1), IntWire(2);
    assert ChainWires() == [[w0], [w1], [w2], [w0, w1], [w2], [w2, w0], [w1], [w0], [w1, w2]];
    ChainEdgesUpTo9(w0, w1, w2);
  }

  /** The edge set of the chained circuit, as listed in the tests. */
  function ChainEdges(): set<Edge> {
    {(0, 3), (1, 3), (2, 4), (3, 5), (3, 6), (4, 5), (5, 7), (5, 8), (6, 8)}
  }

  lemma ChainUpstreamHalf(E: set<Edge>, S: set<nat>)
    requires E == ChainEdges() && S == {6}
    ensures Upstream(E, 9, S, 4) == {6}
  {
    assert Upstream(E, 9, S, 9) == {};
    assert Upstream(E, 9, S, 8) == {};
    assert Upstream(E, 9, S, 7) == {};
    assert Upstream(E, 9, S, 6) == {6};
    assert (5, 6) !in E;
    assert Upstream(E, 9, S, 5) == {6};
    assert (4, 6) !in E;
  }

  lemma ChainUpstream(E: set<Edge>, S: set<nat>)
    requires E == ChainEdges() && S == {6}
    ensures Upstream(E, 9, S, 0) == {0, 1, 3, 6}
  {
    ChainUpstreamHalf(E, S);
    assert (3, 6) in E;
    assert Upstream(E, 9, S, 3) == {3, 6};
    assert (2, 3) !in E && (2, 6) !in E;
    assert Upstream(E, 9, S, 2) == {3, 6};
    assert (1, 3) in E;
    assert Upstream(E, 9, S, 1) == {1, 3, 6};
    assert (0, 3) in E;
    assert Upstream(E, 9, S, 0) == {0, 1, 3, 6};
  }

  lemma ChainDownstreamHalf(E: set<Edge>, S: set<nat>)
    requires E == ChainEdges() && S == {6}
    ensures Downstream(E, S, 5) == {}
  {
    assert Downstream(E, S, 0) == {};
    assert Downstream(E, S, 1) == {};
    assert Downstream(E, S, 2) == {};
    assert Downstream(E, S, 3) == {};
    assert Downstream(E, S, 4) == {};
  }

  lemma ChainDownstream(E: set<Edge>, S: set<nat>)
    requires E == ChainEdges() && S == {6}
    ensures Downstream(E, S, 9) == {6, 8}
  {
    ChainDownstreamHalf(E, S);
    assert Downstream(E, S, 6) == {};
    assert Downstream(E, S, 7) == {6};
    assert (6, 7) !in E;
    assert Downstream(E, S, 8) == {6};
    assert (6, 8) in E;
    assert Downstream(E, S, 9) == {6, 8};
  }

  /** Slot 6 of the chained circuit has ancestors 0, 1, 3 and descendant 8 only. */
  lemma ChainAncestorsExample()
    ensures Ancestors(Edges(ChainWires()), 9, {6}) == {0, 1, 3}
    ensures Descendants(Edges(ChainWires()), 9, {6}) == {8}
  {
    ChainEdgesExample();
    ChainSurroundings(Edges(ChainWires()));
  }

  lemma ChainSurroundings(E: set<Edge>)
    requires E == ChainEdges()
    ensures Ancestors(E, 9, {6}) == {0, 1, 3}
    ensures Descendants(E, 9, {6}) == {8}
  {
    ChainUpstream(E, {6});
    ChainDownstream(E, {6});
  }

  lemma ChainWireIndices0(w0: Wire, w1: Wire, w2: Wire)
    requires w0 != w1 && w1 != w2 && w0 != w2
    ensures WireIndices([[w0], [w1], [w2], [w0, w1], [w2], [w2, w0], [w1], [w0], [w1, w2]], w0) == [0, 3, 5, 7]
  {
    var fp := [[w0], [w1], [w2], [w0, w1], [w2], [w2, w0], [w1], [w0], [w1, w2]];
    var r: seq<nat> := [0, 3, 5, 7];
    forall k ensures k in r <==> 0 <= k < |fp| && w0 in fp[k] {
      if k == 0 { assert w0 in fp[0]; } else if k == 1 { assert w0 !in fp[1]; } else if k == 2 { assert w0 !in fp[2]; } else if k == 3 { assert w0 in fp[3]; } else if k == 4 { assert w0 !in fp[4]; } else if k == 5 { assert w0 in fp[5]; } else if k == 6 { assert w0 !in fp[6]; } else if k == 7 { assert w0 in fp[7]; } else if k == 8 { assert w0 !in fp[8]; }
    }
    WireIndicesUnique(fp, w0, r);
  }

  lemma ChainWireIndices1(w0: Wire, w1: Wire, w2: Wire)
    requires w0 != w1 && w1 != w2 && w0 != w2
    ensures WireIndices([[w0], [w1], [w2], [w0, w1], [w2], [w2, w0], [w1], [w0], [w1, w2]], w1) == [1, 3, 6, 8]
  {
    var fp := [[w0], [w1], [w2], [w0, w1], [w2], [w2, w0], [w1], [w0], [w1, w2]];
    var r: seq<nat> := [1, 3, 6, 8];
    forall k ensures k in r <==> 0 <= k < |fp| && w1 in fp[k] {
      if k == 0 { assert w1 !in fp[0]; } else if k == 1 { assert w1 in fp[1]; } else if k == 2 { assert w1 !in fp[2]; } else if k == 3 { assert w1 in fp[3]; } else if k == 4 { assert w1 !in fp[4]; } else if k == 5 { assert w1 !in fp[5]; } else if k == 6 { assert w1 in fp[6]; } else if k == 7 { assert w1 !in fp[7]; } else if k == 8 { assert w1 in fp[8]; }
    }
    WireIndicesUnique(fp, w1, r);
  }

  lemma ChainWireIndices2(w0: Wire, w1: Wire, w2: Wire)
    requires w0 != w1 && w1 != w2 && w0 != w2
    ensures WireIndices([[w0], [w1], [w2], [w0, w1], [w2], [w2, w0], [w1], [w0], [w1, w2]], w2) == [2, 4, 5, 8]
  {
    var fp := [[w0], [w1], [w2], [w0, w1], [w2], [w2, w0], [w1], [w0], [w1, w2]];
    var r: seq<nat> := [2, 4, 5, 8];
    forall k ensures k in r <==> 0 <= k < |fp| && w2 in fp[k] {
      if k == 0 { assert w2 !in fp[0]; } else if k == 1 { assert w2 !in fp[1]; } else if k == 2 { assert w2 in fp[2]; } else if k == 3 { assert w2 !in fp[3]; } else if k == 4 { assert w2 in fp[4]; } else if k == 5 { assert w2 in fp[5]; } else if k == 6 { assert w2 !in fp[6]; } else if k == 7 { assert w2 !in fp[7]; } else if k == 8 { assert w2 in fp[8]; }
    }
    WireIndicesUnique(fp, w2, r);
  }

  /** The slots acting on each wire of the chained circuit, in queue order. */
  lemma ChainWireIndicesExample()
    ensures WireIndices(ChainWires(), IntWire(0)) == [0, 3, 5, 7]
    ensures WireIndices(ChainWires(), IntWire(1)) == [1, 3, 6, 8]
    ensures WireIndices(ChainWires(), IntWire(2)) == [2, 4, 5, 8]
  {
    var w0, w1, w2 := IntWire(0), IntWire(1), IntWire(2);
    assert ChainWires() == [[w0], [w1], [w2], [w0, w1], [w2], [w2, w0], [w1], [w0], [w1, w2]];
    ChainWireIndices0(w0, w1, w2);
    ChainWireIndices1(w0, w1, w2);
    ChainWireIndices2(w0, w1, w2);
  }

  /** Builds the graph of the chained circuit and replaces its first operation:
      the new gate takes slot 0 and every other entry stays where it was. */
  method UpdateNodeExample() returns (g: CircuitGraph, found: bool)
    ensures found && g.Valid()
    ensures |g.operations| == |ChainOps()|
    ensures g.operations[0] == Plain("PauliZ", [IntWire(0)]) != ChainOps()[0]
    ensures g.operations[1..] == ChainOps()[1..] && g.observables == ChainObs()
  {
    var ops, obs := ChainOps(), ChainObs();
    var ws := [IntWire(0), IntWire(1), IntWire(2)];
    ChainWellFormed(ws);
    g := new CircuitGraph(ops, obs, ws);
    found := g.UpdateNode(0, Plain("PauliZ", [IntWire(0)]));
    SwapFirst(ops, obs, g.operations, g.observables, Plain("PauliZ", [IntWire(0)]));
  }

  lemma ChainWellFormed(ws: seq<Wire>)
    requires ws == [IntWire(0), IntWire(1), IntWire(2)]
    ensures forall op :: op in ChainOps() + ChainObs() ==> DistinctWires(op.wires)
    ensures forall op, w :: op in ChainOps() + ChainObs() && w in op.wires ==> w in ws
  {
    forall op: Op | op in ChainOps() + ChainObs() ensures DistinctWires(op.wires) && forall w :: w in op.wires ==> w in ws {
    }
  }

  /** Replacing slot 0 of a queue split into operations and observables
      replaces the first operation and keeps everything else. */
  lemma SwapFirst(ops: seq<Op>, obs: seq<Op>, ops': seq<Op>, obs': seq<Op>, x: Op)
    requires |ops'| == |ops| > 0 && |obs'| == |obs|
    requires ops' + obs' == (ops + obs)[0 := x]
    ensures ops'[0] == x && ops'[1..] == ops[1..] && obs' == obs
  {
    assert ops' == (ops' + obs')[..|ops|];
    assert obs' == (ops' + obs')[|ops|..];
  }

  // ---- the parametrized circuit of the layer tests ----

  /** The circuit of the layer tests over wires `a`, `q`, `c`: a rotation on each
      wire, a beamsplitter on `a` and `q` whose second argument is a constant, a
      rotation by a constant on `a`, rotations on `q` and `c`, then a photon-number
      measurement on each wire.  Trainable parameters are the six circuit arguments. */
  function ParamQueue(a: Wire, q: Wire, c: Wire): seq<Op> {
    [ Rot("Rotation", [a]),
      Rot("Rotation", [q]),
      Rot("Rotation", [c]),
      Op("Beamsplitter", [a, q], [Param(true), Param(false)]),
      Op("Rotation", [a], [Param(false)]),
      Rot("Rotation", [q]),
      Rot("Rotation", [c]),
      Plain("NumberOperator", [a]),
      Plain("NumberOperator", [q]),
      Plain("NumberOperator", [c]) ]
  }

  /** The wires of the layer tests. */
  function ParamCircuit(): seq<Op> {
    ParamQueue(StrWire("a"), StrWire("q1"), IntWire(3))
  }

  function ParamEdges(): set<Edge> {
    {(0, 3), (1, 3), (3, 4), (3, 5), (2, 6), (4, 7), (5, 8), (6, 9)}
  }

  /** The flattened parameters of the layer circuit: eight in all; the two
      constants take indices 4 and 5. */
  function ParamInfo(): seq<ParEntry> {
    [ParEntry(0, true), ParEntry(1, true), ParEntry(2, true), ParEntry(3, true), ParEntry(3, false), ParEntry(4, false), ParEntry(5, true), ParEntry(6, true)]
  }

  lemma ParInfoSnoc(queue: seq<Op>, op: Op)
    ensures ParInfo(queue + [op]) ==
      ParInfo(queue) + seq(|op.params|, t requires 0 <= t < |op.params| => ParEntry(|queue|, op.params[t].trainable))
  {
    assert (queue + [op])[..|queue|] == queue;
  }

  lemma ParamEdgesUpTo1(a: Wire)
    ensures Edges([[a]]) == {}
  {
    var p := [];
    assert p + [[a]] == [[a]];
    EdgesSnoc(p, [a]);
    NewEdgesOfOne(p, a);
    assert LastToucher(p, a) == None;
  }

  lemma ParamEdgesUpTo2(a: Wire, q: Wire)
    requires a != q
    ensures Edges([[a], [q]]) == {}
  {
    ParamEdgesUpTo1(a);
    var p := [[a]];
    assert p + [[q]] == [[a], [q]];
    EdgesSnoc(p, [q]);
    NewEdgesOfOne(p, q);
    assert LastToucher(p, q) == None;
  }

  lemma ParamEdgesUpTo3(a: Wire, q: Wire, c: Wire)
    requires a != q && q != c && a != c
    ensures Edges([[a], [q], [c]]) == {}
  {
    ParamEdgesUpTo2(a, q);
    var p := [[a], [q]];
    assert p + [[c]] == [[a], [q], [c]];
    EdgesSnoc(p, [c]);
    NewEdgesOfOne(p, c);
    assert LastToucher(p, c) == None;
  }

  lemma ParamEdgesUpTo4(a: Wire, q: Wire, c: Wire)
    requires a != q && q != c && a != c
    ensures Edges([[a], [q], [c], [a, q]]) == {(0, 3), (1, 3)}
  {
    ParamEdgesUpTo3(a, q, c);
    var p := [[a], [q], [c]];
    assert p + [[a, q]] == [[a], [q], [c], [a, q]];
    EdgesSnoc(p, [a, q]);
    NewEdgesOfTwo(p, a, q);
    NewEdgesOfOne(p, a);
    NewEdgesOfOne(p, q);
    assert LastToucher(p, a) == Some(0);
    assert LastToucher(p, q) == Some(1);
  }

  lemma ParamEdgesUpTo5(a: Wire, q: Wire, c: Wire)
    requires a != q && q != c && a != c
    ensures Edges([[a], [q], [c], [a, q], [a]]) == {(0, 3), (1, 3), (3, 4)}
  {
    ParamEdgesUpTo4(a, q, c);
    var p := [[a], [q], [c], [a, q]];
    assert p + [[a]] == [[a], [q], [c], [a, q], [a]];
    EdgesSnoc(p, [a]);
    NewEdgesOfOne(p, a);
    assert LastToucher(p, a) == Some(3);
  }

  lemma ParamEdgesUpTo6(a: Wire, q: Wire, c: Wire)
    requires a != q && q != c && a != c
    ensures Edges([[a], [q], [c], [a, q], [a], [q]]) == {(0, 3), (1, 3), (3, 4), (3, 5)}
  {
    ParamEdgesUpTo5(a, q, c);
    var p := [[a], [q], [c], [a, q], [a]];
    assert p + [[q]] == [[a], [q], [c], [a, q], [a], [q]];
    EdgesSnoc(p, [q]);
    NewEdgesOfOne(p, q);
    assert LastToucher(p, q) == Some(3);
  }

  lemma ParamEdgesUpTo7(a: Wire, q: Wire, c: Wire)
    requires a != q && q != c && a != c
    ensures Edges([[a], [q], [c], [a, q], [a], [q], [c]]) == {(0, 3), (1, 3), (3, 4), (3, 5), (2, 6)}
  {
    ParamEdgesUpTo6(a, q, c);
    var p := [[a], [q], [c], [a, q], [a], [q]];
    assert p + [[c]] == [[a], [q], [c], [a, q], [a], [q], [c]];
    EdgesSnoc(p, [c]);
    NewEdgesOfOne(p, c);
    assert c !in p[5] && c !in p[4] && c !in p[3] && c in p[2];
    assert LastToucher(p, c) == Some(2);
  }

  lemma ParamEdgesUpTo8(a: Wire, q: Wire, c: Wire)
    requires a != q && q != c && a != c
    ensures Edges([[a], [q], [c], [a, q], [a], [q], [c], [a]]) == {(0, 3), (1, 3), (3, 4), (3, 5), (2, 6), (4, 7)}
  {
    ParamEdgesUpTo7(a, q, c);
    var p := [[a], [q], [c], [a, q], [a], [q], [c]];
    assert p + [[a]] == [[a], [q], [c], [a, q], [a], [q], [c], [a]];
    EdgesSnoc(p, [a]);
    NewEdgesOfOne(p, a);
    assert LastToucher(p, a) == Some(4);
  }

  lemma ParamEdgesUpTo9(a: Wire, q: Wire, c: Wire)
    requires a != q && q != c && a != c
    ensures Edges([[a], [q], [c], [a, q], [a], [q], [c], [a], [q]]) == {(0, 3), (1, 3), (3, 4), (3, 5), (2, 6), (4, 7), (5, 8)}
  {
    ParamEdgesUpTo8(a, q, c);
    var p := [[a], [q], [c], [a, q], [a], [q], [c], [a]];
    assert p + [[q]] == [[a], [q], [c], [a, q], [a], [q], [c], [a], [q]];
    EdgesSnoc(p, [q]);
    NewEdgesOfOne(p, q);
    assert LastToucher(p, q) == Some(5);
  }

  lemma ParamEdgesUpTo10(a: Wire, q: Wire, c: Wire)
    requires a != q && q != c && a != c
    ensures Edges([[a], [q], [c], [a, q], [a], [q], [c], [a], [q], [c]]) == {(0, 3), (1, 3), (3, 4), (3, 5), (2, 6), (4, 7), (5, 8), (6, 9)}
  {
    ParamEdgesUpTo9(a, q, c);
    var p := [[a], [q], [c], [a, q], [a], [q], [c], [a], [q]];
    assert p + [[c]] == [[a], [q], [c], [a, q], [a], [q], [c], [a], [q], [c]];
    EdgesSnoc(p, [c]);
    NewEdgesOfOne(p, c);
    assert LastToucher(p, c) == Some(6);
  }

  lemma ParamUpstream1Half(E: set<Edge>, S: set<nat>)
    requires E == ParamEdges() && S == {1}
    ensures Upstream(E, 10, S, 5) == {}
  {
    assert Upstream(E, 10, S, 10) == {};
    assert Upstream(E, 10, S, 9) == {};
    assert Upstream(E, 10, S, 8) == {};
    assert Upstream(E, 10, S, 7) == {};
    assert Upstream(E, 10, S, 6) == {};
  }

  lemma ParamUpstream1(E: set<Edge>, S: set<nat>)
    requires E == ParamEdges() && S == {1}
    ensures Upstream(E, 10, S, 0) == {1}
  {
    ParamUpstream1Half(E, S);
    assert Upstream(E, 10, S, 4) == {};
    assert Upstream(E, 10, S, 3) == {};
    assert Upstream(E, 10, S, 2) == {};
    assert Upstream(E, 10, S, 1) == {1};
    assert (0, 1) !in E;
    assert Upstream(E, 10, S, 0) == {1};
  }

  lemma ParamUpstream2Half(E: set<Edge>, S: set<nat>)
    requires E == ParamEdges() && S == {2}
    ensures Upstream(E, 10, S, 5) == {}
  {
    assert Upstream(E, 10, S, 10) == {};
    assert Upstream(E, 10, S, 9) == {};
    assert Upstream(E, 10, S, 8) == {};
    assert Upstream(E, 10, S, 7) == {};
    assert Upstream(E, 10, S, 6) == {};
  }

  lemma ParamUpstream2(E: set<Edge>, S: set<nat>)
    requires E == ParamEdges() && S == {2}
    ensures Upstream(E, 10, S, 0) == {2}
  {
    ParamUpstream2Half(E, S);
    assert Upstream(E, 10, S, 4) == {};
    assert Upstream(E, 10, S, 3) == {};
    assert Upstream(E, 10, S, 2) == {2};
    assert (1, 2) !in E;
    assert Upstream(E, 10, S, 1) == {2};
    assert (0, 2) !in E;
    assert Upstream(E, 10, S, 0) == {2};
  }

  lemma ParamUpstream3Half(E: set<Edge>, S: set<nat>)
    requires E == ParamEdges() && S == {3}
    ensures Upstream(E, 10, S, 5) == {}
  {
    assert Upstream(E, 10, S, 10) == {};
    assert Upstream(E, 10, S, 9) == {};
    assert Upstream(E, 10, S, 8) == {};
    assert Upstream(E, 10, S, 7) == {};
    assert Upstream(E, 10, S, 6) == {};
  }

  lemma ParamUpstream3(E: set<Edge>, S: set<nat>)
    requires E == ParamEdges() && S == {3}
    ensures Upstream(E, 10, S, 0) == {0, 1, 3}
  {
    ParamUpstream3Half(E, S);
    assert Upstream(E, 10, S, 4) == {};
    assert Upstream(E, 10, S, 3) == {3};
    assert (2, 3) !in E;
    assert Upstream(E, 10, S, 2) == {3};
    assert (1, 3) in E;
    assert Upstream(E, 10, S, 1) == {1, 3};
    assert (0, 3) in E;
    assert Upstream(E, 10, S, 0) == {0, 1, 3};
  }

  lemma ParamUpstream5Half(E: set<Edge>, S: set<nat>)
    requires E == ParamEdges() && S == {5}
    ensures Upstream(E, 10, S, 5) == {5}
  {
    assert Upstream(E, 10, S, 10) == {};
    assert Upstream(E, 10, S, 9) == {};
    assert Upstream(E, 10, S, 8) == {};
    assert Upstream(E, 10, S, 7) == {};
    assert Upstream(E, 10, S, 6) == {};
  }

  lemma ParamUpstream5(E: set<Edge>, S: set<nat>)
    requires E == ParamEdges() && S == {5}
    ensures Upstream(E, 10, S, 0) == {0, 1, 3, 5}
  {
    ParamUpstream5Half(E, S);
    assert (4, 5) !in E;
    assert Upstream(E, 10, S, 4) == {5};
    assert (3, 5) in E;
    assert Upstream(E, 10, S, 3) == {3, 5};
    assert (2, 3) !in E && (2, 5) !in E;
    assert Upstream(E, 10, S, 2) == {3, 5};
    assert (1, 3) in E;
    assert Upstream(E, 10, S, 1) == {1, 3, 5};
    assert (0, 3) in E;
    assert Upstream(E, 10, S, 0) == {0, 1, 3, 5};
  }

  lemma ParamUpstream6Half(E: set<Edge>, S: set<nat>)
    requires E == ParamEdges() && S == {6}
    ensures Upstream(E, 10, S, 5) == {6}
  {
    assert Upstream(E, 10, S, 10) == {};
    assert Upstream(E, 10, S, 9) == {};
    assert Upstream(E, 10, S, 8) == {};
    assert Upstream(E, 10, S, 7) == {};
    assert Upstream(E, 10, S, 6) == {6};
    assert (5, 6) !in E;
  }

  lemma ParamUpstream6(E: set<Edge>, S: set<nat>)
    requires E == ParamEdges() && S == {6}
    ensures Upstream(E, 10, S, 0) == {2, 6}
  {
    ParamUpstream6Half(E, S);
    assert (4, 6) !in E;
    assert Upstream(E, 10, S, 4) == {6};
    assert (3, 6) !in E;
    assert Upstream(E, 10, S, 3) == {6};
    assert (2, 6) in E;
    assert Upstream(E, 10, S, 2) == {2, 6};
    assert (1, 2) !in E && (1, 6) !in E;
    assert Upstream(E, 10, S, 1) == {2, 6};
    assert (0, 2) !in E && (0, 6) !in E;
    assert Upstream(E, 10, S, 0) == {2, 6};
  }

  lemma ParamUpstream0_1_2Half(E: set<Edge>, S: set<nat>)
    requires E == ParamEdges() && S == {0, 1, 2}
    ensures Upstream(E, 10, S, 5) == {}
  {
    assert Upstream(E, 10, S, 10) == {};
    assert Upstream(E, 10, S, 9) == {};
    assert Upstream(E, 10, S, 8) == {};
    assert Upstream(E, 10, S, 7) == {};
    assert Upstream(E, 10, S, 6) == {};
  }

  lemma ParamUpstream0_1_2(E: set<Edge>, S: set<nat>)
    requires E == ParamEdges() && S == {0, 1, 2}
    ensures Upstream(E, 10, S, 0) == {0, 1, 2}
  {
    ParamUpstream0_1_2Half(E, S);
    assert Upstream(E, 10, S, 4) == {};
    assert Upstream(E, 10, S, 3) == {};
    assert Upstream(E, 10, S, 2) == {2};
    assert Upstream(E, 10, S, 1) == {1, 2};
    assert Upstream(E, 10, S, 0) == {0, 1, 2};
  }

  lemma ParamUpstream5_6Half(E: set<Edge>, S: set<nat>)
    requires E == ParamEdges() && S == {5, 6}
    ensures Upstream(E, 10, S, 5) == {5, 6}
  {
    assert Upstream(E, 10, S, 10) == {};
    assert Upstream(E, 10, S, 9) == {};
    assert Upstream(E, 10, S, 8) == {};
    assert Upstream(E, 10, S, 7) == {};
    assert Upstream(E, 10, S, 6) == {6};
  }

  lemma ParamUpstream5_6(E: set<Edge>, S: set<nat>)
    requires E == ParamEdges() && S == {5, 6}
    ensures Upstream(E, 10, S, 0) == {0, 1, 2, 3, 5, 6}
  {
    ParamUpstream5_6Half(E, S);
    assert (4, 5) !in E && (4, 6) !in E;
    assert Upstream(E, 10, S, 4) == {5, 6};
    assert (3, 5) in E;
    assert Upstream(E, 10, S, 3) == {3, 5, 6};
    assert (2, 6) in E;
    assert Upstream(E, 10, S, 2) == {2, 3, 5, 6};
    assert (1, 3) in E;
    assert Upstream(E, 10, S, 1) == {1, 2, 3, 5, 6};
    assert (0, 3) in E;
    assert Upstream(E, 10, S, 0) == {0, 1, 2, 3, 5, 6};
  }

  lemma ParamDownstream0_1_2Half(E: set<Edge>, S: set<nat>)
    requires E == ParamEdges() && S == {0, 1, 2}
    ensures Downstream(E, S, 5) == {0, 1, 2, 3, 4}
  {
    assert Downstream(E, S, 0) == {};
    assert Downstream(E, S, 1) == {0};
    assert Downstream(E, S, 2) == {0, 1};
    assert Downstream(E, S, 3) == {0, 1, 2};
    assert (0, 3) in E;
    assert Downstream(E, S, 4) == {0, 1, 2, 3};
    assert (3, 4) in E;
  }

  lemma ParamDownstream0_1_2(E: set<Edge>, S: set<nat>)
    requires E == ParamEdges() && S == {0, 1, 2}
    ensures Downstream(E, S, 10) == {0, 1, 2, 3, 4, 5, 6, 7, 8, 9}
  {
    ParamDownstream0_1_2Half(E, S);
    assert (3, 5) in E;
    assert Downstream(E, S, 6) == {0, 1, 2, 3, 4, 5};
    assert (2, 6) in E;
    assert Downstream(E, S, 7) == {0, 1, 2, 3, 4, 5, 6};
    assert (4, 7) in E;
    assert Downstream(E, S, 8) == {0, 1, 2, 3, 4, 5, 6, 7};
    assert (5, 8) in E;
    assert Downstream(E, S, 9) == {0, 1, 2, 3, 4, 5, 6, 7, 8};
    assert (6, 9) in E;
    assert Downstream(E, S, 10) == {0, 1, 2, 3, 4, 5, 6, 7, 8, 9};
  }

  lemma ParamDownstream3Half(E: set<Edge>, S: set<nat>)
    requires E == ParamEdges() && S == {3}
    ensures Downstream(E, S, 5) == {3, 4}
  {
    assert Downstream(E, S, 0) == {};
    assert Downstream(E, S, 1) == {};
    assert Downstream(E, S, 2) == {};
    assert Downstream(E, S, 3) == {};
    assert Downstream(E, S, 4) == {3};
    assert (3, 4) in E;
  }

  lemma ParamDownstream3Late(E: set<Edge>, S: set<nat>)
    requires E == ParamEdges() && S == {3}
    ensures Downstream(E, S, 8) == {3, 4, 5, 7}
  {
    ParamDownstream3Half(E, S);
    assert (3, 5) in E;
    assert Downstream(E, S, 6) == {3, 4, 5};
    assert (3, 6) !in E && (4, 6) !in E && (5, 6) !in E;
    assert Downstream(E, S, 7) == {3, 4, 5};
    assert (4, 7) in E;
  }

  lemma ParamDownstream3(E: set<Edge>, S: set<nat>)
    requires E == ParamEdges() && S == {3}
    ensures Downstream(E, S, 10) == {3, 4, 5, 7, 8}
  {
    ParamDownstream3Late(E, S);
    assert (5, 8) in E;
    assert Downstream(E, S, 9) == {3, 4, 5, 7, 8};
    assert (3, 9) !in E && (4, 9) !in E && (5, 9) !in E && (7, 9) !in E && (8, 9) !in E;
    assert Downstream(E, S, 10) == {3, 4, 5, 7, 8};
  }

  lemma ParamDownstream5_6Half(E: set<Edge>, S: set<nat>)
    requires E == ParamEdges() && S == {5, 6}
    ensures Downstream(E, S, 5) == {}
  {
    assert Downstream(E, S, 0) == {};
    assert Downstream(E, S, 1) == {};
    assert Downstream(E, S, 2) == {};
    assert Downstream(E, S, 3) == {};
    assert Downstream(E, S, 4) == {};
  }

  lemma ParamDownstream5_6(E: set<Edge>, S: set<nat>)
    requires E == ParamEdges() && S == {5, 6}
    ensures Downstream(E, S, 10) == {5, 6, 8, 9}
  {
    ParamDownstream5_6Half(E, S);
    assert Downstream(E, S, 6) == {5};
    assert Downstream(E, S, 7) == {5, 6};
    assert (5, 7) !in E && (6, 7) !in E;
    assert Downstream(E, S, 8) == {5, 6};
    assert (5, 8) in E;
    assert Downstream(E, S, 9) == {5, 6, 8};
    assert (6, 9) in E;
    assert Downstream(E, S, 10) == {5, 6, 8, 9};
  }


  lemma ParamEdgesOf(a: Wire, q: Wire, c: Wire)
    requires a != q && q != c && a != c
    ensures Edges(Footprint(ParamQueue(a, q, c))) == ParamEdges()
  {
    assert Footprint(ParamQueue(a, q, c)) == [[a], [q], [c], [a, q], [a], [q], [c], [a], [q], [c]];
    ParamEdgesUpTo10(a, q, c);
  }

  lemma ParInfoPrefixStep(queue: seq<Op>, k: nat)
    requires k < |queue|
    ensures ParInfo(queue[..k + 1]) == ParInfo(queue[..k]) +
      seq(|queue[k].params|, t requires 0 <= t < |queue[k].params| => ParEntry(k, queue[k].params[t].trainable))
  {
    assert queue[..k + 1][..k] == queue[..k];
  }

  lemma ParamInfoUpTo1(a: Wire)
    ensures ParInfo([Rot("Rotation", [a])]) == [ParEntry(0, true)]
  {
    assert ParInfo([]) == [];
    var p: seq<Op> := [];
    var o := Rot("Rotation", [a]);
    assert p + [o] == [Rot("Rotation", [a])];
    ParInfoSnoc(p, o);
    assert seq(|o.params|, t requires 0 <= t < |o.params| => ParEntry(|p|, o.params[t].trainable)) == [ParEntry(0, true)];
  }

  lemma ParamInfoUpTo2(a: Wire, q: Wire)
    ensures ParInfo([Rot("Rotation", [a]), Rot("Rotation", [q])]) == [ParEntry(0, true), ParEntry(1, true)]
  {
    ParamInfoUpTo1(a);
    var p: seq<Op> := [Rot("Rotation", [a])];
    var o := Rot("Rotation", [q]);
    assert p + [o] == [Rot("Rotation", [a]), Rot("Rotation", [q])];
    ParInfoSnoc(p, o);
    assert seq(|o.params|, t requires 0 <= t < |o.params| => ParEntry(|p|, o.params[t].trainable)) == [ParEntry(1, true)];
  }

  lemma ParamInfoUpTo3(a: Wire, q: Wire, c: Wire)
    ensures ParInfo([Rot("Rotation", [a]), Rot("Rotation", [q]), Rot("Rotation", [c])]) == [ParEntry(0, true), ParEntry(1, true), ParEntry(2, true)]
  {
    ParamInfoUpTo2(a, q);
    var p: seq<Op> := [Rot("Rotation", [a]), Rot("Rotation", [q])];
    var o := Rot("Rotation", [c]);
    assert p + [o] == [Rot("Rotation", [a]), Rot("Rotation", [q]), Rot("Rotation", [c])];
    ParInfoSnoc(p, o);
    assert seq(|o.params|, t requires 0 <= t < |o.params| => ParEntry(|p|, o.params[t].trainable)) == [ParEntry(2, true)];
  }

  lemma ParamInfoUpTo4(a: Wire, q: Wire, c: Wire)
    ensures ParInfo([Rot("Rotation", [a]), Rot("Rotation", [q]), Rot("Rotation", [c]), Op("Beamsplitter", [a, q], [Param(true), Param(false)])]) == [ParEntry(0, true), ParEntry(1, true), ParEntry(2, true), ParEntry(3, true), ParEntry(3, false)]
  {
    ParamInfoUpTo3(a, q, c);
    var p: seq<Op> := [Rot("Rotation", [a]), Rot("Rotation", [q]), Rot("Rotation", [c])];
    var o := Op("Beamsplitter", [a, q], [Param(true), Param(false)]);
    assert p + [o] == [Rot("Rotation", [a]), Rot("Rotation", [q]), Rot("Rotation", [c]), Op("Beamsplitter", [a, q], [Param(true), Param(false)])];
    ParInfoSnoc(p, o);
    assert seq(|o.params|, t requires 0 <= t < |o.params| => ParEntry(|p|, o.params[t].trainable)) == [ParEntry(3, true), ParEntry(3, false)];
  }

  lemma ParamInfoUpTo5(a: Wire, q: Wire, c: Wire)
    ensures ParInfo([Rot("Rotation", [a]), Rot("Rotation", [q]), Rot("Rotation", [c]), Op("Beamsplitter", [a, q], [Param(true), Param(false)]), Op("Rotation", [a], [Param(false)])]) == [ParEntry(0, true), ParEntry(1, true), ParEntry(2, true), ParEntry(3, true), ParEntry(3, false), ParEntry(4, false)]
  {
    ParamInfoUpTo4(a, q, c);
    var p: seq<Op> := [Rot("Rotation", [a]), Rot("Rotation", [q]), Rot("Rotation", [c]), Op("Beamsplitter", [a, q], [Param(true), Param(false)])];
    var o := Op("Rotation", [a], [Param(false)]);
    assert p + [o] == [Rot("Rotation", [a]), Rot("Rotation", [q]), Rot("Rotation", [c]), Op("Beamsplitter", [a, q], [Param(true), Param(false)]), Op("Rotation", [a], [Param(false)])];
    ParInfoSnoc(p, o);
    assert seq(|o.params|, t requires 0 <= t < |o.params| => ParEntry(|p|, o.params[t].trainable)) == [ParEntry(4, false)];
  }

  lemma ParamInfoUpTo6(a: Wire, q: Wire, c: Wire)
    ensures ParInfo([Rot("Rotation", [a]), Rot("Rotation", [q]), Rot("Rotation", [c]), Op("Beamsplitter", [a, q], [Param(true), Param(false)]), Op("Rotation", [a], [Param(false)]), Rot("Rotation", [q])]) == [ParEntry(0, true), ParEntry(1, true), ParEntry(2, true), ParEntry(3, true), ParEntry(3, false), ParEntry(4, false), ParEntry(5, true)]
  {
    ParamInfoUpTo5(a, q, c);
    var p: seq<Op> := [Rot("Rotation", [a]), Rot("Rotation", [q]), Rot("Rotation", [c]), Op("Beamsplitter", [a, q], [Param(true), Param(false)]), Op("Rotation", [a], [Param(false)])];
    var o := Rot("Rotation", [q]);
    assert p + [o] == [Rot("Rotation", [a]), Rot("Rotation", [q]), Rot("Rotation", [c]), Op("Beamsplitter", [a, q], [Param(true), Param(false)]), Op("Rotation", [a], [Param(false)]), Rot("Rotation", [q])];
    ParInfoSnoc(p, o);
    assert seq(|o.params|, t requires 0 <= t < |o.params| => ParEntry(|p|, o.params[t].trainable)) == [ParEntry(5, true)];
  }

  lemma ParamInfoUpTo7(a: Wire, q: Wire, c: Wire)
    ensures ParInfo([Rot("Rotation", [a]), Rot("Rotation", [q]), Rot("Rotation", [c]), Op("Beamsplitter", [a, q], [Param(true), Param(false)]), Op("Rotation", [a], [Param(false)]), Rot("Rotation", [q]), Rot("Rotation", [c])]) == [ParEntry(0, true), ParEntry(1, true), ParEntry(2, true), ParEntry(3, true), ParEntry(3, false), ParEntry(4, false), ParEntry(5, true), ParEntry(6, true)]
  {
    ParamInfoUpTo6(a, q, c);
    var p: seq<Op> := [Rot("Rotation", [a]), Rot("Rotation", [q]), Rot("Rotation", [c]), Op("Beamsplitter", [a, q], [Param(true), Param(false)]), Op("Rotation", [a], [Param(false)]), Rot("Rotation", [q])];
    var o := Rot("Rotation", [c]);
    assert p + [o] == [Rot("Rotation", [a]), Rot("Rotation", [q]), Rot("Rotation", [c]), Op("Beamsplitter", [a, q], [Param(true), Param(false)]), Op("Rotation", [a], [Param(false)]), Rot("Rotation", [q]), Rot("Rotation", [c])];
    ParInfoSnoc(p, o);
    assert seq(|o.params|, t requires 0 <= t < |o.params| => ParEntry(|p|, o.params[t].trainable)) == [ParEntry(6, true)];
  }

  lemma ParamInfoUpTo8(a: Wire, q: Wire, c: Wire)
    ensures ParInfo([Rot("Rotation", [a]), Rot("Rotation", [q]), Rot("Rotation", [c]), Op("Beamsplitter", [a, q], [Param(true), Param(false)]), Op("Rotation", [a], [Param(false)]), Rot("Rotation", [q]), Rot("Rotation", [c]), Plain("NumberOperator", [a])]) == [ParEntry(0, true), ParEntry(1, true), ParEntry(2, true), ParEntry(3, true), ParEntry(3, false), ParEntry(4, false), ParEntry(5, true), ParEntry(6, true)]
  {
    ParamInfoUpTo7(a, q, c);
    var p: seq<Op> := [Rot("Rotation", [a]), Rot("Rotation", [q]), Rot("Rotation", [c]), Op("Beamsplitter", [a, q], [Param(true), Param(false)]), Op("Rotation", [a], [Param(false)]), Rot("Rotation", [q]), Rot("Rotation", [c])];
    var o := Plain("NumberOperator", [a]);
    assert p + [o] == [Rot("Rotation", [a]), Rot("Rotation", [q]), Rot("Rotation", [c]), Op("Beamsplitter", [a, q], [Param(true), Param(false)]), Op("Rotation", [a], [Param(false)]), Rot("Rotation", [q]), Rot("Rotation", [c]), Plain("NumberOperator", [a])];
    ParInfoSnoc(p, o);
    assert o.params == [];
  }

  lemma ParamInfoUpTo9(a: Wire, q: Wire, c: Wire)
    ensures ParInfo([Rot("Rotation", [a]), Rot("Rotation", [q]), Rot("Rotation", [c]), Op("Beamsplitter", [a, q], [Param(true), Param(false)]), Op("Rotation", [a], [Param(false)]), Rot("Rotation", [q]), Rot("Rotation", [c]), Plain("NumberOperator", [a]), Plain("NumberOperator", [q])]) == [ParEntry(0, true), ParEntry(1, true), ParEntry(2, true), ParEntry(3, true), ParEntry(3, false), ParEntry(4, false), ParEntry(5, true), ParEntry(6, true)]
  {
    ParamInfoUpTo8(a, q, c);
    var p: seq<Op> := [Rot("Rotation", [a]), Rot("Rotation", [q]), Rot("Rotation", [c]), Op("Beamsplitter", [a, q], [Param(true), Param(false)]), Op("Rotation", [a], [Param(false)]), Rot("Rotation", [q]), Rot("Rotation", [c]), Plain("NumberOperator", [a])];
    var o := Plain("NumberOperator", [q]);
    assert p + [o] == [Rot("Rotation", [a]), Rot("Rotation", [q]), Rot("Rotation", [c]), Op("Beamsplitter", [a, q], [Param(true), Param(false)]), Op("Rotation", [a], [Param(false)]), Rot("Rotation", [q]), Rot("Rotation", [c]), Plain("NumberOperator", [a]), Plain("NumberOperator", [q])];
    ParInfoSnoc(p, o);
    assert o.params == [];
  }

  lemma ParamInfoUpTo10(a: Wire, q: Wire, c: Wire)
    ensures ParInfo([Rot("Rotation", [a]), Rot("Rotation", [q]), Rot("Rotation", [c]), Op("Beamsplitter", [a, q], [Param(true), Param(false)]), Op("Rotation", [a], [Param(false)]), Rot("Rotation", [q]), Rot("Rotation", [c]), Plain("NumberOperator", [a]), Plain("NumberOperator", [q]), Plain("NumberOperator", [c])]) == [ParEntry(0, true), ParEntry(1, true), ParEntry(2, true), ParEntry(3, true), ParEntry(3, false), ParEntry(4, false), ParEntry(5, true), ParEntry(6, true)]
  {
    ParamInfoUpTo9(a, q, c);
    var p: seq<Op> := [Rot("Rotation", [a]), Rot("Rotation", [q]), Rot("Rotation", [c]), Op("Beamsplitter", [a, q], [Param(true), Param(false)]), Op("Rotation", [a], [Param(false)]), Rot("Rotation", [q]), Rot("Rotation", [c]), Plain("NumberOperator", [a]), Plain("NumberOperator", [q])];
    var o := Plain("NumberOperator", [c]);
    assert p + [o] == [Rot("Rotation", [a]), Rot("Rotation", [q]), Rot("Rotation", [c]), Op("Beamsplitter", [a, q], [Param(true), Param(false)]), Op("Rotation", [a], [Param(false)]), Rot("Rotation", [q]), Rot("Rotation", [c]), Plain("NumberOperator", [a]), Plain("NumberOperator", [q]), Plain("NumberOperator", [c])];
    ParInfoSnoc(p, o);
    assert o.params == [];
  }

  lemma ParamInfoOf(a: Wire, q: Wire, c: Wire)
    ensures ParInfo(ParamQueue(a, q, c)) == ParamInfo()
  {
    ParamInfoUpTo10(a, q, c);
  }

  lemma LayersOfStep(E: set<Edge>, n: nat, info: seq<ParEntry>, k: nat)
    requires k < |info|
    ensures LayersOf(E, n, info[..k + 1]) ==
      if info[k].trainable then AddParam(E, n, LayersOf(E, n, info[..k]), k, info[k].op)
      else LayersOf(E, n, info[..k])
  {
    assert info[..k + 1][..k] == info[..k];
  }

  lemma ParamLayersUpTo1(E: set<Edge>, info: seq<ParEntry>)
    requires E == ParamEdges() && info == ParamInfo()
    ensures LayersOf(E, 10, info[..1]) == [Layer([0], [0])]
  {
    LayersOfStep(E, 10, info, 0);
    assert info[0] == ParEntry(0, true);
    assert info[..0] == [];
  }

  lemma ParamLayersUpTo2(E: set<Edge>, info: seq<ParEntry>)
    requires E == ParamEdges() && info == ParamInfo()
    ensures LayersOf(E, 10, info[..2]) == [Layer([0, 1], [0, 1])]
  {
    ParamLayersUpTo1(E, info);
    LayersOfStep(E, 10, info, 1);
    assert info[1] == ParEntry(1, true);
    ParamUpstream1(E, {1});
    assert Ancestors(E, 10, {1}) == {};
    assert !DependsOnLayer(E, 10, Layer([0], [0]), 1);
    var ls := [Layer([0], [0])];
    assert [0] + [1] == [0, 1] && [0] + [1] == [0, 1];
    assert ls[..|ls| - 1] == ls[..0];
    assert ls[..|ls| - 1] + [Layer(ls[|ls| - 1].ops + [1], ls[|ls| - 1].paramInds + [1])] == [Layer([0, 1], [0, 1])];
    assert AddParam(E, 10, ls, 1, 1) == [Layer([0, 1], [0, 1])];
  }

  lemma ParamLayersUpTo3(E: set<Edge>, info: seq<ParEntry>)
    requires E == ParamEdges() && info == ParamInfo()
    ensures LayersOf(E, 10, info[..3]) == [Layer([0, 1, 2], [0, 1, 2])]
  {
    ParamLayersUpTo2(E, info);
    LayersOfStep(E, 10, info, 2);
    assert info[2] == ParEntry(2, true);
    ParamUpstream2(E, {2});
    assert Ancestors(E, 10, {2}) == {};
    assert !DependsOnLayer(E, 10, Layer([0, 1], [0, 1]), 2);
    var ls := [Layer([0, 1], [0, 1])];
    assert [0, 1] + [2] == [0, 1, 2] && [0, 1] + [2] == [0, 1, 2];
    assert ls[..|ls| - 1] == ls[..0];
    assert ls[..|ls| - 1] + [Layer(ls[|ls| - 1].ops + [2], ls[|ls| - 1].paramInds + [2])] == [Layer([0, 1, 2], [0, 1, 2])];
    assert AddParam(E, 10, ls, 2, 2) == [Layer([0, 1, 2], [0, 1, 2])];
  }

  lemma ParamLayersUpTo4(E: set<Edge>, info: seq<ParEntry>)
    requires E == ParamEdges() && info == ParamInfo()
    ensures LayersOf(E, 10, info[..4]) == [Layer([0, 1, 2], [0, 1, 2]), Layer([3], [3])]
  {
    ParamLayersUpTo3(E, info);
    LayersOfStep(E, 10, info, 3);
    assert info[3] == ParEntry(3, true);
    ParamUpstream3(E, {3});
    assert Ancestors(E, 10, {3}) == {0, 1};
    assert 0 in Ancestors(E, 10, {3});
    assert DependsOnLayer(E, 10, Layer([0, 1, 2], [0, 1, 2]), 3);
  }

  lemma ParamLayersUpTo5(E: set<Edge>, info: seq<ParEntry>)
    requires E == ParamEdges() && info == ParamInfo()
    ensures LayersOf(E, 10, info[..5]) == [Layer([0, 1, 2], [0, 1, 2]), Layer([3], [3])]
  {
    ParamLayersUpTo4(E, info);
    LayersOfStep(E, 10, info, 4);
    assert info[4] == ParEntry(3, false);

  }

  lemma ParamLayersUpTo6(E: set<Edge>, info: seq<ParEntry>)
    requires E == ParamEdges() && info == ParamInfo()
    ensures LayersOf(E, 10, info[..6]) == [Layer([0, 1, 2], [0, 1, 2]), Layer([3], [3])]
  {
    ParamLayersUpTo5(E, info);
    LayersOfStep(E, 10, info, 5);
    assert info[5] == ParEntry(4, false);

  }

  lemma ParamLayersUpTo7(E: set<Edge>, info: seq<ParEntry>)
    requires E == ParamEdges() && info == ParamInfo()
    ensures LayersOf(E, 10, info[..7]) == [Layer([0, 1, 2], [0, 1, 2]), Layer([3], [3]), Layer([5], [6])]
  {
    ParamLayersUpTo6(E, info);
    LayersOfStep(E, 10, info, 6);
    assert info[6] == ParEntry(5, true);
    ParamUpstream5(E, {5});
    assert Ancestors(E, 10, {5}) == {0, 1, 3};
    assert 3 in Ancestors(E, 10, {5});
    assert DependsOnLayer(E, 10, Layer([3], [3]), 5);
  }

  lemma ParamLayersUpTo8(E: set<Edge>, info: seq<ParEntry>)
    requires E == ParamEdges() && info == ParamInfo()
    ensures LayersOf(E, 10, info[..8]) == [Layer([0, 1, 2], [0, 1, 2]), Layer([3], [3]), Layer([5, 6], [6, 7])]
  {
    ParamLayersUpTo7(E, info);
    LayersOfStep(E, 10, info, 7);
    assert info[7] == ParEntry(6, true);
    ParamUpstream6(E, {6});
    assert Ancestors(E, 10, {6}) == {2};
    assert !DependsOnLayer(E, 10, Layer([5], [6]), 6);
    var ls := [Layer([0, 1, 2], [0, 1, 2]), Layer([3], [3]), Layer([5], [6])];
    assert [5] + [6] == [5, 6] && [6] + [7] == [6, 7];
    assert ls[..|ls| - 1] == ls[..2];
    assert ls[..|ls| - 1] + [Layer(ls[|ls| - 1].ops + [6], ls[|ls| - 1].paramInds + [7])] == [Layer([0, 1, 2], [0, 1, 2]), Layer([3], [3]), Layer([5, 6], [6, 7])];
    assert AddParam(E, 10, ls, 7, 6) == [Layer([0, 1, 2], [0, 1, 2]), Layer([3], [3]), Layer([5, 6], [6, 7])];
  }

  lemma ParamLayers(E: set<Edge>, info: seq<ParEntry>)
    requires E == ParamEdges() && info == ParamInfo()
    ensures LayersOf(E, 10, info) == [Layer([0, 1, 2], [0, 1, 2]), Layer([3], [3]), Layer([5, 6], [6, 7])]
  {
    ParamLayersUpTo8(E, info);
    assert info[..8] == info;
  }

  /** The ancestors and descendants of layer 0, read off its two sweeps. */
  lemma Surroundings0(E: set<Edge>, S: set<nat>)
    requires S == {0, 1, 2} && Upstream(E, 10, S, 0) == {0, 1, 2} && Downstream(E, S, 10) == {0, 1, 2, 3, 4, 5, 6, 7, 8, 9}
    ensures Ancestors(E, 10, S) == {} && Descendants(E, 10, S) == {3, 4, 5, 6, 7, 8, 9}
  {
  }

  lemma ParamSurroundings0(E: set<Edge>)
    requires E == ParamEdges()
    ensures Ancestors(E, 10, OpSet([0, 1, 2])) == {}
    ensures Descendants(E, 10, OpSet([0, 1, 2])) == {3, 4, 5, 6, 7, 8, 9}
  {
    var S := OpSet([0, 1, 2]);
    assert S == {0, 1, 2};
    ParamUpstream0_1_2(E, S);
    ParamDownstream0_1_2(E, S);
    Surroundings0(E, S);
  }

  /** The ancestors and descendants of layer 1, read off its two sweeps. */
  lemma Surroundings1(E: set<Edge>, S: set<nat>)
    requires S == {3} && Upstream(E, 10, S, 0) == {0, 1, 3} && Downstream(E, S, 10) == {3, 4, 5, 7, 8}
    ensures Ancestors(E, 10, S) == {0, 1} && Descendants(E, 10, S) == {4, 5, 7, 8}
  {
  }

  lemma ParamSurroundings1(E: set<Edge>)
    requires E == ParamEdges()
    ensures Ancestors(E, 10, OpSet([3])) == {0, 1}
    ensures Descendants(E, 10, OpSet([3])) == {4, 5, 7, 8}
  {
    var S := OpSet([3]);
    assert S == {3};
    ParamUpstream3(E, S);
    ParamDownstream3(E, S);
    Surroundings1(E, S);
  }

  /** The ancestors and descendants of layer 2, read off its two sweeps. */
  lemma Surroundings2(E: set<Edge>, S: set<nat>)
    requires S == {5, 6} && Upstream(E, 10, S, 0) == {0, 1, 2, 3, 5, 6} && Downstream(E, S, 10) == {5, 6, 8, 9}
    ensures Ancestors(E, 10, S) == {0, 1, 2, 3} && Descendants(E, 10, S) == {8, 9}
  {
  }

  lemma ParamSurroundings2(E: set<Edge>)
    requires E == ParamEdges()
    ensures Ancestors(E, 10, OpSet([5, 6])) == {0, 1, 2, 3}
    ensures Descendants(E, 10, OpSet([5, 6])) == {8, 9}
  {
    var S := OpSet([5, 6]);
    assert S == {5, 6};
    ParamUpstream5_6(E, S);
    ParamDownstream5_6(E, S);
    Surroundings2(E, S);
  }

  /** The three views of the layer circuit: what precedes and what follows
      each layer. */
  lemma ParamViews(E: set<Edge>, info: seq<ParEntry>)
    requires LayersOf(E, 10, info) == [Layer([0, 1, 2], [0, 1, 2]), Layer([3], [3]), Layer([5, 6], [6, 7])]
    requires Ancestors(E, 10, OpSet([0, 1, 2])) == {} && Descendants(E, 10, OpSet([0, 1, 2])) == {3, 4, 5, 6, 7, 8, 9}
    requires Ancestors(E, 10, OpSet([3])) == {0, 1} && Descendants(E, 10, OpSet([3])) == {4, 5, 7, 8}
    requires Ancestors(E, 10, OpSet([5, 6])) == {0, 1, 2, 3} && Descendants(E, 10, OpSet([5, 6])) == {8, 9}
    ensures IterateLayers(E, 10, info) == [
      LayerView({}, [0, 1, 2], [0, 1, 2], {3, 4, 5, 6, 7, 8, 9}),
      LayerView({0, 1}, [3], [3], {4, 5, 7, 8}),
      LayerView({0, 1, 2, 3}, [5, 6], [6, 7], {8, 9})]
  {
    var r := IterateLayers(E, 10, info);
    assert r[0] == LayerView({}, [0, 1, 2], [0, 1, 2], {3, 4, 5, 6, 7, 8, 9});
    assert r[1] == LayerView({0, 1}, [3], [3], {4, 5, 7, 8});
    assert r[2] == LayerView({0, 1, 2, 3}, [5, 6], [6, 7], {8, 9});
  }

  /** The layer circuit, on its own wires: three layers, the constants left
      out and the flattened indices counting them. */
  lemma ParametrizedLayersExample()
    ensures ParInfo(ParamCircuit()) == ParamInfo()
    ensures LayersOf(Edges(Footprint(ParamCircuit())), 10, ParInfo(ParamCircuit())) ==
      [Layer([0, 1, 2], [0, 1, 2]), Layer([3], [3]), Layer([5, 6], [6, 7])]
    ensures IterateLayers(Edges(Footprint(ParamCircuit())), 10, ParInfo(ParamCircuit())) == [
      LayerView({}, [0, 1, 2], [0, 1, 2], {3, 4, 5, 6, 7, 8, 9}),
      LayerView({0, 1}, [3], [3], {4, 5, 7, 8}),
      LayerView({0, 1, 2, 3}, [5, 6], [6, 7], {8, 9})]
  {
    var a, q, c := StrWire("a"), StrWire("q1"), IntWire(3);
    ParamEdgesOf(a, q, c);
    ParamInfoOf(a, q, c);
    ParamLayers(ParamEdges(), ParamInfo());
    ParamSurroundings0(ParamEdges());
    ParamSurroundings1(ParamEdges());
    ParamSurroundings2(ParamEdges());
    ParamViews(ParamEdges(), ParamInfo());
  }
}
