/** The entries of a circuit's queue, as the dependency graph sees them.
    Gate semantics and numeric parameter values play no part in the graph:
    an operation or observable is a name, the wires it acts on and one
    trainability flag per parameter. */
module Operations {

  datatype Option<T> = None | Some(value: T)

  /** A wire label; circuits mix integer and string labels (`["a", "q1", 3]`). */
  datatype Wire = IntWire(n: int) | StrWire(s: string)

  /** One gate parameter; only whether it is trainable matters to the graph. */
  datatype Param = Param(trainable: bool)

  /** An operation or an observable of the queue. */
  datatype Op = Op(name: string, wires: seq<Wire>, params: seq<Param>)

  /** A wire list names each wire at most once. */
  predicate DistinctWires(ws: seq<Wire>) {
    forall i, j :: 0 <= i < j < |ws| ==> ws[i] != ws[j]
  }

  /** The wires each queue slot acts on, in queue order. */
  function Footprint(queue: seq<Op>): (fp: seq<seq<Wire>>)
    ensures |fp| == |queue|
    ensures forall k :: 0 <= k < |queue| ==> fp[k] == queue[k].wires
  {
    seq(|queue|, k requires 0 <= k < |queue| => queue[k].wires)
  }

  /** Replacing an entry by one on the same wires leaves the footprint as it was. */
  lemma FootprintUpdate(queue: seq<Op>, i: nat, op: Op)
    requires i < |queue| && op.wires == queue[i].wires
    ensures Footprint(queue[i := op]) == Footprint(queue)
  {
    var a, b := Footprint(queue[i := op]), Footprint(queue);
    assert forall k :: 0 <= k < |a| ==> a[k] == b[k];
  }
}
