# Circuit graph and Fourier helpers of PennyLane, in Dafny

This project models two parts of PennyLane.

**The circuit graph.** A quantum circuit is a queue made of its operations followed by its observables. The graph has one node per queue entry, and a node is known by its position in the queue (`queue_idx`). The graph gets an edge from entry `j` to a later entry `i` when the two act on a common wire and nothing between them touches that wire. These edges are built by walking the queue once while keeping, for every wire, the entry that touched it last. Each query over the graph is stated against an independent definition:

- Ancestors and descendants of a set of nodes are computed by one sweep over the queue. They are proved equal to reachability along paths of edges, with the argument nodes left out.
- The per-wire index lists are proved to hold exactly the entries acting on the wire, in queue order. Their consecutive entries are proved to be exactly the edges.
- `update_node` replaces the entry in one slot and leaves everything else as it was.
- `parametrized_layers` groups the trainable parameters into layers. Walking the flattened parameter list, a parameter joins the open layer unless that layer holds an ancestor of its operation, in which case it opens a new layer. The layers are proved to hold every trainable parameter in order and nothing else. Every layer is proved to be free of internal dependencies, and a new layer opens only on a dependency. `iterate_parametrized_layers` pairs each layer with its ancestors and descendants, and the two sets are proved disjoint and characterised by reachability.
- The reference circuits of the tests are worked through: the 9-node chained circuit (edges, ancestors and descendants, wire indices, node update) and the three-layer circuit over wires `"a"`, `"q1"`, `3`.

**The Fourier helpers** in `pennylane/fourier/utils.py`:

- `format_nvec` writes a frequency as text. A single integer is written as Python's `str`. In a vector, every non-negative entry gets a leading space and the entries are joined by single spaces. The label is proved to read back to the vector when split on whitespace and parsed, and its number of spaces is proved.
- `to_dict` turns an array of coefficients into a dictionary keyed by frequency vectors in `[-degree, degree]^n`, with `degree = shape[0] // 2 - 1`. The keys are proved to be exactly that box, in strictly increasing lexicographic order, and `(2·degree + 1)^n` in number. Each value is proved to be read at the index wrapped the way Python wraps negative indices, which is always inside the array. With an even axis length, the middle position `degree + 1` is never read.

The source of the graph-building class is not part of this model; the circuit-graph part follows what `tests/circuit_graph/test_circuit_graph.py` requires of that class. Where those tests leave the behaviour open, the model makes the choice listed under "Left out".

Modules: `Operations` (queue entries), `Dependency` (edges and wire indices), `Reachability` (ancestors and descendants), `Layers` (parametrized layers), `Circuit` (the `CircuitGraph` class), `Scenarios` (the test circuits), `FourierFormat` and `FourierDict`.

## Model

| member | source | states |
|---|---|---|
| Dependency.LastToucher | tests/circuit_graph/test_circuit_graph.py:110-113 | the result is the latest slot acting on the wire; it is absent exactly when no slot does |
| Dependency.Edges | tests/circuit_graph/test_circuit_graph.py:90-113 | every edge goes from an earlier slot to a later one inside the queue, so the graph is acyclic |
| Dependency.EdgesAreAdjacentTouches | tests/circuit_graph/test_circuit_graph.py:110-113 | `(j, i)` is an edge if and only if `j < i` share a wire that no slot between them touches |
| Dependency.WireIndices | tests/circuit_graph/test_circuit_graph.py:147-156 | the list holds exactly the slots acting on the wire, in strictly increasing order |
| Dependency.WireIndicesUnique | tests/circuit_graph/test_circuit_graph.py:147-156 | any strictly increasing list holding exactly the slots that act on the wire is the wire's index list |
| Dependency.WireNeighboursAreEdges | tests/circuit_graph/test_circuit_graph.py:110-113 | `(j, i)` is an edge if and only if `j` and `i` are consecutive in the index list of some wire |
| Dependency.AdjacentIsConsecutive | tests/circuit_graph/test_circuit_graph.py:147-156 | two touches of a wire with no touch between them are neighbours in its index list |
| Dependency.ConsecutiveIsAdjacent | tests/circuit_graph/test_circuit_graph.py:147-156 | neighbours in a wire's index list have no touch of that wire between them |
| Reachability.Ancestors | tests/circuit_graph/test_circuit_graph.py:115-125 | the ancestors exclude the argument nodes and are nodes of the graph |
| Reachability.Descendants | tests/circuit_graph/test_circuit_graph.py:128-129 | the descendants exclude the argument nodes and are nodes of the graph |
| Reachability.ReachesForward | tests/circuit_graph/test_circuit_graph.py:110-113 | along forward edges a path only climbs, so no node reaches itself |
| Reachability.ReachesTrans | tests/circuit_graph/test_circuit_graph.py:115-129 | reachability is transitive |
| Reachability.AncestorsAreReachability | tests/circuit_graph/test_circuit_graph.py:115-126 | `k` is an ancestor of `S` if and only if `k` is outside `S` and has a path into `S` |
| Reachability.DescendantsAreReachability | tests/circuit_graph/test_circuit_graph.py:128-129 | `k` is a descendant of `S` if and only if `k` is outside `S` and some node of `S` has a path to it |
| Reachability.AncestorsExact | tests/circuit_graph/test_circuit_graph.py:115-126 | the ancestor set equals the set of nodes outside `S` with a path into `S` |
| Reachability.DescendantsExact | tests/circuit_graph/test_circuit_graph.py:128-129 | the descendant set equals the set of nodes outside `S` reached from `S` |
| Layers.ParInfo | tests/circuit_graph/test_circuit_graph.py:159-175 | the flattened parameter list has one entry per parameter, trainable or not, with owners in queue order |
| Layers.ParInfoAt | tests/circuit_graph/test_circuit_graph.py:170-175 | parameter `t` of entry `k` sits at flat index (parameters of the earlier entries) `+ t` |
| Layers.LayersCoverTrainable | tests/circuit_graph/test_circuit_graph.py:159-175 | every layer is non-empty with one operation per parameter index, and the layers, read in order, list exactly the trainable parameters |
| Layers.LayersIndependent | tests/circuit_graph/test_circuit_graph.py:159-175 | no operation of a layer is an ancestor of another operation of the same layer |
| Layers.LayersBreakOnDependency | tests/circuit_graph/test_circuit_graph.py:170-175 | each layer after the first starts with an operation that depends on the layer before it |
| Layers.IterateLayers | tests/circuit_graph/test_circuit_graph.py:178-202 | one view per layer, carrying that layer's operations and parameter indices |
| Layers.IterateLayersSeparated | tests/circuit_graph/test_circuit_graph.py:178-202 | a view's ancestors are exactly the nodes with a path into the layer, its descendants those reached from it, and the two are disjoint |
| Layers.IterateLayersSeparatedAll | tests/circuit_graph/test_circuit_graph.py:178-202 | every view keeps its ancestors and descendants disjoint |
| Circuit.LinkEntry | tests/circuit_graph/test_circuit_graph.py:90-113 | linking one more entry to the last toucher of each of its wires yields the edges of the longer queue and the updated last-toucher map |
| Circuit.BuildEdges | tests/circuit_graph/test_circuit_graph.py:90-113 | one walk with a last-toucher map computes exactly the dependency edges |
| Circuit.CircuitGraph.constructor | tests/circuit_graph/test_circuit_graph.py:50-54 | the graph keeps the operations and observables as given and holds the dependency edges of their queue |
| Circuit.CircuitGraph.NodeCount | tests/circuit_graph/test_circuit_graph.py:93-107 | the graph has one node per operation and observable, and every edge joins two of those nodes, from the earlier slot to the later |
| Circuit.CircuitGraph.UpdateNode | tests/circuit_graph/test_circuit_graph.py:131-137 | given a replacement on the same wires as the entry it replaces, the entry in the slot is replaced, every other entry stays, the graph stays valid (each slot's wires are those of its entry and the edges are those of the queue), and the call reports whether the slot exists |
| Circuit.CircuitGraph.Ancestors | tests/circuit_graph/test_circuit_graph.py:115-126 | a node is returned if and only if it is outside the argument set and has a path into it |
| Circuit.CircuitGraph.Descendants | tests/circuit_graph/test_circuit_graph.py:128-129 | a node is returned if and only if it is outside the argument set and is reached from it |
| Circuit.CircuitGraph.WireIndices | tests/circuit_graph/test_circuit_graph.py:147-156 | the slots acting on the wire, all of them, in strictly increasing order |
| Circuit.CircuitGraph.ParametrizedLayers | tests/circuit_graph/test_circuit_graph.py:159-175 | the layers list exactly the trainable parameters in order, no layer holds an internal dependency, and each layer after the first opens on an operation with an ancestor in the layer before it |
| Circuit.CircuitGraph.IterateParametrizedLayers | tests/circuit_graph/test_circuit_graph.py:178-202 | one view per layer with the layer's operations and indices; its ancestors are exactly the slots outside the layer with a path into it, its descendants those reached from it, and the two are disjoint |
| Scenarios.NoDependenceExample | tests/circuit_graph/test_circuit_graph.py:80-88 | two one-wire gates on different wires give two nodes and no edge |
| Scenarios.ChainEdgesExample | tests/circuit_graph/test_circuit_graph.py:90-113 | the chained circuit has nine nodes and exactly the nine listed edges |
| Scenarios.ChainAncestorsExample | tests/circuit_graph/test_circuit_graph.py:115-129 | in the graph built from the chained circuit, node 6 has ancestors 0, 1, 3 and the single descendant 8 |
| Scenarios.ChainWireIndicesExample | tests/circuit_graph/test_circuit_graph.py:147-156 | wires 0, 1, 2 are touched by slots `[0,3,5,7]`, `[1,3,6,8]`, `[2,4,5,8]` |
| Scenarios.UpdateNodeExample | tests/circuit_graph/test_circuit_graph.py:131-137 | after replacing operation 0 by a different gate on wire 0, operation 0 is the new gate and every other operation and observable is unchanged |
| Scenarios.ParamInfoOf | tests/circuit_graph/test_circuit_graph.py:57-75 | the layer circuit has eight parameters, the two constants at flat indices 4 and 5 |
| Scenarios.ParamEdgesOf | tests/circuit_graph/test_circuit_graph.py:57-75 | the dependency edges of the layer circuit |
| Scenarios.ParamLayers | tests/circuit_graph/test_circuit_graph.py:168-175 | the layers are `[0,1,2]/[0,1,2]`, `[3]/[3]` and `[5,6]/[6,7]` |
| Scenarios.ParametrizedLayersExample | tests/circuit_graph/test_circuit_graph.py:159-202 | the circuit on wires `"a"`, `"q1"`, `3` has those three layers and those three views |
| FourierFormat.NatString | pennylane/fourier/utils.py:21-22 | decimal digits only, never empty, and a leading zero only for zero itself |
| FourierFormat.NatStringRoundTrip | pennylane/fourier/utils.py:21-22 | reading the digits back gives the number |
| FourierFormat.IntStringRoundTrip | pennylane/fourier/utils.py:21-22 | an integer's text is in `str` form (no leading zero, no `-0`), has no space, and `int(str(n)) == n` |
| FourierFormat.FormatNVec | pennylane/fourier/utils.py:18-26 | a scalar label is an integer in `str` form with no space that parses back to the scalar; the empty vector's label is empty; a non-empty vector label splits at its single spaces into exactly `Pieces`: an empty piece (the leading space) before each non-negative entry, then the entry's `str` form; its whitespace tokens are `str`-form integers that parse back to the vector; a `k`-entry vector label has `k - 1` separators plus one leading space per non-negative entry, and a scalar label has none |
| FourierFormat.SplitConcat | pennylane/fourier/utils.py:26 | splitting at the joining space splits the two sides independently |
| FourierFormat.CanonicalUnique | pennylane/fourier/utils.py:21-22 | a text in `str` form is the `str` of the integer it parses to, so the scalar label is fixed by its value |
| FourierFormat.VectorPieces | pennylane/fourier/utils.py:24-26 | a non-empty vector label splits at single spaces into an empty piece before each non-negative entry followed by the entry's `str` form |
| FourierFormat.SplitInjective | pennylane/fourier/utils.py:24-26 | a text is determined by its pieces (joining them at single spaces gives it back), so the vector label is fixed by `Pieces` |
| FourierFormat.VectorTokens | pennylane/fourier/utils.py:24-26 | the whitespace tokens of a vector label are the entries' decimal strings, in order |
| FourierFormat.FormatExample | pennylane/fourier/utils.py:18-26 | `(1, -2, 0)` is written `" 1 -2  0"`, while `-3` and `12` are written without a leading space |
| FourierDict.Range | pennylane/fourier/utils.py:36 | `range(lo, hi)` holds `lo, lo+1, …, hi-1` and is empty when `hi <= lo` |
| FourierDict.ToDict | pennylane/fourier/utils.py:29-40 | the call fails exactly for a zero-axis array, which has no first axis |
| FourierDict.ProductMembers | pennylane/fourier/utils.py:37-38 | the product holds exactly the length-`n` vectors over the range |
| FourierDict.ProductCount | pennylane/fourier/utils.py:37-38 | the product of `n` copies of `r` has `|r|^n` vectors |
| FourierDict.ProductIncreasing | pennylane/fourier/utils.py:37-38 | over an increasing range, the product comes in strictly increasing lexicographic order |
| FourierDict.WrapInAxis | pennylane/fourier/utils.py:40 | a frequency in `[-degree, degree]` reads a position on the axis congruent to it |
| FourierDict.WrapSkipsMiddle | pennylane/fourier/utils.py:31-40 | with an even axis length, the positions read are exactly those other than `degree + 1` |
| FourierDict.ToDictKeys | pennylane/fourier/utils.py:31-40 | a vector is a key if and only if it has one component per axis, each in `[-degree, degree]` |
| FourierDict.ToDictCount | pennylane/fourier/utils.py:31-40 | there are `(2·degree + 1)^n` keys, and none when the first axis is shorter than 2 |
| FourierDict.ToDictValues | pennylane/fourier/utils.py:40 | each value is the coefficient at the key's wrapped index, which lies inside the array |
| FourierDict.ToDictOrdered | pennylane/fourier/utils.py:38-40 | keys come in strictly increasing lexicographic order, so no two are equal |
| FourierDict.OneInputExample | pennylane/fourier/utils.py:29-40 | four coefficients on one axis give keys `-1, 0, 1` reading positions 3, 0, 1 |

## Left out

- `extract_evals` (pennylane/fourier/utils.py:43-57) is left out. It computes eigenvalues with floating-point linear algebra inside NumPy.
- Behaviour of `CircuitGraph` that the tests do not assert is not modelled. Neither are operations' gate semantics, parameter values, devices, or the QNode and tape that `test_layers` uses to produce the queue. The model takes the queue directly.
- Each entry is reduced to its name, its wires and one trainability flag per parameter.
- The graph library object is not modelled. Nodes are slot numbers and edges are pairs of slot numbers.
- Circuit.CircuitGraph.UpdateNode: the node to replace is named by its slot, where the source names it by the old operation object (compared by identity). Operations are values without identity, so the replacement gate in `Scenarios.UpdateNodeExample` is one that differs from the gate it replaces. The node's wires and edges are kept as built, so the method requires the replacement to act on the same wires as the entry it replaces, as in the test.
- Circuit.CircuitGraph.constructor: it requires each entry's wires to be distinct and declared in the circuit's wire list. The `Wires` class and its error paths are not modelled.
- Layers.LayersOf: layers open only when a trainable parameter arrives, so a queue without trainable parameters has no layers. The tests do not show this case.
- Layers.IterateLayers: a view's ancestors and descendants are sets of slots, not lists in queue order. The tests compare them as sets.
- FourierFormat.FormatNVec: the integer branch covers Python `int` only. Booleans, which Python also counts as `int`, and NumPy integer scalars passed on their own are not modelled.
- FourierDict.ToDict: only arrays whose axes all have the length of the first axis are modelled, since the source reads only `shape[0]`. The dictionary is modelled as its list of (key, value) pairs in insertion order.
