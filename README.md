# Dataflow node

A model of the dataflow-graph node of `src/main/kotlin/dataflow/Node.kt`.
A `Node<A>` has a fixed number of input ports and output ports and a fixed number of parameter slots.
A port holds a reference to the partner node, or null.
A parameter slot holds a float, or null, and starts at `0f`.
The node also stores a computation `operation: (List<A>) -> A`, which the node itself never calls.
Nodes are wired with `connectLeft` and `connectRight`, each writing one slot on each of two nodes.
They are torn down with `dispose`, which nulls every slot of the node.

The Dafny module `Dataflow` (`node.dfy`) has two layers:

- Value-level specification functions state what each operation does to the arrays it touches.
  `Store` is the JVM's checked array store.
  `ConnectLeftEffect` and `ConnectRightEffect` run two stores in the source's order.
  `Initial` and `Disposed` give a node's whole state after construction and after disposal.
  Lemmas relate these functions to one another.
- `class Node<A>` keeps the three arrays as `const` fields, mirroring Kotlin's `val`.
  So the arrays are never replaced and their lengths never change.
  Its methods update the arrays in place and are proved to leave exactly the state the specification functions give.
  Their `modifies` clauses name only the arrays they write, so every other array is unchanged.
  In particular the node that used to occupy an overwritten port keeps its own reverse reference.
  Remote nodes that referred to a disposed node keep referring to it.

Kotlin's field `in` is a Dafny keyword, so the input ports are called `inputs` and the output ports `outputs`.
An out-of-range index throws `ArrayIndexOutOfBoundsException` in the source.
The model returns it as `Some(IndexOutOfBounds(index, length))` together with whatever the call had already written before the failing store.
Neither connect call is all-or-nothing.
A `Float` parameter is modelled as its 32-bit pattern (`Float32`), and `0f` is the all-zero pattern.
The node performs no arithmetic on parameters.

`ConnectLeft` requires `inputs != source.outputs`, and `ConnectRight` requires the mirror of that.
This says the two arrays written are distinct objects.
In the source every node allocates its own arrays and never shares or replaces them.
The constructor here ensures `fresh` arrays and `inputs != outputs`, so any two constructed nodes meet the requirement, a node wired to itself included.
`WiringScenario` shows this for two nodes.

## Model

| member | source | states |
|---|---|---|
| Dataflow.Node.constructor | src/main/kotlin/dataflow/Node.kt:8-42 | the three arrays are fresh and distinct; `inputs` has `inCapacity` slots and `outputs` has `outCapacity` slots (default 1), all null; there are `parametersCount` parameter slots, each `0f`; the operation is stored as given |
| Dataflow.Initial | src/main/kotlin/dataflow/Node.kt:32-42 | a new node's state has the given array lengths, every port null and every parameter `Some(0f)` rather than null |
| Dataflow.Store | src/main/kotlin/dataflow/Node.kt:48-49 | a checked array store succeeds iff the index is in range; on success, exactly the indexed slot changes to the value and the length is kept; otherwise it reports `IndexOutOfBounds(index, length)` |
| Dataflow.ConnectLeftEffect | src/main/kotlin/dataflow/Node.kt:47-50 | `connectLeft` succeeds iff both indices are in range; on success `in[inPort]` is the source and `source.out[outPort]` is this node; no other slot of either array changes and both lengths are kept |
| Dataflow.ConnectRightEffect | src/main/kotlin/dataflow/Node.kt:55-58 | `connectRight` succeeds iff both indices are in range; on success `out[outPort]` is the destination and `destination.in[inPort]` is this node; no other slot changes and both lengths are kept |
| Dataflow.ConnectLeftFailureOrder | src/main/kotlin/dataflow/Node.kt:48-49 | a bad `inPort` throws with nothing written; a valid `inPort` with a bad `outPort` throws after `in[inPort]` has already been overwritten |
| Dataflow.ConnectRightFailureOrder | src/main/kotlin/dataflow/Node.kt:56-57 | a bad `outPort` throws with nothing written; a valid `outPort` with a bad `inPort` throws after `out[outPort]` has already been overwritten |
| Dataflow.ConnectMirror | src/main/kotlin/dataflow/Node.kt:47-58 | with valid indices, `a.connectLeft(i, b, o)` and `b.connectRight(o, a, i)` leave the same two arrays: `in[i] := b` and `out[o] := a` |
| Dataflow.ConnectMirrorBreaksOnFault | src/main/kotlin/dataflow/Node.kt:47-58 | with a valid `inPort` and a bad `outPort`, both calls throw the same exception, but `connectLeft` has rewired the input port and `connectRight` has written nothing |
| Dataflow.ConnectLeftOverwrites | src/main/kotlin/dataflow/Node.kt:48 | an occupied input port is overwritten without any disconnect: afterwards it names the new source and no longer the previous occupant |
| Dataflow.Filled | src/main/kotlin/dataflow/Node.kt:64-66 | the contents `fill`/`forEach` leave: `n` slots, each holding the value written |
| Dataflow.Disposed | src/main/kotlin/dataflow/Node.kt:63-67 | after disposal the array lengths are unchanged and every input, output and parameter slot is null |
| Dataflow.DisposeIdempotent | src/main/kotlin/dataflow/Node.kt:63-67 | disposing a disposed node leaves the same state |
| Dataflow.DisposeForgetsHistory | src/main/kotlin/dataflow/Node.kt:63-67 | two nodes are alike after disposal iff their arrays have the same lengths, whatever they held before |
| Dataflow.DisposeOfInitial | src/main/kotlin/dataflow/Node.kt:42 | on a fresh node disposal keeps the empty ports and changes the parameters from `0f` to null, so it is a no-op only when there are no parameters |
| Dataflow.Fill | src/main/kotlin/dataflow/Node.kt:64-66 | writing the value into each cell in turn leaves the array equal to `Filled(length, value)` |
| Dataflow.Node.ConnectLeft | src/main/kotlin/dataflow/Node.kt:47-50 | the new `inputs` and `source.outputs` and the reported fault are exactly `ConnectLeftEffect` of the old contents; only those two arrays may change |
| Dataflow.Node.ConnectRight | src/main/kotlin/dataflow/Node.kt:55-58 | the new `outputs` and `destination.inputs` and the reported fault are exactly `ConnectRightEffect` of the old contents; only those two arrays may change |
| Dataflow.Node.Dispose | src/main/kotlin/dataflow/Node.kt:63-67 | the node's new state is `Disposed` of its old state; only this node's three arrays may change |
| Dataflow.RewireLeavesStalePartner | src/main/kotlin/dataflow/Node.kt:47-50 | rewiring one end of a mutual link leaves the previous upstream node's output still naming this node, a stale reverse reference |
| Dataflow.DisposeLeavesRemoteReference | src/main/kotlin/dataflow/Node.kt:63-67 | a remote node's output that named a node still names it after that node is disposed |
| Dataflow.WiringScenario | src/main/kotlin/dataflow/Node.kt:8-58 | a two-input node fed by a one-output node through `connectRight(0, sum, 0)`: `sum.in[0]` is the source, `source.out[0]` is `sum`, `sum.in[1]` stays null |

## Left out

- `src/main/kotlin/ui/components/FlowNode.kt` is not part of this model: it is rendering code with floating-point layout and hard-coded port counts.
- Parameter slots are `AtomicReference`s in the source; here each is a plain array cell. Per-slot atomicity and concurrent access are not modelled.
- Parameter values are floats; the model keeps only their bit patterns because the node never computes with them.
- `operation` is stored but never invoked by the node, so the model never applies it.
- Dataflow.Node.constructor: capacities are `nat`, so the `NegativeArraySizeException` that a negative count raises in the source is not modelled.
- Heap separation is a precondition of `ConnectLeft` and `ConnectRight`, not a class invariant. The model does not show that no code outside the node could share its arrays. Kotlin's `val` arrays are never reassigned, but they are public.
