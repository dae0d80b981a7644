/**
 * A node of a dataflow graph: fixed numbers of input ports, output ports and
 * parameter slots, wired to other nodes by reference and torn down by `Dispose`.
 *
 * The first half states, on plain values, what each operation does to the
 * arrays it touches; the class `Node` below performs it in place and proves
 * that it does exactly that.
 */
module Dataflow {
  import opened Wrappers

  /** A 32-bit float, kept as its bit pattern: nodes store parameters but never compute with them. */
  datatype Float32 = Float32(bits: bv32)

  /** `0f`, the value every parameter slot of a new node holds (+0.0 is the all-zero pattern). */
  const Zero: Float32 := Float32(0)

  /** The JVM's `ArrayIndexOutOfBoundsException`: `index` is outside `[0, length)`. */
  datatype Fault = IndexOutOfBounds(index: int, length: nat)

  /**
   * The two arrays a wiring call writes, after the call: the input ports of the
   * downstream node, the output ports of the upstream node, and the exception
   * the call threw, if it threw one.
   */
  datatype Wiring<R> = Wiring(dstIn: seq<R>, srcOut: seq<R>, fault: Option<Fault>)

  /** What one node holds: its port references and its parameter slots. */
  datatype Snapshot<A> = Snapshot(inputs: seq<Node?<A>>, outputs: seq<Node?<A>>, parameters: seq<Option<Float32>>)

  /** A checked array store `s[i] = v`: the new contents, or the exception, with `s` left as it was. */
  function Store<R>(s: seq<R>, i: int, v: R): (r: Result<seq<R>, Fault>)
    ensures r.Ok? <==> 0 <= i < |s|
    ensures r.Err? ==> r.error == IndexOutOfBounds(i, |s|)
    ensures r.Ok? ==> |r.value| == |s| && r.value[i] == v
    ensures r.Ok? ==> forall j :: 0 <= j < |s| && j != i ==> r.value[j] == s[j]
  {
    if 0 <= i < |s| then Ok(s[i := v]) else Err(IndexOutOfBounds(i, |s|))
  }

  /**
   * `dst.connectLeft(inPort, src, outPort)`: first `dst.in[inPort] = src`, then
   * `src.out[outPort] = dst`. A fault in the second store comes after the first
   * has taken effect.
   */
  function ConnectLeftEffect<R>(dstIn: seq<R>, srcOut: seq<R>, inPort: int, outPort: int, dst: R, src: R): (w: Wiring<R>)
    ensures w.fault.None? <==> 0 <= inPort < |dstIn| && 0 <= outPort < |srcOut|
    ensures |w.dstIn| == |dstIn| && |w.srcOut| == |srcOut|
    ensures w.fault.None? ==> w.dstIn[inPort] == src && w.srcOut[outPort] == dst
    ensures forall j :: 0 <= j < |dstIn| && j != inPort ==> w.dstIn[j] == dstIn[j]
    ensures forall j :: 0 <= j < |srcOut| && j != outPort ==> w.srcOut[j] == srcOut[j]
  {
    match Store(dstIn, inPort, src)
    case Err(e) => Wiring(dstIn, srcOut, Some(e))
    case Ok(dstIn') =>
      match Store(srcOut, outPort, dst)
      case Err(e) => Wiring(dstIn', srcOut, Some(e))
      case Ok(srcOut') => Wiring(dstIn', srcOut', None)
  }

  /**
   * `src.connectRight(outPort, dst, inPort)`: first `src.out[outPort] = dst`,
   * then `dst.in[inPort] = src`, the mirror order of `ConnectLeftEffect`.
   */
  function ConnectRightEffect<R>(srcOut: seq<R>, dstIn: seq<R>, outPort: int, inPort: int, src: R, dst: R): (w: Wiring<R>)
    ensures w.fault.None? <==> 0 <= outPort < |srcOut| && 0 <= inPort < |dstIn|
    ensures |w.dstIn| == |dstIn| && |w.srcOut| == |srcOut|
    ensures w.fault.None? ==> w.srcOut[outPort] == dst && w.dstIn[inPort] == src
    ensures forall j :: 0 <= j < |dstIn| && j != inPort ==> w.dstIn[j] == dstIn[j]
    ensures forall j :: 0 <= j < |srcOut| && j != outPort ==> w.srcOut[j] == srcOut[j]
  {
    match Store(srcOut, outPort, dst)
    case Err(e) => Wiring(dstIn, srcOut, Some(e))
    case Ok(srcOut') =>
      match Store(dstIn, inPort, src)
      case Err(e) => Wiring(dstIn, srcOut', Some(e))
      case Ok(dstIn') => Wiring(dstIn', srcOut', None)
  }

  /** Which exception `connectLeft` throws, and what it has already written when it does. */
  lemma ConnectLeftFailureOrder<R>(dstIn: seq<R>, srcOut: seq<R>, inPort: int, outPort: int, dst: R, src: R)
    ensures var w := ConnectLeftEffect(dstIn, srcOut, inPort, outPort, dst, src);
      && (!(0 <= inPort < |dstIn|) ==>
            w == Wiring(dstIn, srcOut, Some(IndexOutOfBounds(inPort, |dstIn|))))
      && (0 <= inPort < |dstIn| && !(0 <= outPort < |srcOut|) ==>
            w == Wiring(dstIn[inPort := src], srcOut, Some(IndexOutOfBounds(outPort, |srcOut|))))
  {
  }

  /** Which exception `connectRight` throws, and what it has already written when it does. */
  lemma ConnectRightFailureOrder<R>(srcOut: seq<R>, dstIn: seq<R>, outPort: int, inPort: int, src: R, dst: R)
    ensures var w := ConnectRightEffect(srcOut, dstIn, outPort, inPort, src, dst);
      && (!(0 <= outPort < |srcOut|) ==>
            w == Wiring(dstIn, srcOut, Some(IndexOutOfBounds(outPort, |srcOut|))))
      && (0 <= outPort < |srcOut| && !(0 <= inPort < |dstIn|) ==>
            w == Wiring(dstIn, srcOut[outPort := dst], Some(IndexOutOfBounds(inPort, |dstIn|))))
  {
  }

  /** `a.connectLeft(i, b, o)` and `b.connectRight(o, a, i)` leave the same ports when both indices are valid. */
  lemma ConnectMirror<R>(dstIn: seq<R>, srcOut: seq<R>, inPort: int, outPort: int, dst: R, src: R)
    requires 0 <= inPort < |dstIn| && 0 <= outPort < |srcOut|
    ensures ConnectLeftEffect(dstIn, srcOut, inPort, outPort, dst, src)
         == ConnectRightEffect(srcOut, dstIn, outPort, inPort, src, dst)
         == Wiring(dstIn[inPort := src], srcOut[outPort := dst], None)
  {
  }

  /**
   * Neither call is all-or-nothing, and the two are not mirror images on
   * failure: with a valid `inPort` and a bad `outPort` both throw the same
   * exception, but `connectLeft` has already rewired the input port while
   * `connectRight` has written nothing.
   */
  lemma ConnectMirrorBreaksOnFault<R>(dstIn: seq<R>, srcOut: seq<R>, inPort: int, outPort: int, dst: R, src: R)
    requires 0 <= inPort < |dstIn| && !(0 <= outPort < |srcOut|)
    requires dstIn[inPort] != src
    ensures var l := ConnectLeftEffect(dstIn, srcOut, inPort, outPort, dst, src);
            var r := ConnectRightEffect(srcOut, dstIn, outPort, inPort, src, dst);
      && l.fault == r.fault == Some(IndexOutOfBounds(outPort, |srcOut|))
      && l.dstIn != dstIn && l.dstIn[inPort] == src
      && r == Wiring(dstIn, srcOut, r.fault)
  {
    var l := ConnectLeftEffect(dstIn, srcOut, inPort, outPort, dst, src);
    assert l.dstIn[inPort] != dstIn[inPort];
  }

  /**
   * The overwritten occupant is forgotten on one side only: once a port that
   * held `previous` is rewired to another node, the port no longer names
   * `previous`, while `previous`'s own reference (an array the call does not
   * take) is left for the caller to see as stale.
   */
  lemma ConnectLeftOverwrites<R>(dstIn: seq<R>, srcOut: seq<R>, inPort: int, outPort: int, dst: R, src: R, previous: R)
    requires 0 <= inPort < |dstIn| && dstIn[inPort] == previous && previous != src
    ensures var w := ConnectLeftEffect(dstIn, srcOut, inPort, outPort, dst, src);
      w.dstIn[inPort] == src && w.dstIn[inPort] != previous
  {
  }

  /** `n` copies of `v`, written left to right as `Arrays.fill` writes them. */
  function Filled<T>(n: nat, v: T): (r: seq<T>)
    ensures |r| == n
    ensures forall i :: 0 <= i < n ==> r[i] == v
  {
    if n == 0 then [] else Filled(n - 1, v) + [v]
  }

  /** A node as its constructor leaves it: every port empty and every parameter `0f`. */
  function Initial<A>(inCapacity: nat, outCapacity: nat, parametersCount: nat): (s: Snapshot<A>)
    ensures |s.inputs| == inCapacity && |s.outputs| == outCapacity && |s.parameters| == parametersCount
    ensures forall i :: 0 <= i < inCapacity ==> s.inputs[i] == null
    ensures forall i :: 0 <= i < outCapacity ==> s.outputs[i] == null
    ensures forall i :: 0 <= i < parametersCount ==> s.parameters[i] == Some(Zero)
  {
    Snapshot(Filled(inCapacity, null), Filled(outCapacity, null), Filled(parametersCount, Some(Zero)))
  }

  /** A node after `dispose()`: same capacities, every port and every parameter slot null. */
  function Disposed<A>(s: Snapshot<A>): (d: Snapshot<A>)
    ensures |d.inputs| == |s.inputs| && |d.outputs| == |s.outputs| && |d.parameters| == |s.parameters|
    ensures forall i :: 0 <= i < |d.inputs| ==> d.inputs[i] == null
    ensures forall i :: 0 <= i < |d.outputs| ==> d.outputs[i] == null
    ensures forall i :: 0 <= i < |d.parameters| ==> d.parameters[i] == None
  {
    Snapshot(Filled(|s.inputs|, null), Filled(|s.outputs|, null), Filled(|s.parameters|, None))
  }

  /** Disposing twice leaves the state disposing once does. */
  lemma DisposeIdempotent<A>(s: Snapshot<A>)
    ensures Disposed(Disposed(s)) == Disposed(s)
  {
  }

  /**
   * The state after `dispose()` depends on the capacities alone: two nodes
   * end up alike exactly when their arrays have the same lengths, whatever
   * wiring and parameters they held.
   */
  lemma DisposeForgetsHistory<A>(s: Snapshot<A>, t: Snapshot<A>)
    ensures Disposed(s) == Disposed(t) <==>
      |s.inputs| == |t.inputs| && |s.outputs| == |t.outputs| && |s.parameters| == |t.parameters|
  {
  }

  /** A disposed fresh node differs from the fresh node only in its parameters, which go from `0f` to null. */
  lemma DisposeOfInitial<A>(inCapacity: nat, outCapacity: nat, parametersCount: nat)
    ensures var s: Snapshot<A> := Initial(inCapacity, outCapacity, parametersCount);
      && Disposed(s).inputs == s.inputs && Disposed(s).outputs == s.outputs
      && (Disposed(s).parameters == s.parameters <==> parametersCount == 0)
  {
    var s: Snapshot<A> := Initial(inCapacity, outCapacity, parametersCount);
    if parametersCount > 0 {
      assert Disposed(s).parameters[0] != s.parameters[0];
    }
  }

  /** Writes `v` into every cell of `a`, from the first to the last. */
  method Fill<T>(a: array<T>, v: T)
    modifies a
    ensures a[..] == Filled(a.Length, v)
  {
    var i := 0;
    while i < a.Length
      invariant 0 <= i <= a.Length
      invariant a[..i] == Filled(i, v)
    {
      a[i] := v;
      assert a[..i + 1] == a[..i] + [v];
      i := i + 1;
    }
    assert a[..] == a[..a.Length];
  }

  /**
   * A dataflow node. The three arrays are allocated by the constructor and
   * never replaced, so their lengths are fixed for the node's lifetime.
   * Port slots hold the partner node or null; parameter slots hold a value
   * or null.
   */
  class Node<A> {
    const inputs: array<Node?<A>>
    const outputs: array<Node?<A>>
    const parameters: array<Option<Float32>>
    /** The node's computation; stored, never invoked by the node itself. */
    const operation: seq<A> -> A

    /** The node's current ports and parameters as a value. */
    ghost function State(): Snapshot<A>
      reads inputs, outputs, parameters
    {
      Snapshot(inputs[..], outputs[..], parameters[..])
    }

    constructor (inCapacity: nat, outCapacity: nat := 1, parametersCount: nat, operation: seq<A> -> A)
      ensures fresh(inputs) && fresh(outputs) && fresh(parameters) && inputs != outputs
      ensures State() == Initial(inCapacity, outCapacity, parametersCount)
      ensures this.operation == operation
    {
      inputs := new Node?<A>[inCapacity](_ => null);
      outputs := new Node?<A>[outCapacity](_ => null);
      parameters := new Option<Float32>[parametersCount](_ => Some(Zero));
      this.operation := operation;
      new;
      assert inputs[..] == Filled(inCapacity, null);
      assert outputs[..] == Filled(outCapacity, null);
      assert parameters[..] == Filled(parametersCount, Some(Zero));
    }

    /**
     * Wires input port `inPort` of this node to output port `outPort` of
     * `source`. The two arrays written are distinct objects, which every
     * pair of constructed nodes guarantees (a self-loop writes this node's
     * own input and output arrays). Every other array keeps its contents.
     */
    method ConnectLeft(inPort: int, source: Node<A>, outPort: int) returns (fault: Option<Fault>)
      requires inputs != source.outputs
      modifies inputs, source.outputs
      ensures Wiring(inputs[..], source.outputs[..], fault)
           == ConnectLeftEffect(old(inputs[..]), old(source.outputs[..]), inPort, outPort, this, source)
    {
      if !(0 <= inPort < inputs.Length) {
        return Some(IndexOutOfBounds(inPort, inputs.Length));
      }
      inputs[inPort] := source;
      if !(0 <= outPort < source.outputs.Length) {
        return Some(IndexOutOfBounds(outPort, source.outputs.Length));
      }
      source.outputs[outPort] := this;
      return None;
    }

    /** Wires output port `outPort` of this node to input port `inPort` of `destination`. */
    method ConnectRight(outPort: int, destination: Node<A>, inPort: int) returns (fault: Option<Fault>)
      requires outputs != destination.inputs
      modifies outputs, destination.inputs
      ensures Wiring(destination.inputs[..], outputs[..], fault)
           == ConnectRightEffect(old(outputs[..]), old(destination.inputs[..]), outPort, inPort, this, destination)
    {
      if !(0 <= outPort < outputs.Length) {
        return Some(IndexOutOfBounds(outPort, outputs.Length));
      }
      outputs[outPort] := destination;
      if !(0 <= inPort < destination.inputs.Length) {
        return Some(IndexOutOfBounds(inPort, destination.inputs.Length));
      }
      destination.inputs[inPort] := this;
      return None;
    }

    /** Empties every port and every parameter slot of this node; no other node is written. */
    method Dispose()
      modifies inputs, outputs, parameters
      ensures State() == Disposed(old(State()))
    {
      Fill(inputs, null);
      Fill(outputs, null);
      Fill(parameters, None);
    }
  }

  /**
   * Rewiring an input port that is part of a mutual link leaves the old
   * upstream node pointing at this node: its output array is not written.
   */
  method RewireLeavesStalePartner<A>(node: Node<A>, inPort: int, previous: Node<A>, k: int, source: Node<A>, outPort: int)
    returns (fault: Option<Fault>)
    requires 0 <= inPort < node.inputs.Length && 0 <= outPort < source.outputs.Length
    requires 0 <= k < previous.outputs.Length
    requires node.inputs[inPort] == previous && previous.outputs[k] == node && previous != source
    requires node.inputs != source.outputs
    requires previous.outputs != node.inputs && previous.outputs != source.outputs
    modifies node.inputs, source.outputs
    ensures fault == None
    ensures node.inputs[inPort] == source && source.outputs[outPort] == node
    ensures previous.outputs[k] == node
  {
    fault := node.ConnectLeft(inPort, source, outPort);
  }

  /** Disposing a node leaves every remote reference to it in place. */
  method DisposeLeavesRemoteReference<A>(node: Node<A>, remote: Node<A>, k: int)
    requires 0 <= k < remote.outputs.Length && remote.outputs[k] == node
    requires remote.outputs != node.inputs && remote.outputs != node.outputs
    modifies node.inputs, node.outputs, node.parameters
    ensures remote.outputs[k] == node
    ensures forall i :: 0 <= i < node.outputs.Length ==> node.outputs[i] == null
  {
    node.Dispose();
  }

  /**
   * The documented scenario: a two-input summing node fed on input 0 by a
   * source node; input 1 stays empty. Nodes built by the constructor meet
   * the separation that `ConnectRight` asks for.
   */
  method WiringScenario() returns (sum: Node<int>, five: Node<int>)
    ensures sum.inputs.Length == 2 && sum.outputs.Length == 1 && five.outputs.Length == 1
    ensures sum.inputs[0] == five && five.outputs[0] == sum && sum.inputs[1] == null
  {
    sum := new Node(2, parametersCount := 1, operation := (xs: seq<int>) => if |xs| == 2 then xs[0] + xs[1] else 0);
    five := new Node(0, parametersCount := 0, operation := (xs: seq<int>) => 5);
    var fault := five.ConnectRight(0, sum, 0);
  }
}
