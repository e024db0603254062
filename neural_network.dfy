/** The topology of the neural network scene: how many nodes each layer
    draws, which node of the next layer each connection ends at, which nodes
    pulse and which connections animate, and how the scene chains its layers.
    Node positions (cosine and sine placement) are not part of this model. */
module NeuralNetwork {
  import opened Js

  /** A drawn node: its index in the layer, its label `<name>-<i>`, and
      whether it pulses. */
  datatype NodeInfo = NodeInfo(index: nat, labelText: string, pulsating: bool)

  /** A drawn connection from node `source` of a layer, the `slot`-th of its
      connections, to node `target` of the next layer. */
  datatype ConnectionInfo = ConnectionInfo(source: nat, slot: nat, target: nat, animated: bool)

  function Min(a: nat, b: nat): nat { if a <= b then a else b }

  /** `Math.min(3, connectToLayer.nodeCount)`. */
  function FanOut(targetCount: nat): nat { Min(3, targetCount) }

  function NodeLabel(name: string, i: nat): string { name + "-" + Decimal(i) }

  /** The nodes of a layer, in the order the loop pushes them. */
  function NodeSpec(name: string, n: nat): (r: seq<NodeInfo>)
    ensures |r| == n
    ensures forall i :: 0 <= i < n ==> r[i] == NodeInfo(i, NodeLabel(name, i), i % 3 == 0)
  {
    if n == 0 then [] else NodeSpec(name, n - 1) + [NodeInfo(n - 1, NodeLabel(name, n - 1), (n - 1) % 3 == 0)]
  }

  /** The connections of source node `i`: one per slot `j` below the fan-out,
      to node `(i + j) % t`. */
  function Row(i: nat, t: nat): (r: seq<ConnectionInfo>)
    ensures |r| == FanOut(t)
  {
    seq(FanOut(t), j requires 0 <= j < FanOut(t) => ConnectionInfo(i, j, (i + j) % t, i % 2 == 0))
  }

  /** The connections of the first `n` source nodes, in push order: a layer
      with a target draws `nodeCount * min(3, target.nodeCount)` of them. */
  function ConnSpec(n: nat, t: nat): (r: seq<ConnectionInfo>)
    ensures |r| == n * FanOut(t)
  {
    if n == 0 then [] else ConnSpec(n - 1, t) + Row(n - 1, t)
  }

  /** The props of one layer; `connectToLayer` is set by the scene. */
  class LayerProps {
    const name: string
    const nodeCount: nat
    var connectToLayer: LayerProps?

    constructor (name: string, nodeCount: nat)
      ensures this.name == name && this.nodeCount == nodeCount && connectToLayer == null
    {
      this.name := name;
      this.nodeCount := nodeCount;
      connectToLayer := null;
    }
  }

  /** Appending the next element of `r` to a prefix of it. */
  lemma AppendNext<T>(a: seq<T>, r: seq<T>, j: nat)
    requires j < |r|
    ensures a + r[..j] + [r[j]] == a + r[..j + 1]
  {
    assert r[..j + 1] == r[..j] + [r[j]];
  }

  /** `Layer`: the node loop, then, if there is a target layer, the nested
      connection loops. */
  method RenderLayer(layer: LayerProps) returns (nodes: seq<NodeInfo>, connections: seq<ConnectionInfo>)
    ensures nodes == NodeSpec(layer.name, layer.nodeCount)
    ensures layer.connectToLayer == null ==> connections == []
    ensures layer.connectToLayer != null ==>
              connections == ConnSpec(layer.nodeCount, layer.connectToLayer.nodeCount)
  {
    var n := layer.nodeCount;
    nodes := [];
    var i := 0;
    while i < n
      invariant 0 <= i <= n
      invariant nodes == NodeSpec(layer.name, i)
    {
      nodes := nodes + [NodeInfo(i, NodeLabel(layer.name, i), i % 3 == 0)];
      i := i + 1;
    }
    connections := [];
    if layer.connectToLayer != null {
      var t := layer.connectToLayer.nodeCount;
      i := 0;
      while i < n
        invariant 0 <= i <= n
        invariant connections == ConnSpec(i, t)
      {
        var count := Min(3, t);
        var j := 0;
        while j < count
          invariant 0 <= j <= count
          invariant connections == ConnSpec(i, t) + Row(i, t)[..j]
        {
          var targetIdx := (i + j) % t;
          AppendNext(ConnSpec(i, t), Row(i, t), j);
          connections := connections + [ConnectionInfo(i, j, targetIdx, i % 2 == 0)];
          j := j + 1;
        }
        assert Row(i, t)[..count] == Row(i, t);
        i := i + 1;
      }
    }
  }

  /** Every connection starts at a drawn node, uses a slot below the fan-out,
      ends at node `(source + slot) % t` of the target layer, which exists,
      and animates iff its source index is even. */
  lemma {:induction false} ConnectionShape(n: nat, t: nat)
    ensures forall c :: c in ConnSpec(n, t) ==>
              c.source < n && c.slot < FanOut(t) && c.target < t &&
              c.target == (c.source + c.slot) % t && (c.animated <==> c.source % 2 == 0)
  {
    if n > 0 {
      ConnectionShape(n - 1, t);
      RowShape(n - 1, t);
      forall c | c in ConnSpec(n, t)
        ensures c.source < n && c.slot < FanOut(t) && c.target < t &&
                c.target == (c.source + c.slot) % t && (c.animated <==> c.source % 2 == 0)
      {
        if c !in ConnSpec(n - 1, t) {
          assert c in Row(n - 1, t);
        }
      }
    }
  }

  /** The connections of one source node `i`. */
  lemma RowShape(i: nat, t: nat)
    ensures forall c :: c in Row(i, t) ==>
              c.source == i && c.slot < FanOut(t) && c.target < t &&
              c.target == (i + c.slot) % t && (c.animated <==> i % 2 == 0)
  {
    forall c | c in Row(i, t)
      ensures c.source == i && c.slot < FanOut(t) && c.target < t &&
              c.target == (i + c.slot) % t && (c.animated <==> i % 2 == 0)
    {
      var j :| 0 <= j < |Row(i, t)| && Row(i, t)[j] == c;
    }
  }

  /** A multiple of `t` strictly between `-t` and `t` is zero. */
  lemma SmallMultiple(d: int, t: int)
    requires t > 0 && -t < d * t < t
    ensures d == 0
  {
  }

  lemma ModDistinct(i: nat, j1: nat, j2: nat, t: nat)
    requires j1 < t && j2 < t && j1 != j2
    ensures (i + j1) % t != (i + j2) % t
  {
    var q1, q2 := (i + j1) / t, (i + j2) / t;
    assert i + j1 == q1 * t + (i + j1) % t;
    assert i + j2 == q2 * t + (i + j2) % t;
    if (i + j1) % t == (i + j2) % t {
      assert j1 - j2 == q1 * t - q2 * t == (q1 - q2) * t;
      SmallMultiple(q1 - q2, t);
    }
  }

  /** The connections leaving one node end at pairwise distinct nodes. */
  lemma TargetsDistinct(n: nat, t: nat, c1: ConnectionInfo, c2: ConnectionInfo)
    requires c1 in ConnSpec(n, t) && c2 in ConnSpec(n, t)
    requires c1.source == c2.source && c1.slot != c2.slot
    ensures c1.target != c2.target
  {
    ShapeOf(n, t, c1);
    ShapeOf(n, t, c2);
    ModDistinct(c1.source, c1.slot, c2.slot, t);
  }

  /** The shape of one drawn connection. */
  lemma ShapeOf(n: nat, t: nat, c: ConnectionInfo)
    requires c in ConnSpec(n, t)
    ensures c.slot < t && c.target == (c.source + c.slot) % t
  {
    ConnectionShape(n, t);
  }

  /** With an empty target layer there is no connection, so no `% 0` is
      ever evaluated. */
  lemma EmptyTargetNoConnections(n: nat)
    ensures ConnSpec(n, 0) == []
  {
  }

  /** Node labels within a layer are pairwise distinct. */
  lemma LabelsDistinct(name: string, i: nat, k: nat)
    requires NodeLabel(name, i) == NodeLabel(name, k)
    ensures i == k
  {
    var p := name + "-";
    assert NodeLabel(name, i)[|p|..] == Decimal(i);
    assert NodeLabel(name, k)[|p|..] == Decimal(k);
    DecimalInjective(i, k);
  }

  /** The chaining loop: each layer but the last points at its successor;
      the last keeps the target it had. */
  method ChainLayers(layers: array<LayerProps>)
    requires forall a, b :: 0 <= a < b < layers.Length ==> layers[a] != layers[b]
    modifies set k | 0 <= k < layers.Length :: layers[k]
    ensures forall k :: 0 <= k < layers.Length - 1 ==> layers[k].connectToLayer == layers[k + 1]
    ensures layers.Length > 0 ==>
              layers[layers.Length - 1].connectToLayer == old(layers[layers.Length - 1].connectToLayer)
  {
    var i := 0;
    while i < layers.Length - 1
      invariant 0 <= i <= if layers.Length == 0 then 0 else layers.Length - 1
      invariant forall k :: 0 <= k < i ==> layers[k].connectToLayer == layers[k + 1]
      invariant forall k :: i <= k < layers.Length ==> layers[k].connectToLayer == old(layers[k].connectToLayer)
    {
      layers[i].connectToLayer := layers[i + 1];
      i := i + 1;
    }
  }

  /** The total number of connections a chain of layers with these node
      counts draws. */
  function ChainConnections(counts: seq<nat>): (r: nat)
    ensures |counts| < 2 ==> r == 0
  {
    if |counts| < 2 then 0 else counts[0] * FanOut(counts[1]) + ChainConnections(counts[1..])
  }

  /** A chain draws no connection exactly when no two adjacent layers are
      both non-empty. */
  lemma {:induction false} NoConnections(counts: seq<nat>)
    ensures ChainConnections(counts) == 0 <==>
              forall k :: 0 <= k < |counts| - 1 ==> counts[k] == 0 || counts[k + 1] == 0
    decreases |counts|
  {
    if |counts| >= 2 {
      NoConnections(counts[1..]);
      assert forall k :: 1 <= k < |counts| ==> counts[1..][k - 1] == counts[k];
    }
  }

  /** One layer of a chain: its own connections plus those of the rest. */
  lemma ChainStep(counts: seq<nat>, k: nat)
    requires k < |counts|
    ensures ChainConnections(counts[k..])
         == (if k + 1 < |counts| then counts[k] * FanOut(counts[k + 1]) + ChainConnections(counts[k + 1..]) else 0)
  {
    if k + 1 < |counts| {
      assert counts[k..][1..] == counts[k + 1..];
    }
  }

  const SceneNodeCounts: seq<nat> := [8, 12, 10, 6]

  /** The scene draws 8 * 3 + 12 * 3 + 10 * 3 = 90 connections. */
  lemma SceneConnections()
    ensures ChainConnections(SceneNodeCounts) == 90
  {
    ChainStep(SceneNodeCounts, 0);
    ChainStep(SceneNodeCounts, 1);
    ChainStep(SceneNodeCounts, 2);
    ChainStep(SceneNodeCounts, 3);
  }

  /** The node counts of a list of layers. */
  function NodeCounts(layers: seq<LayerProps>): (r: seq<nat>)
    ensures |r| == |layers| && forall k :: 0 <= k < |layers| ==> r[k] == layers[k].nodeCount
  {
    seq(|layers|, k requires 0 <= k < |layers| => layers[k].nodeCount)
  }

  /** Rendering every layer of a chain (`layers.map`), each with the nodes
      and connections `RenderLayer` draws; returns the number of connections
      drawn in total. */
  method RenderChain(layers: array<LayerProps>) returns (total: nat)
    requires layers.Length > 0
    requires forall m :: 0 <= m < layers.Length - 1 ==> layers[m].connectToLayer == layers[m + 1]
    requires layers[layers.Length - 1].connectToLayer == null
    ensures total == ChainConnections(NodeCounts(layers[..]))
  {
    ghost var counts := NodeCounts(layers[..]);
    total := 0;
    var k := 0;
    while k < layers.Length
      invariant 0 <= k <= layers.Length
      invariant total + (if k < layers.Length then ChainConnections(counts[k..]) else 0) == ChainConnections(counts)
    {
      var nodes, connections := RenderLayer(layers[k]);
      ChainStep(counts, k);
      total := total + |connections|;
      k := k + 1;
    }
  }

  /** `NeuralNetworkScene`: four layers, chained, then each rendered; returns
      the layers and the number of connections drawn. */
  method NeuralNetworkScene() returns (layers: array<LayerProps>, total: nat)
    ensures layers.Length == 4
    ensures NodeCounts(layers[..]) == SceneNodeCounts
    ensures forall k :: 0 <= k < 3 ==> layers[k].connectToLayer == layers[k + 1]
    ensures layers[3].connectToLayer == null
    ensures total == ChainConnections(SceneNodeCounts) == 90
  {
    var input := new LayerProps("Input", 8);
    var hidden1 := new LayerProps("Hidden 1", 12);
    var hidden2 := new LayerProps("Hidden 2", 10);
    var output := new LayerProps("Output", 6);
    layers := new LayerProps[4] [input, hidden1, hidden2, output];
    ChainLayers(layers);
    total := RenderChain(layers);
    SceneConnections();
  }
}
