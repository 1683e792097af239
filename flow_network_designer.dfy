/** The React Three Fiber demo's network designer: nodes and edges are kept apart, and the
    hidden-layer widths are read from the `Dense` nodes each time the node list changes. */
module FlowNetworkDesigner {
  import opened Common
  import opened LayerLabels
  import opened Decimal
  import NetworkDesigner

  /** A flow node: its id, its type and its label. Positions only matter for drawing. */
  datatype FlowNode = FlowNode(id: string, kind: Option<string>, caption: Option<string>)

  function Node(id: string, kind: string, caption: string): FlowNode {
    FlowNode(id, Some(kind), Some(caption))
  }

  /** The designer's starting nodes: input, two dense layers of 64, output. */
  const InitialNodes: seq<FlowNode> := [
    Node("input", "input", "Input (Size: 9)"),
    Node("hidden1", "default", "Dense (Neurons: 64)"),
    Node("hidden2", "default", "Dense (Neurons: 64)"),
    Node("output", "output", "Output (Actions: 4)")
  ]

  /** What one node contributes to the layer list: its width, or nothing. */
  function LayerOf(node: FlowNode): seq<nat> {
    match LayerWidth(node.kind, node.caption)
    case Some(w) => [w]
    case None => []
  }

  /** The widths of the contributing nodes, in node order. */
  function HiddenLayers(nodes: seq<FlowNode>): seq<nat> {
    FlatMap(LayerOf, nodes)
  }

  /** The starting nodes describe two hidden layers of 64 neurons. */
  lemma InitialLayers()
    ensures HiddenLayers(InitialNodes) == [64, 64]
  {
    var n := InitialNodes;
    Width64();
    OnlyDefaultNodes(n[0].kind, n[0].caption);
    OnlyDefaultNodes(n[3].kind, n[3].caption);
    assert LayerOf(n[0]) == [] && LayerOf(n[3]) == [];
    assert LayerOf(n[1]) == [64] && LayerOf(n[2]) == [64];
    FourNodes(n);
  }

  /** Four nodes of which only the middle two contribute, each 64 wide. */
  lemma FourNodes(n: seq<FlowNode>)
    requires |n| == 4 && LayerOf(n[0]) == [] && LayerOf(n[1]) == [64]
    requires LayerOf(n[2]) == [64] && LayerOf(n[3]) == []
    ensures HiddenLayers(n) == [64, 64]
  {
    var p, q := [n[0], n[1]], [n[2], n[3]];
    assert n == p + q;
    FlatMapPair(LayerOf, n[0], n[1]);
    FlatMapPair(LayerOf, n[2], n[3]);
    FlatMapAppend(LayerOf, p, q);
  }

  /** The element an r3f node stands for in the demo designer's single element list. */
  function AsElement(node: FlowNode): NetworkDesigner.Element {
    NetworkDesigner.Element(Some(node.id), node.kind, node.caption, None, None)
  }

  /** The demo designer's element list holding the same nodes in the same order, and no edges. */
  function AsElements(nodes: seq<FlowNode>): seq<NetworkDesigner.Element>
    decreases |nodes|
  {
    if nodes == [] then [] else AsElements(nodes[..|nodes| - 1]) + [AsElement(nodes[|nodes| - 1])]
  }

  /** Both designers read the same widths from the same nodes: the two extractions agree. */
  lemma {:induction false} SameAsElementExtraction(nodes: seq<FlowNode>)
    ensures HiddenLayers(nodes) == NetworkDesigner.HiddenLayers(AsElements(nodes))
    decreases |nodes|
  {
    if nodes != [] {
      var prev := nodes[..|nodes| - 1];
      var els := AsElements(nodes);
      SameAsElementExtraction(prev);
      assert els[..|els| - 1] == AsElements(prev);
      assert els[|els| - 1] == AsElement(nodes[|nodes| - 1]);
    }
  }

  method ExtractNetworkStructure(currentNodes: seq<FlowNode>) returns (hiddenLayers: seq<nat>)
    ensures hiddenLayers == HiddenLayers(currentNodes)
  {
    hiddenLayers := [];
    var i := 0;
    while i < |currentNodes|
      invariant 0 <= i <= |currentNodes|
      invariant hiddenLayers == HiddenLayers(currentNodes[..i])
    {
      var node := currentNodes[i];
      if node.kind == Some(DefaultNodeType) && node.caption.Some? && Contains(node.caption.value, DenseTag) {
        var capture := Capture(node.caption.value);
        if capture.Some? {
          hiddenLayers := hiddenLayers + [DecimalValue(capture.value)];
        }
      }
      FlatMapStep(LayerOf, currentNodes, i);
      i := i + 1;
    }
    assert currentNodes[..i] == currentNodes;
  }

  /** The panel: its node list, and every layer list it has handed to `onNetworkChange`. */
  class Panel {
    var nodes: seq<FlowNode>
    var reported: seq<seq<nat>>

    /** On mount the effect runs once on the starting nodes. */
    constructor ()
      ensures nodes == InitialNodes && reported == [HiddenLayers(InitialNodes)]
    {
      nodes := InitialNodes;
      var layers := ExtractNetworkStructure(InitialNodes);
      reported := [layers];
    }

    /** `setNodes` with the list the node changes produce; the effect then reports its layers. */
    method SetNodes(newNodes: seq<FlowNode>)
      modifies this
      ensures nodes == newNodes
      ensures reported == old(reported) + [HiddenLayers(newNodes)]
    {
      nodes := newNodes;
      var layers := ExtractNetworkStructure(newNodes);
      reported := reported + [layers];
    }
  }
}
