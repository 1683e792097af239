/** The target-chasing demo's network designer: one list of flow elements (nodes and edges
    together), the delete handlers that filter it by id, and the extraction of the hidden-layer
    widths from the `Dense` nodes. */
module NetworkDesigner {
  import opened Common
  import opened LayerLabels
  import opened Decimal

  /** A node or an edge. Nodes carry a type and a label; edges a source and a target. */
  datatype Element = Element(
    id: Option<string>,
    kind: Option<string>,
    caption: Option<string>,
    source: Option<string>,
    target: Option<string>)

  function Node(id: string, kind: string, caption: string): Element {
    Element(Some(id), Some(kind), Some(caption), None, None)
  }

  function Edge(id: string, source: string, target: string): Element {
    Element(Some(id), None, None, Some(source), Some(target))
  }

  /** The designer's starting graph: input, two dense layers of 64, output, and four edges. */
  const InitialElements: seq<Element> := [
    Node("input", "input", "Input (Size: 9)"),
    Node("hidden1", "default", "Dense (Neurons: 64)"),
    Node("hidden2", "default", "Dense (Neurons: 64)"),
    Node("output", "output", "Output (Actions: 4)"),
    Edge("e-input-h1", "input", "hidden1"),
    Edge("e-input-h2", "input", "hidden2"),
    Edge("e-h1-output", "hidden1", "output"),
    Edge("e-h2-output", "hidden2", "output")
  ]

  /** What one element contributes to the layer list: its width, or nothing. */
  function LayerOf(el: Element): seq<nat> {
    match LayerWidth(el.kind, el.caption)
    case Some(w) => [w]
    case None => []
  }

  /** The widths of the contributing elements, in element order. */
  function HiddenLayers(els: seq<Element>): seq<nat> {
    FlatMap(LayerOf, els)
  }

  /** Extraction distributes over concatenation: each element's contribution keeps its place. */
  lemma HiddenLayersAppend(a: seq<Element>, b: seq<Element>)
    ensures HiddenLayers(a + b) == HiddenLayers(a) + HiddenLayers(b)
  {
    FlatMapAppend(LayerOf, a, b);
  }

  /** At most one width per element, and every width is read from some contributing element. */
  lemma {:induction false} HiddenLayersFromElements(els: seq<Element>)
    ensures |HiddenLayers(els)| <= |els|
    ensures forall k :: 0 <= k < |HiddenLayers(els)| ==>
              exists i :: 0 <= i < |els| && LayerWidth(els[i].kind, els[i].caption) == Some(HiddenLayers(els)[k])
    decreases |els|
  {
    if els != [] {
      var prev := els[..|els| - 1];
      HiddenLayersFromElements(prev);
      var r := HiddenLayers(els);
      forall k | 0 <= k < |r|
        ensures exists i :: 0 <= i < |els| && LayerWidth(els[i].kind, els[i].caption) == Some(r[k])
      {
        if k < |HiddenLayers(prev)| {
          var i :| 0 <= i < |prev| && LayerWidth(prev[i].kind, prev[i].caption) == Some(HiddenLayers(prev)[k]);
          assert els[i] == prev[i];
        } else {
          assert LayerWidth(els[|els| - 1].kind, els[|els| - 1].caption) == Some(r[k]);
        }
      }
    }
  }

  /** The starting graph describes two hidden layers of 64 neurons; the input, output and
      edges contribute nothing. */
  lemma InitialLayers()
    ensures HiddenLayers(InitialElements) == [64, 64]
  {
    var input, hidden1, hidden2, output :=
      Node("input", "input", "Input (Size: 9)"), Node("hidden1", "default", "Dense (Neurons: 64)"),
      Node("hidden2", "default", "Dense (Neurons: 64)"), Node("output", "output", "Output (Actions: 4)");
    var e1, e2, e3, e4 :=
      Edge("e-input-h1", "input", "hidden1"), Edge("e-input-h2", "input", "hidden2"),
      Edge("e-h1-output", "hidden1", "output"), Edge("e-h2-output", "hidden2", "output");
    Width64();
    NotDefault(input);
    NotDefault(output);
    NotDefault(e1);
    NotDefault(e2);
    NotDefault(e3);
    NotDefault(e4);
    EightElements(input, hidden1, hidden2, output, e1, e2, e3, e4);
  }

  /** Eight elements of which only the second and third contribute, each 64 wide. */
  lemma EightElements(a: Element, b: Element, c: Element, d: Element,
                      e: Element, f: Element, g: Element, h: Element)
    requires LayerOf(b) == [64] && LayerOf(c) == [64]
    requires LayerOf(a) == [] && LayerOf(d) == [] && LayerOf(e) == []
    requires LayerOf(f) == [] && LayerOf(g) == [] && LayerOf(h) == []
    ensures HiddenLayers([a, b, c, d, e, f, g, h]) == [64, 64]
  {
    var p, q, r, t := [a, b], [c, d], [e, f], [g, h];
    assert [a, b, c, d, e, f, g, h] == p + q + (r + t);
    HiddenLayersPair(a, b);
    HiddenLayersPair(c, d);
    HiddenLayersPair(e, f);
    HiddenLayersPair(g, h);
    HiddenLayersAppend(p, q);
    HiddenLayersAppend(r, t);
    HiddenLayersAppend(p + q, r + t);
  }

  lemma HiddenLayersPair(x: Element, y: Element)
    ensures HiddenLayers([x, y]) == LayerOf(x) + LayerOf(y)
  {
    FlatMapPair(LayerOf, x, y);
  }

  /** Only `default` nodes contribute. */
  lemma NotDefault(el: Element)
    requires el.kind != Some(DefaultNodeType)
    ensures LayerOf(el) == []
  {
    OnlyDefaultNodes(el.kind, el.caption);
  }

  /** Extraction over one more entry adds that entry's contribution. */
  lemma HiddenLayersStep(xs: seq<Element>, i: nat)
    requires i < |xs|
    ensures HiddenLayers(xs[..i + 1]) == HiddenLayers(xs[..i]) + LayerOf(xs[i])
  {
    FlatMapStep(LayerOf, xs, i);
  }

  method ExtractNetworkStructure(currentElements: seq<Element>) returns (hiddenLayers: seq<nat>)
    ensures hiddenLayers == HiddenLayers(currentElements)
  {
    hiddenLayers := [];
    var i := 0;
    while i < |currentElements|
      invariant 0 <= i <= |currentElements|
      invariant hiddenLayers == HiddenLayers(currentElements[..i])
    {
      var el := currentElements[i];
      if el.kind == Some(DefaultNodeType) && el.caption.Some? && Contains(el.caption.value, DenseTag) {
        var capture := Capture(el.caption.value);
        if capture.Some? {
          hiddenLayers := hiddenLayers + [DecimalValue(capture.value)];
        }
      }
      HiddenLayersStep(currentElements, i);
      i := i + 1;
    }
    assert currentElements[..i] == currentElements;
  }

  /** Whether the delete filter keeps `el`: it has no (or an empty) id, or one not being removed. */
  predicate Kept(el: Element, removed: seq<string>) {
    !Truthy(el.id) || el.id.value !in removed
  }

  /** The element list after `onNodesDelete` or `onEdgesDelete` of the elements with the given ids. */
  function RemoveById(els: seq<Element>, removed: seq<string>): seq<Element>
    decreases |els|
  {
    if els == [] then []
    else RemoveById(els[..|els| - 1], removed) + (if Kept(els[|els| - 1], removed) then [els[|els| - 1]] else [])
  }

  /** Exactly the elements whose id is removed disappear. */
  lemma {:induction false} RemoveByIdMembers(els: seq<Element>, removed: seq<string>)
    ensures forall x :: x in RemoveById(els, removed) <==> x in els && Kept(x, removed)
    decreases |els|
  {
    if els != [] {
      RemoveByIdMembers(els[..|els| - 1], removed);
      assert els == els[..|els| - 1] + [els[|els| - 1]];
    }
  }

  /** The filter keeps its order: it distributes over concatenation. */
  lemma {:induction false} RemoveByIdAppend(a: seq<Element>, b: seq<Element>, removed: seq<string>)
    ensures RemoveById(a + b, removed) == RemoveById(a, removed) + RemoveById(b, removed)
    decreases |b|
  {
    if b == [] {
      assert a + b == a;
    } else {
      RemoveByIdAppend(a, b[..|b| - 1], removed);
      assert (a + b)[..|a + b| - 1] == a + b[..|b| - 1];
    }
  }

  /** Deleting the same ids twice changes nothing the second time. */
  lemma {:induction false} RemoveByIdIdempotent(els: seq<Element>, removed: seq<string>)
    ensures RemoveById(RemoveById(els, removed), removed) == RemoveById(els, removed)
    decreases |els|
  {
    if els != [] {
      var prev := els[..|els| - 1];
      var last := els[|els| - 1];
      RemoveByIdIdempotent(prev, removed);
      var tail := if Kept(last, removed) then [last] else [];
      RemoveByIdAppend(RemoveById(prev, removed), tail, removed);
      if Kept(last, removed) {
        assert tail[..0] == [];
      }
    }
  }
}
