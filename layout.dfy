/**
  The layout adapter of src/layout.ts. `createGraphLayout` submits the shown
  processes and topics as fixed 200×50 boxes plus the shown edges to ELK,
  resizes every shown topic's style to its measured label in place, and then
  re-centres each node ELK placed on its real size and sets its anchor sides.
  ELK, the text measurer and `Math.random` are parameters.
*/
module Layout {
  import opened Seqs
  import opened GraphModel

  /** The placeholder box every node is laid out with. */
  const DEFAULT_WIDTH: real := 200.0
  const DEFAULT_HEIGHT: real := 50.0

  /** `elk.spacing.nodeNode`, the same in both orientations. */
  const NODE_SPACING: int := 275

  /** ELK's `elk.direction`: "RIGHT" or "DOWN". */
  datatype Direction = Rightward | Downward

  /** One child submitted to ELK. */
  datatype ElkNode = ElkNode(id: string, width: real, height: real)

  /** One edge submitted to ELK. */
  datatype ElkEdge = ElkEdge(id: string, source: string, target: string)

  /** The graph handed to `elk.layout`, with its per-call direction and spacings. */
  datatype LayoutRequest = LayoutRequest(
    children: seq<ElkNode>,
    edges: seq<ElkEdge>,
    direction: Direction,
    nodeSpacing: int,
    layerSpacing: int)

  /** A child of ELK's result graph; an absent coordinate is read as 0, which is just as falsy. */
  datatype LaidNode = LaidNode(id: string, x: real, y: real, width: real, height: real)

  function DirectionOf(lrOrientation: bool): Direction {
    if lrOrientation then Rightward else Downward
  }

  /** `spacing.nodeNodeBetweenLayers`: 200 when horizontal, 150 otherwise. */
  function LayerSpacing(d: Direction): int {
    if d == Rightward then 200 else 150
  }

  /** `measureText`: an empty label measures 0×0 without consulting the measurer. */
  function MeasureText(text: string, measure: string -> Size): (r: Size)
    ensures text == "" ==> r == Size(0.0, 0.0)
    ensures text != "" ==> r == measure(text)
  {
    if text != "" then measure(text) else Size(0.0, 0.0)
  }

  /** `!el.isHidden`: a missing flag counts as shown. */
  predicate NotHidden(e: Element) {
    e.isHidden != Some(true)
  }

  /** A node the adapter submits: a shown process or topic. */
  predicate Participates(e: Element) {
    IsGraphNode(e) && NotHidden(e)
  }

  /** An edge the adapter submits. */
  predicate IsLaidEdge(e: Element) {
    IsEdge(e) && NotHidden(e)
  }

  function Placeholder(e: Element): ElkNode {
    ElkNode(e.id, DEFAULT_WIDTH, DEFAULT_HEIGHT)
  }

  function ElkEdgeOf(e: Element): ElkEdge
    requires IsEdge(e)
  {
    ElkEdge(e.id, e.link.value.source, e.link.value.target)
  }

  /** `elk_nodes`: a placeholder per shown process or topic, in list order. */
  function RequestNodes(els: seq<Element>): seq<ElkNode> {
    Map(Filter(els, Participates), Placeholder)
  }

  /** `elk_edges`: id, source and target of every shown edge, in list order. */
  function RequestEdges(els: seq<Element>): seq<ElkEdge> {
    var shown := Filter(els, IsLaidEdge);
    assert forall x :: x in shown ==> IsEdge(x);
    Map(shown, ElkEdgeOf)
  }

  function Request(els: seq<Element>, d: Direction): LayoutRequest {
    LayoutRequest(RequestNodes(els), RequestEdges(els), d, NODE_SPACING, LayerSpacing(d))
  }

  /** A shown topic takes the measured size of its label as its style; anything else is left alone. */
  function Resized(e: Element, measure: string -> Size): Element {
    if Participates(e) && IsRosTopic(e) then e.(style := MeasureText(e.name, measure)) else e
  }

  function Resizer(measure: string -> Size): Element -> Element {
    e => Resized(e, measure)
  }

  /** The caller's list after the in-place resize. */
  function ResizeTopics(els: seq<Element>, measure: string -> Size): seq<Element> {
    Map(els, Resizer(measure))
  }

  function BoxId(b: LaidNode): string { b.id }

  /** `children.find(n => n.id === id)`: the first laid-out child with that id. */
  function FindChild(children: seq<LaidNode>, id: string): Option<LaidNode> {
    First(children, BoxId, id)
  }

  /** The guard `node.x && node.y && node.width && node.height`. */
  predicate LaidOut(b: LaidNode) {
    b.x != 0.0 && b.y != 0.0 && b.width != 0.0 && b.height != 0.0
  }

  /** Where a node of the given style goes so that it is centred on the placeholder ELK placed. */
  function Centred(style: Size, b: LaidNode, jitter: real): Point {
    Point(b.x - (style.width - DEFAULT_WIDTH) / 2.0 + jitter, b.y - (style.height - DEFAULT_HEIGHT) / 2.0)
  }

  function TargetSide(d: Direction): Side {
    if d == Rightward then Left else Top
  }

  function SourceSide(d: Direction): Side {
    if d == Rightward then Right else Bottom
  }

  /**
    One step of the final `map`: a copy of a node, re-centred when ELK laid it
    out and given its anchor sides; an element react-flow does not consider a
    node (it has a `source`) is copied unchanged.
  */
  function Place(e: Element, children: seq<LaidNode>, d: Direction, jitter: real): Element {
    if IsEdge(e) then
      e
    else
      var found := FindChild(children, e.id);
      var moved := if found.Some? && LaidOut(found.value) then e.(position := Centred(e.style, found.value, jitter)) else e;
      moved.(targetPosition := Some(TargetSide(d)), sourcePosition := Some(SourceSide(d)))
  }

  /** The final `map` over the node list; node `k` draws `random(k)` as its `Math.random()`. */
  function PlaceNodes(nodes: seq<Element>, children: seq<LaidNode>, d: Direction, random: nat -> real): (r: seq<Element>)
    ensures |r| == |nodes|
    ensures forall k :: 0 <= k < |nodes| ==> r[k] == Place(nodes[k], children, d, random(k) / 1000.0)
  {
    seq(|nodes|, k requires 0 <= k < |nodes| => Place(nodes[k], children, d, random(k) / 1000.0))
  }

  /**
    What `createGraphLayout` resolves to: None when the layout promise
    rejects, else the placed nodes followed by the edges of the resized list.
  */
  function GraphLayout(
    els: seq<Element>, lrOrientation: bool, measure: string -> Size,
    elk: LayoutRequest -> Option<seq<LaidNode>>, random: nat -> real): Option<seq<Element>>
  {
    var resized := ResizeTopics(els, measure);
    var d := DirectionOf(lrOrientation);
    var response := elk(Request(els, d));
    if response.None? then None
    else Some(PlaceNodes(Filter(resized, IsGraphNode), response.value, d, random) + Filter(resized, IsEdge))
  }

  lemma RequestNodesSnoc(s: seq<Element>, x: Element)
    ensures RequestNodes(s + [x]) == RequestNodes(s) + (if Participates(x) then [Placeholder(x)] else [])
  {
    FilterSnoc(s, x, Participates);
    MapAppend(Filter(s, Participates), if Participates(x) then [x] else [], Placeholder);
  }

  lemma RequestEdgesSnoc(s: seq<Element>, x: Element)
    ensures RequestEdges(s + [x]) == RequestEdges(s) + (if IsLaidEdge(x) then [ElkEdgeOf(x)] else [])
  {
    FilterSnoc(s, x, IsLaidEdge);
    MapAppend(Filter(s, IsLaidEdge), if IsLaidEdge(x) then [x] else [], ElkEdgeOf);
  }

  // ---------------------------------------------------------------------------
  // The request

  /** The submitted nodes are exactly the shown processes and topics, each as a 200×50 placeholder. */
  lemma RequestNodesMember(els: seq<Element>, n: ElkNode)
    ensures n in RequestNodes(els) <==>
      n.width == DEFAULT_WIDTH && n.height == DEFAULT_HEIGHT &&
      exists k :: 0 <= k < |els| && Participates(els[k]) && els[k].id == n.id
  {
    MapFilterMember(els, Participates, Placeholder, n);
  }

  /** The submitted nodes keep list order. */
  lemma RequestNodesAppend(a: seq<Element>, b: seq<Element>)
    ensures RequestNodes(a + b) == RequestNodes(a) + RequestNodes(b)
  {
    FilterAppend(a, b, Participates);
    MapAppend(Filter(a, Participates), Filter(b, Participates), Placeholder);
  }

  /** The submitted edges are exactly the shown edges' ids and endpoints. */
  lemma RequestEdgesMember(els: seq<Element>, ed: ElkEdge)
    ensures ed in RequestEdges(els) <==>
      exists k :: 0 <= k < |els| && IsLaidEdge(els[k]) && ElkEdgeOf(els[k]) == ed
  {
    if ed in RequestEdges(els) {
      RequestEdgesSound(els, ed);
    }
    if exists k :: 0 <= k < |els| && IsLaidEdge(els[k]) && ElkEdgeOf(els[k]) == ed {
      var k :| 0 <= k < |els| && IsLaidEdge(els[k]) && ElkEdgeOf(els[k]) == ed;
      RequestEdgesComplete(els, k);
    }
  }

  lemma RequestEdgesSound(els: seq<Element>, ed: ElkEdge)
    requires ed in RequestEdges(els)
    ensures exists k :: 0 <= k < |els| && IsLaidEdge(els[k]) && ElkEdgeOf(els[k]) == ed
  {
    var f, r := Filter(els, IsLaidEdge), RequestEdges(els);
    var j :| 0 <= j < |r| && r[j] == ed;
    assert f[j] in els;
    var k :| 0 <= k < |els| && els[k] == f[j];
  }

  lemma RequestEdgesComplete(els: seq<Element>, k: int)
    requires 0 <= k < |els| && IsLaidEdge(els[k])
    ensures ElkEdgeOf(els[k]) in RequestEdges(els)
  {
    var f, r := Filter(els, IsLaidEdge), RequestEdges(els);
    assert els[k] in f;
    var j :| 0 <= j < |f| && f[j] == els[k];
    assert r[j] == ElkEdgeOf(els[k]);
  }

  /** The submitted edges keep list order. */
  lemma RequestEdgesAppend(a: seq<Element>, b: seq<Element>)
    ensures RequestEdges(a + b) == RequestEdges(a) + RequestEdges(b)
  {
    FilterAppend(a, b, IsLaidEdge);
    assert forall x :: x in Filter(a, IsLaidEdge) + Filter(b, IsLaidEdge) ==> IsEdge(x);
    MapAppend(Filter(a, IsLaidEdge), Filter(b, IsLaidEdge), ElkEdgeOf);
  }

  /** Endpoints are not checked: a shown edge is submitted even when neither endpoint is. */
  lemma DanglingEdgeSubmitted(e: Element, d: Direction)
    requires IsLaidEdge(e) && !IsGraphNode(e)
    ensures Request([e], d).children == []
    ensures Request([e], d).edges == [ElkEdge(e.id, e.link.value.source, e.link.value.target)]
  {
    assert [e][1..] == [];
  }

  /** The direction and layer spacing follow the orientation; the node spacing is 275 either way. */
  lemma RequestOptions(els: seq<Element>, lrOrientation: bool)
    ensures var req := Request(els, DirectionOf(lrOrientation));
      (req.direction == Rightward <==> lrOrientation) &&
      req.nodeSpacing == 275 &&
      req.layerSpacing == (if lrOrientation then 200 else 150)
  {
  }

  function WithoutStyle(e: Element): Element {
    e.(style := Size(0.0, 0.0))
  }

  /** Sizes never reach ELK: lists that differ only in styles give the same request. */
  lemma RequestIgnoresStyles(a: seq<Element>, b: seq<Element>, d: Direction)
    requires |a| == |b|
    requires forall k :: 0 <= k < |a| ==> WithoutStyle(a[k]) == WithoutStyle(b[k])
    ensures Request(a, d) == Request(b, d)
  {
    FilterByKey(a, b, Participates, WithoutStyle);
    FilterByKey(a, b, IsLaidEdge, WithoutStyle);
    var fa, fb := Filter(a, Participates), Filter(b, Participates);
    assert RequestNodes(a) == RequestNodes(b) by {
      forall k | 0 <= k < |fa| ensures Placeholder(fa[k]) == Placeholder(fb[k]) {
        assert WithoutStyle(fa[k]).id == WithoutStyle(fb[k]).id;
      }
    }
    var ga, gb := Filter(a, IsLaidEdge), Filter(b, IsLaidEdge);
    assert RequestEdges(a) == RequestEdges(b) by {
      forall k | 0 <= k < |ga| ensures ElkEdgeOf(ga[k]) == ElkEdgeOf(gb[k]) {
        assert WithoutStyle(ga[k]) == WithoutStyle(gb[k]);
      }
    }
  }

  /** So the request built before the resize is the one the resized list would give. */
  lemma RequestIgnoresResize(els: seq<Element>, measure: string -> Size, d: Direction)
    ensures Request(ResizeTopics(els, measure), d) == Request(els, d)
  {
    RequestIgnoresStyles(ResizeTopics(els, measure), els, d);
  }

  // ---------------------------------------------------------------------------
  // The resize

  /**
    The resize overwrites the style of each shown topic with its label's
    measured size (0×0 for an empty label) and changes nothing else.
  */
  lemma ResizeTopicsEffect(els: seq<Element>, measure: string -> Size)
    ensures |ResizeTopics(els, measure)| == |els|
    ensures forall k :: 0 <= k < |els| ==> WithoutStyle(ResizeTopics(els, measure)[k]) == WithoutStyle(els[k])
    ensures forall k :: 0 <= k < |els| && Participates(els[k]) && IsRosTopic(els[k]) ==>
      ResizeTopics(els, measure)[k].style == MeasureText(els[k].name, measure)
    ensures forall k :: 0 <= k < |els| && Participates(els[k]) && IsRosTopic(els[k]) && els[k].name == "" ==>
      ResizeTopics(els, measure)[k].style == Size(0.0, 0.0)
    ensures forall k :: 0 <= k < |els| && !(Participates(els[k]) && IsRosTopic(els[k])) ==>
      ResizeTopics(els, measure)[k] == els[k]
  {
  }

  /** Resizing an already resized list changes nothing. */
  lemma ResizeTopicsIdempotent(els: seq<Element>, measure: string -> Size)
    ensures ResizeTopics(ResizeTopics(els, measure), measure) == ResizeTopics(els, measure)
  {
    var r := ResizeTopics(els, measure);
    assert forall k :: 0 <= k < |r| ==> Resized(r[k], measure) == r[k];
  }

  // ---------------------------------------------------------------------------
  // Placement

  /** An element with its position and anchors erased. */
  function Unplaced(e: Element): Element {
    e.(position := Point(0.0, 0.0), targetPosition := None, sourcePosition := None)
  }

  /**
    Placing changes at most the position and the anchors; a node gets anchors
    for the direction, and keeps its position unless ELK laid it out.
  */
  lemma PlaceEffect(e: Element, children: seq<LaidNode>, d: Direction, jitter: real)
    ensures Unplaced(Place(e, children, d, jitter)) == Unplaced(e)
    ensures IsEdge(e) ==> Place(e, children, d, jitter) == e
    ensures !IsEdge(e) ==>
      Place(e, children, d, jitter).targetPosition == Some(if d == Rightward then Left else Top) &&
      Place(e, children, d, jitter).sourcePosition == Some(if d == Rightward then Right else Bottom)
    ensures FindChild(children, e.id).None? || !LaidOut(FindChild(children, e.id).value) ==>
      Place(e, children, d, jitter).position == e.position
  {
  }

  /** The correction keeps the centre ELK chose for the placeholder (up to the jitter on x). */
  lemma PlaceKeepsCentre(e: Element, children: seq<LaidNode>, d: Direction, jitter: real)
    requires !IsEdge(e)
    requires FindChild(children, e.id).Some? && LaidOut(FindChild(children, e.id).value)
    ensures var b, p := FindChild(children, e.id).value, Place(e, children, d, jitter).position;
      p.x + e.style.width / 2.0 == b.x + DEFAULT_WIDTH / 2.0 + jitter &&
      p.y + e.style.height / 2.0 == b.y + DEFAULT_HEIGHT / 2.0
  {
  }

  /** A node of the placeholder's own size lands on ELK's y and within 0.001 to the right of ELK's x. */
  lemma DefaultSizedNodeOnBox(e: Element, children: seq<LaidNode>, d: Direction, jitter: real)
    requires !IsEdge(e) && e.style == Size(DEFAULT_WIDTH, DEFAULT_HEIGHT)
    requires FindChild(children, e.id).Some? && LaidOut(FindChild(children, e.id).value)
    requires 0.0 <= jitter < 0.001
    ensures var b, p := FindChild(children, e.id).value, Place(e, children, d, jitter).position;
      p.y == b.y && b.x <= p.x < b.x + 0.001
  {
  }

  // ---------------------------------------------------------------------------
  // The whole call

  lemma ResizedParts(els: seq<Element>, measure: string -> Size)
    ensures Filter(ResizeTopics(els, measure), IsGraphNode) == ResizeTopics(Filter(els, IsGraphNode), measure)
    ensures Filter(ResizeTopics(els, measure), IsEdge) == ResizeTopics(Filter(els, IsEdge), measure)
  {
    FilterMapCommute(els, Resizer(measure), IsGraphNode);
    FilterMapCommute(els, Resizer(measure), IsEdge);
  }

  /** Entry `k` of the result is the `k`-th node, resized, then placed. */
  lemma GraphLayoutAt(
    els: seq<Element>, lrOrientation: bool, measure: string -> Size,
    elk: LayoutRequest -> Option<seq<LaidNode>>, random: nat -> real, k: int)
    requires GraphLayout(els, lrOrientation, measure, elk, random).Some?
    requires 0 <= k < |Filter(els, IsGraphNode)|
    ensures |Filter(els, IsGraphNode)| <= |GraphLayout(els, lrOrientation, measure, elk, random).value|
    ensures GraphLayout(els, lrOrientation, measure, elk, random).value[k] ==
      Place(Resized(Filter(els, IsGraphNode)[k], measure), elk(Request(els, DirectionOf(lrOrientation))).value,
        DirectionOf(lrOrientation), random(k) / 1000.0)
  {
    var d := DirectionOf(lrOrientation);
    var resized := ResizeTopics(els, measure);
    var children := elk(Request(els, d)).value;
    var nodes := Filter(els, IsGraphNode);
    ResizedParts(els, measure);
    var rn := Filter(resized, IsGraphNode);
    assert rn[k] == Resized(nodes[k], measure);
    var placed := PlaceNodes(rn, children, d, random);
    assert placed[k] == Place(rn[k], children, d, random(k) / 1000.0);
    assert GraphLayout(els, lrOrientation, measure, elk, random).value == placed + Filter(resized, IsEdge);
  }

  /** After the nodes come the resized list's edges. */
  lemma GraphLayoutTail(
    els: seq<Element>, lrOrientation: bool, measure: string -> Size,
    elk: LayoutRequest -> Option<seq<LaidNode>>, random: nat -> real)
    requires GraphLayout(els, lrOrientation, measure, elk, random).Some?
    ensures var r := GraphLayout(els, lrOrientation, measure, elk, random).value;
      |r| == |Filter(els, IsGraphNode)| + |Filter(els, IsEdge)| &&
      r[|Filter(els, IsGraphNode)|..] == ResizeTopics(Filter(els, IsEdge), measure)
  {
    ResizedParts(els, measure);
    var d := DirectionOf(lrOrientation);
    var placed := PlaceNodes(Filter(ResizeTopics(els, measure), IsGraphNode), elk(Request(els, d)).value, d, random);
    assert |placed| == |Filter(els, IsGraphNode)|;
  }

  /**
    The call rejects exactly when ELK does. Otherwise it yields one entry per
    process or topic, in list order, differing from the resized element at
    most in position and anchors, followed by the edges; elements of any other
    kind are dropped. When no element is both a node and an edge, the edges
    are the input's, unchanged, and every node (hidden ones too) carries the
    anchors of the direction.
  */
  lemma GraphLayoutShape(
    els: seq<Element>, lrOrientation: bool, measure: string -> Size,
    elk: LayoutRequest -> Option<seq<LaidNode>>, random: nat -> real)
    ensures GraphLayout(els, lrOrientation, measure, elk, random).None? <==>
      elk(Request(els, DirectionOf(lrOrientation))).None?
    ensures var r, nodes := GraphLayout(els, lrOrientation, measure, elk, random), Filter(els, IsGraphNode);
      r.Some? ==>
        |r.value| == |nodes| + |Filter(els, IsEdge)| &&
        (forall k :: 0 <= k < |nodes| ==> Unplaced(r.value[k]) == Unplaced(Resized(nodes[k], measure))) &&
        r.value[|nodes|..] == ResizeTopics(Filter(els, IsEdge), measure)
    ensures var r, nodes := GraphLayout(els, lrOrientation, measure, elk, random), Filter(els, IsGraphNode);
      r.Some? && Partitioned(els) ==>
        r.value[|nodes|..] == Filter(els, IsEdge) &&
        forall k :: 0 <= k < |nodes| ==>
          r.value[k].targetPosition == Some(if lrOrientation then Left else Top) &&
          r.value[k].sourcePosition == Some(if lrOrientation then Right else Bottom)
  {
    var r := GraphLayout(els, lrOrientation, measure, elk, random);
    var nodes, edges := Filter(els, IsGraphNode), Filter(els, IsEdge);
    if r.Some? {
      var d := DirectionOf(lrOrientation);
      var children := elk(Request(els, d)).value;
      GraphLayoutTail(els, lrOrientation, measure, elk, random);
      forall k | 0 <= k < |nodes| ensures Unplaced(r.value[k]) == Unplaced(Resized(nodes[k], measure)) {
        GraphLayoutAt(els, lrOrientation, measure, elk, random, k);
        PlaceEffect(Resized(nodes[k], measure), children, d, random(k) / 1000.0);
      }
      if Partitioned(els) {
        assert ResizeTopics(edges, measure) == edges by {
          forall k | 0 <= k < |edges| ensures Resized(edges[k], measure) == edges[k] {
            var i :| 0 <= i < |els| && els[i] == edges[k];
          }
        }
        forall k | 0 <= k < |nodes|
          ensures r.value[k].targetPosition == Some(if lrOrientation then Left else Top) &&
            r.value[k].sourcePosition == Some(if lrOrientation then Right else Bottom)
        {
          var i :| 0 <= i < |els| && els[i] == nodes[k];
          GraphLayoutAt(els, lrOrientation, measure, elk, random, k);
          PlaceEffect(Resized(nodes[k], measure), children, d, random(k) / 1000.0);
        }
      }
    }
  }

  /**
    A node ELK laid out ends centred on its placeholder: its y is ELK's y less
    half its extra height, and its x is ELK's x less half its extra width, plus
    a jitter in [0, 0.001).
  */
  lemma LaidOutNodeCentred(
    els: seq<Element>, lrOrientation: bool, measure: string -> Size,
    elk: LayoutRequest -> Option<seq<LaidNode>>, random: nat -> real, k: int)
    requires GraphLayout(els, lrOrientation, measure, elk, random).Some?
    requires 0 <= k < |Filter(els, IsGraphNode)| && !IsEdge(Filter(els, IsGraphNode)[k])
    requires 0.0 <= random(k) < 1.0
    requires var found := FindChild(elk(Request(els, DirectionOf(lrOrientation))).value, Filter(els, IsGraphNode)[k].id);
      found.Some? && LaidOut(found.value)
    ensures k < |GraphLayout(els, lrOrientation, measure, elk, random).value|
    ensures var b := FindChild(elk(Request(els, DirectionOf(lrOrientation))).value, Filter(els, IsGraphNode)[k].id).value;
      var style := Resized(Filter(els, IsGraphNode)[k], measure).style;
      var p := GraphLayout(els, lrOrientation, measure, elk, random).value[k].position;
      p.y == b.y - (style.height - DEFAULT_HEIGHT) / 2.0 &&
      b.x - (style.width - DEFAULT_WIDTH) / 2.0 <= p.x < b.x - (style.width - DEFAULT_WIDTH) / 2.0 + 0.001
  {
    GraphLayoutAt(els, lrOrientation, measure, elk, random, k);
  }

  /**
    A hidden node keeps its position when ELK answers only for submitted nodes
    and no submitted node shares its id.
  */
  lemma HiddenNodeStaysPut(
    els: seq<Element>, lrOrientation: bool, measure: string -> Size,
    elk: LayoutRequest -> Option<seq<LaidNode>>, random: nat -> real, k: int)
    requires GraphLayout(els, lrOrientation, measure, elk, random).Some?
    requires var children := elk(Request(els, DirectionOf(lrOrientation))).value;
      forall j :: 0 <= j < |children| ==> ElkNode(children[j].id, DEFAULT_WIDTH, DEFAULT_HEIGHT) in RequestNodes(els)
    requires 0 <= k < |Filter(els, IsGraphNode)|
    requires forall i :: 0 <= i < |els| && Participates(els[i]) ==> els[i].id != Filter(els, IsGraphNode)[k].id
    ensures k < |GraphLayout(els, lrOrientation, measure, elk, random).value|
    ensures GraphLayout(els, lrOrientation, measure, elk, random).value[k].position == Filter(els, IsGraphNode)[k].position
  {
    var d := DirectionOf(lrOrientation);
    var children := elk(Request(els, d)).value;
    var node := Filter(els, IsGraphNode)[k];
    var f := FindChild(children, node.id);
    if f.Some? {
      var j :| 0 <= j < |children| && children[j] == f.value;
      RequestNodesMember(els, ElkNode(children[j].id, DEFAULT_WIDTH, DEFAULT_HEIGHT));
    }
    GraphLayoutAt(els, lrOrientation, measure, elk, random, k);
    PlaceEffect(Resized(node, measure), children, d, random(k) / 1000.0);
  }

  /**
    The `forEach` over the nodes (lines 62–89): a placeholder per shown
    process or topic, and each shown topic resized in place.
  */
  method SubmitNodes(elements: array<Element>, measure: string -> Size) returns (elkNodes: seq<ElkNode>)
    modifies elements
    ensures elements[..] == ResizeTopics(old(elements[..]), measure)
    ensures elkNodes == RequestNodes(old(elements[..]))
  {
    ghost var els := elements[..];
    elkNodes := [];
    for i := 0 to elements.Length
      invariant forall j :: 0 <= j < i ==> elements[j] == Resized(els[j], measure)
      invariant forall j :: i <= j < elements.Length ==> elements[j] == els[j]
      invariant elkNodes == RequestNodes(els[..i])
    {
      var pushed := SubmitNode(elements, i, measure);
      elkNodes := elkNodes + pushed;
      RequestNodesSnoc(els[..i], els[i]);
      assert els[..i + 1] == els[..i] + [els[i]];
    }
    assert els[..elements.Length] == els;
  }

  /** One call of the `forEach` callback: a shown topic is resized in place; a shown node pushes its placeholder. */
  method SubmitNode(elements: array<Element>, i: int, measure: string -> Size) returns (pushed: seq<ElkNode>)
    requires 0 <= i < elements.Length
    modifies elements
    ensures elements[i] == Resized(old(elements[i]), measure)
    ensures forall j :: 0 <= j < elements.Length && j != i ==> elements[j] == old(elements[j])
    ensures pushed == if Participates(old(elements[i])) then [Placeholder(old(elements[i]))] else []
  {
    var el := elements[i];
    pushed := [];
    if IsGraphNode(el) && NotHidden(el) {
      if IsRosNode(el) {
        pushed := [Placeholder(el)];
      } else if IsRosTopic(el) {
        var size := MeasureText(el.name, measure);
        elements[i] := el.(style := size);
        pushed := [Placeholder(el)];
      }
    }
  }

  /** The `forEach` over the edges (lines 91–101): id, target and source of each shown edge. */
  method SubmitEdges(edges: seq<Element>) returns (elkEdges: seq<ElkEdge>)
    ensures elkEdges == RequestEdges(edges)
  {
    elkEdges := [];
    for i := 0 to |edges|
      invariant elkEdges == RequestEdges(edges[..i])
    {
      var el := edges[i];
      if IsEdge(el) && NotHidden(el) {
        elkEdges := elkEdges + [ElkEdgeOf(el)];
      }
      RequestEdgesSnoc(edges[..i], el);
      assert edges[..i + 1] == edges[..i] + [el];
    }
    assert edges[..|edges|] == edges;
  }

  /**
    `createGraphLayout` over the caller's element array: the request is
    filled (resizing shown topics in place), ELK is called, and the final
    `map` places the nodes.
  */
  method CreateGraphLayout(
    elements: array<Element>, lrOrientation: bool, measure: string -> Size,
    elk: LayoutRequest -> Option<seq<LaidNode>>, random: nat -> real)
    returns (result: Option<seq<Element>>)
    modifies elements
    ensures elements[..] == ResizeTopics(old(elements[..]), measure)
    ensures result == GraphLayout(old(elements[..]), lrOrientation, measure, elk, random)
  {
    var els := elements[..];
    var direction := if lrOrientation then Rightward else Downward;
    var elkNodes := SubmitNodes(elements, measure);
    var elkEdges := SubmitEdges(els);
    var response := elk(LayoutRequest(elkNodes, elkEdges, direction, NODE_SPACING, LayerSpacing(direction)));
    if response.None? {
      return None;
    }
    var resized := elements[..];
    var newNodes := PlaceNodes(Filter(resized, IsGraphNode), response.value, direction, random);
    result := Some(newNodes + Filter(resized, IsEdge));
  }
}
