/**
  What happens when the viewer lays out the list `selectionChange` installed
  (src/SystemViewer.tsx `toggleOrientation` and `layoutGraph` pass the current
  elements to `createGraphLayout`): ELK is never sent an edge whose ends are
  not among the nodes it is sent.
*/
module Pipeline {
  import opened GraphModel
  import opened Visibility
  import opened Layout

  /** Every submitted edge has both endpoints among the submitted placeholders. */
  predicate Closed(req: LayoutRequest) {
    forall ed :: ed in req.edges ==>
      ElkNode(ed.source, DEFAULT_WIDTH, DEFAULT_HEIGHT) in req.children &&
      ElkNode(ed.target, DEFAULT_WIDTH, DEFAULT_HEIGHT) in req.children
  }

  /** A shown node of the list is submitted as a placeholder. */
  lemma ShownNodeSubmitted(r: seq<Element>, id: string)
    requires NodeShownIn(r, id)
    ensures ElkNode(id, DEFAULT_WIDTH, DEFAULT_HEIGHT) in RequestNodes(r)
  {
    var j :| 0 <= j < |r| && IsGraphNode(r[j]) && IsShownNode(r[j]) && r[j].id == id;
    assert Participates(r[j]);
    RequestNodesMember(r, ElkNode(id, DEFAULT_WIDTH, DEFAULT_HEIGHT));
  }

  /** A list obeying the edge law yields a closed request, in either direction. */
  lemma EdgeLawCloses(r: seq<Element>, d: Direction)
    requires EdgeLaw(r)
    ensures Closed(Request(r, d))
  {
    forall ed | ed in RequestEdges(r)
      ensures ElkNode(ed.source, DEFAULT_WIDTH, DEFAULT_HEIGHT) in RequestNodes(r)
      ensures ElkNode(ed.target, DEFAULT_WIDTH, DEFAULT_HEIGHT) in RequestNodes(r)
    {
      RequestEdgesMember(r, ed);
      var k :| 0 <= k < |r| && IsLaidEdge(r[k]) && ElkEdgeOf(r[k]) == ed;
      ShownNodeSubmitted(r, ed.source);
      ShownNodeSubmitted(r, ed.target);
    }
  }

  /** Laying out a resolved list never submits a dangling edge. */
  lemma ResolvedRequestClosed(els: seq<Element>, selectedNames: seq<string>, lrOrientation: bool)
    requires Partitioned(els)
    ensures Closed(Request(Resolve(els, selectedNames), DirectionOf(lrOrientation)))
  {
    ResolveEdgeLaw(els, selectedNames);
    EdgeLawCloses(Resolve(els, selectedNames), DirectionOf(lrOrientation));
  }
}
