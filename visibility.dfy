/**
  The visibility resolver of src/SystemViewer.tsx: `selectionChange` derives
  every element's hidden flag from the selected process names, and `hideNode`
  re-selects the visible processes other than one. The viewer's element list
  is the `elements` field of class Viewer; both operations replace it.
*/
module Visibility {
  import opened Seqs
  import opened GraphModel

  /** `ros_nodes`, `ros_topics` and `edges`: the three classified sublists, in list order. */
  function RosNodes(els: seq<Element>): seq<Element> { Filter(els, IsRosNode) }
  function RosTopics(els: seq<Element>): seq<Element> { Filter(els, IsRosTopic) }
  function Edges(els: seq<Element>): seq<Element> { Filter(els, IsEdge) }

  /** A process is selected when its label is non-empty and among the selected names. */
  predicate Selected(node: Element, selectedNames: seq<string>) {
    node.name != "" && node.name in selectedNames
  }

  /** Each process copied with `isHidden` set to "not selected". */
  function ResolveNodes(rosNodes: seq<Element>, selectedNames: seq<string>): seq<Element> {
    seq(|rosNodes|, k requires 0 <= k < |rosNodes| =>
      rosNodes[k].(isHidden := Some(!Selected(rosNodes[k], selectedNames))))
  }

  /** `nodes.find(n => n.id === id)`: the first element with that id, if any. */
  function FindById(nodes: seq<Element>, id: string): Option<Element> {
    First(nodes, IdOf, id)
  }

  predicate UniqueIds(nodes: seq<Element>) {
    forall i, j :: 0 <= i < j < |nodes| ==> nodes[i].id != nodes[j].id
  }

  /** When ids are unique, the element found for an id is the one element carrying it. */
  lemma {:induction false} FindByIdUnique(nodes: seq<Element>, k: int)
    requires UniqueIds(nodes)
    requires 0 <= k < |nodes|
    ensures FindById(nodes, nodes[k].id) == Some(nodes[k])
  {
    if k > 0 {
      assert nodes[0].id != nodes[k].id;
      assert UniqueIds(nodes[1..]) by {
        forall i, j | 0 <= i < j < |nodes[1..]| ensures nodes[1..][i].id != nodes[1..][j].id {
          assert nodes[1..][i] == nodes[i + 1] && nodes[1..][j] == nodes[j + 1];
        }
      }
      FindByIdUnique(nodes[1..], k - 1);
      assert nodes[1..][k - 1] == nodes[k];
    }
  }

  /** The peer found for `peerId` among the new process list exists and is not hidden. */
  predicate PeerShown(newNodes: seq<Element>, peerId: string) {
    var peer := FindById(newNodes, peerId);
    peer.Some? && peer.value.isHidden != Some(true)
  }

  /** Whether a topic with these peers stays hidden: no peer resolves to a shown process. */
  predicate TopicHidden(peerIds: seq<string>, newNodes: seq<Element>) {
    forall k :: 0 <= k < |peerIds| ==> !PeerShown(newNodes, peerIds[k])
  }

  /** The `shouldHide` loop over a topic's peers. */
  method ShouldHide(peerIds: seq<string>, newNodes: seq<Element>) returns (shouldHide: bool)
    ensures shouldHide == TopicHidden(peerIds, newNodes)
  {
    shouldHide := true;
    for i := 0 to |peerIds|
      invariant shouldHide == forall k :: 0 <= k < i ==> !PeerShown(newNodes, peerIds[k])
    {
      var peer := FindById(newNodes, peerIds[i]);
      if peer.Some? && peer.value.isHidden != Some(true) {
        shouldHide := false;
      }
    }
  }

  /** A topic copied with `isHidden` set by its peers among `elements`. */
  function ResolveTopic(topic: Element, elements: seq<Element>, newNodes: seq<Element>): Element {
    topic.(isHidden := Some(TopicHidden(PeerNodeIds(topic, elements), newNodes)))
  }

  function ResolveTopics(rosTopics: seq<Element>, elements: seq<Element>, newNodes: seq<Element>): seq<Element> {
    seq(|rosTopics|, k requires 0 <= k < |rosTopics| => ResolveTopic(rosTopics[k], elements, newNodes))
  }

  /** `isHidden === false`: only an explicit false counts as visible. */
  predicate IsShownNode(e: Element) {
    e.isHidden == Some(false)
  }

  /** `visibleNodeIds`: the ids of the shown processes and topics. */
  function VisibleIds(allNodes: seq<Element>): seq<string> {
    Map(Filter(allNodes, IsShownNode), IdOf)
  }

  lemma VisibleIdsMember(allNodes: seq<Element>, id: string)
    ensures id in VisibleIds(allNodes) <==> exists k :: 0 <= k < |allNodes| && IsShownNode(allNodes[k]) && allNodes[k].id == id
  {
    MapFilterMember(allNodes, IsShownNode, IdOf, id);
  }

  /** Each edge copied with `isHidden` set unless both endpoints are visible ids. */
  function ResolveEdges(edges: seq<Element>, visibleIds: seq<string>): seq<Element>
    requires forall k :: 0 <= k < |edges| ==> IsEdge(edges[k])
  {
    seq(|edges|, k requires 0 <= k < |edges| && IsEdge(edges[k]) =>
      var l := edges[k].link.value;
      edges[k].(isHidden := Some(!(l.source in visibleIds && l.target in visibleIds))))
  }

  function NewNodes(els: seq<Element>, selectedNames: seq<string>): seq<Element> {
    ResolveNodes(RosNodes(els), selectedNames)
  }

  function NewTopics(els: seq<Element>, selectedNames: seq<string>): seq<Element> {
    ResolveTopics(RosTopics(els), els, NewNodes(els, selectedNames))
  }

  function NewEdges(els: seq<Element>, selectedNames: seq<string>): seq<Element> {
    ResolveEdges(Edges(els), VisibleIds(NewNodes(els, selectedNames) + NewTopics(els, selectedNames)))
  }

  /** The list `selectionChange` installs: processes, then topics, then edges. */
  function Resolve(els: seq<Element>, selectedNames: seq<string>): seq<Element> {
    NewNodes(els, selectedNames) + NewTopics(els, selectedNames) + NewEdges(els, selectedNames)
  }

  /** The labels `hideNode` re-selects: those of visible processes other than `nodeId`, in list order. */
  function NamesAfterHide(els: seq<Element>, nodeId: string): seq<string> {
    if |els| == 0 then
      []
    else
      var e := els[0];
      var head := if IsRosNode(e) && e.isHidden == Some(false) && e.id != nodeId then [e.name] else [];
      head + NamesAfterHide(els[1..], nodeId)
  }

  lemma {:induction false} NamesAfterHideMember(els: seq<Element>, nodeId: string, name: string)
    ensures name in NamesAfterHide(els, nodeId) <==>
      exists k :: 0 <= k < |els| && IsRosNode(els[k]) && els[k].isHidden == Some(false) && els[k].id != nodeId && els[k].name == name
  {
    if |els| > 0 {
      NamesAfterHideMember(els[1..], nodeId, name);
      if exists k :: 0 <= k < |els[1..]| && IsRosNode(els[1..][k]) && els[1..][k].isHidden == Some(false) && els[1..][k].id != nodeId && els[1..][k].name == name {
        var k :| 0 <= k < |els[1..]| && IsRosNode(els[1..][k]) && els[1..][k].isHidden == Some(false) && els[1..][k].id != nodeId && els[1..][k].name == name;
        assert els[k + 1] == els[1..][k];
      }
      if exists k :: 0 <= k < |els| && IsRosNode(els[k]) && els[k].isHidden == Some(false) && els[k].id != nodeId && els[k].name == name {
        var k :| 0 <= k < |els| && IsRosNode(els[k]) && els[k].isHidden == Some(false) && els[k].id != nodeId && els[k].name == name;
        if k > 0 {
          assert els[1..][k - 1] == els[k];
        }
      }
    }
  }

  /** The re-selected labels of a concatenation are those of its parts, in order. */
  lemma {:induction false} NamesAfterHideAppend(a: seq<Element>, b: seq<Element>, nodeId: string)
    ensures NamesAfterHide(a + b, nodeId) == NamesAfterHide(a, nodeId) + NamesAfterHide(b, nodeId)
  {
    if |a| == 0 {
      assert a + b == b;
    } else {
      assert (a + b)[1..] == a[1..] + b;
      NamesAfterHideAppend(a[1..], b, nodeId);
    }
  }

  /** A list without processes re-selects nothing. */
  lemma {:induction false} NamesAfterHideWithoutProcesses(els: seq<Element>, nodeId: string)
    requires forall k :: 0 <= k < |els| ==> !IsRosNode(els[k])
    ensures NamesAfterHide(els, nodeId) == []
  {
    if |els| > 0 {
      assert forall k :: 0 <= k < |els[1..]| ==> els[1..][k] == els[k + 1];
      NamesAfterHideWithoutProcesses(els[1..], nodeId);
    }
  }

  // ---------------------------------------------------------------------------
  // Laws of the resolved list

  lemma PartitionedMember(els: seq<Element>, x: Element)
    requires Partitioned(els)
    requires x in els
    ensures !(IsEdge(x) && IsGraphNode(x))
  {
    var j :| 0 <= j < |els| && els[j] == x;
  }

  /** Position `k` of the resolved list lies in the process, topic or edge part. */
  lemma ResolveAt(els: seq<Element>, selectedNames: seq<string>, k: int)
    requires 0 <= k < |Resolve(els, selectedNames)|
    ensures var nn, nt := NewNodes(els, selectedNames), NewTopics(els, selectedNames);
      (k < |nn| ==> Resolve(els, selectedNames)[k] == nn[k]) &&
      (|nn| <= k < |nn| + |nt| ==> Resolve(els, selectedNames)[k] == nt[k - |nn|]) &&
      (|nn| + |nt| <= k ==> Resolve(els, selectedNames)[k] == NewEdges(els, selectedNames)[k - |nn| - |nt|])
  {
  }

  /** The three parts keep the kinds of the elements they were copied from. */
  lemma ResolvedKinds(els: seq<Element>, selectedNames: seq<string>)
    requires Partitioned(els)
    ensures forall k :: 0 <= k < |NewNodes(els, selectedNames)| ==>
      IsRosNode(NewNodes(els, selectedNames)[k]) && !IsEdge(NewNodes(els, selectedNames)[k])
    ensures forall k :: 0 <= k < |NewTopics(els, selectedNames)| ==>
      IsRosTopic(NewTopics(els, selectedNames)[k]) && !IsEdge(NewTopics(els, selectedNames)[k])
    ensures forall k :: 0 <= k < |NewEdges(els, selectedNames)| ==>
      IsEdge(NewEdges(els, selectedNames)[k]) && !IsGraphNode(NewEdges(els, selectedNames)[k])
  {
    var n, t, e := RosNodes(els), RosTopics(els), Edges(els);
    forall k | 0 <= k < |n| ensures !IsEdge(n[k]) {
      PartitionedMember(els, n[k]);
    }
    forall k | 0 <= k < |t| ensures !IsEdge(t[k]) {
      PartitionedMember(els, t[k]);
    }
    forall k | 0 <= k < |e| ensures !IsGraphNode(e[k]) {
      PartitionedMember(els, e[k]);
    }
  }

  /**
    The resolved list holds a copy of every process, then every topic, then
    every edge, each group in list order; a copy differs from its original at
    most in `isHidden`, which is always set.
  */
  lemma ResolveCopies(els: seq<Element>, selectedNames: seq<string>)
    ensures SameButHidden(Resolve(els, selectedNames), RosNodes(els) + RosTopics(els) + Edges(els))
    ensures forall k :: 0 <= k < |Resolve(els, selectedNames)| ==> Resolve(els, selectedNames)[k].isHidden.Some?
  {
    var r, s := Resolve(els, selectedNames), RosNodes(els) + RosTopics(els) + Edges(els);
    forall k | 0 <= k < |r| ensures Unflag(r[k]) == Unflag(s[k]) && r[k].isHidden.Some? {
      CopyAt(els, selectedNames, k);
    }
  }

  lemma CopyAt(els: seq<Element>, selectedNames: seq<string>, k: int)
    requires 0 <= k < |Resolve(els, selectedNames)|
    ensures |Resolve(els, selectedNames)| == |RosNodes(els) + RosTopics(els) + Edges(els)|
    ensures var r, s := Resolve(els, selectedNames), RosNodes(els) + RosTopics(els) + Edges(els);
      Unflag(r[k]) == Unflag(s[k]) && r[k].isHidden.Some?
  {
    ResolveAt(els, selectedNames, k);
    var n, t, e := RosNodes(els), RosTopics(els), Edges(els);
    var s := n + t + e;
    if k < |n| {
      assert s[k] == n[k];
    } else if k < |n| + |t| {
      assert s[k] == t[k - |n|];
    } else {
      assert s[k] == e[k - |n| - |t|];
    }
  }

  /** When every element is exactly one of the three kinds, the three sublists together hold the whole list. */
  lemma {:induction false} SplitKeepsMultiset(els: seq<Element>)
    requires Partitioned(els) && Classified(els)
    ensures multiset(RosNodes(els) + RosTopics(els) + Edges(els)) == multiset(els)
  {
    if |els| > 0 {
      var x, rest := els[0], els[1..];
      assert Partitioned(rest) && Classified(rest) by {
        forall k | 0 <= k < |rest| ensures rest[k] == els[k + 1] { }
      }
      SplitKeepsMultiset(rest);
      assert els == [x] + rest;
      SplitStep(x, rest);
    }
  }

  lemma SplitStep(x: Element, rest: seq<Element>)
    requires !(IsEdge(x) && IsGraphNode(x)) && (IsGraphNode(x) || IsEdge(x))
    ensures multiset(RosNodes([x] + rest) + RosTopics([x] + rest) + Edges([x] + rest)) ==
      multiset([x]) + multiset(RosNodes(rest) + RosTopics(rest) + Edges(rest))
  {
    FilterAppend([x], rest, IsRosNode);
    FilterAppend([x], rest, IsRosTopic);
    FilterAppend([x], rest, IsEdge);
    SplitOne(x);
    InterleavedMultiset(Filter([x], IsRosNode), Filter([x], IsRosTopic), Filter([x], IsEdge), RosNodes(rest), RosTopics(rest), Edges(rest));
  }

  /** An element of exactly one kind lands in exactly one sublist. */
  lemma SplitOne(x: Element)
    requires !(IsEdge(x) && IsGraphNode(x)) && (IsGraphNode(x) || IsEdge(x))
    ensures Filter([x], IsRosNode) + Filter([x], IsRosTopic) + Filter([x], IsEdge) == [x]
  {
    assert [x][1..] == [];
  }

  /** Hidden, not deleted: with every element classified once, the resolved list is the input rearranged by kind, up to hidden flags. */
  lemma ResolveKeepsEveryElement(els: seq<Element>, selectedNames: seq<string>)
    requires Partitioned(els) && Classified(els)
    ensures |Resolve(els, selectedNames)| == |els|
    ensures SameButHidden(Resolve(els, selectedNames), RosNodes(els) + RosTopics(els) + Edges(els))
    ensures multiset(RosNodes(els) + RosTopics(els) + Edges(els)) == multiset(els)
  {
    ResolveCopies(els, selectedNames);
    SplitKeepsMultiset(els);
    assert |multiset(RosNodes(els) + RosTopics(els) + Edges(els))| == |multiset(els)|;
  }

  /** The resolution depends on the three sublists only up to their hidden flags. */
  lemma ResolveByParts(a: seq<Element>, b: seq<Element>, selectedNames: seq<string>)
    requires SameButHidden(RosNodes(a), RosNodes(b))
    requires SameButHidden(RosTopics(a), RosTopics(b))
    requires SameButHidden(Edges(a), Edges(b))
    ensures Resolve(a, selectedNames) == Resolve(b, selectedNames)
  {
    var na, nb := NewNodes(a, selectedNames), NewNodes(b, selectedNames);
    assert na == nb by {
      forall k | 0 <= k < |na| ensures na[k] == nb[k] {
        assert Unflag(RosNodes(a)[k]) == Unflag(RosNodes(b)[k]);
      }
    }
    var ta, tb := NewTopics(a, selectedNames), NewTopics(b, selectedNames);
    assert ta == tb by {
      forall k | 0 <= k < |ta| ensures ta[k] == tb[k] {
        var x, y := RosTopics(a)[k], RosTopics(b)[k];
        assert Unflag(x) == Unflag(y);
        PeerNodeIdsOfEdges(x, a);
        PeerNodeIdsOfEdges(y, b);
        PeerNodeIdsIgnoresHidden(x, y, Edges(a), Edges(b));
      }
    }
    var ea, eb := NewEdges(a, selectedNames), NewEdges(b, selectedNames);
    assert ea == eb by {
      forall k | 0 <= k < |ea| ensures ea[k] == eb[k] {
        assert Unflag(Edges(a)[k]) == Unflag(Edges(b)[k]);
      }
    }
  }

  /** The resulting flags do not depend on the input's hidden flags. */
  lemma ResolveIgnoresInputFlags(a: seq<Element>, b: seq<Element>, selectedNames: seq<string>)
    requires SameButHidden(a, b)
    ensures Resolve(a, selectedNames) == Resolve(b, selectedNames)
  {
    FilterSameButHidden(a, b, IsRosNode);
    FilterSameButHidden(a, b, IsRosTopic);
    FilterSameButHidden(a, b, IsEdge);
    ResolveByParts(a, b, selectedNames);
  }

  lemma ResolvedRosNodes(els: seq<Element>, selectedNames: seq<string>)
    requires Partitioned(els)
    ensures RosNodes(Resolve(els, selectedNames)) == NewNodes(els, selectedNames)
  {
    ResolvedKinds(els, selectedNames);
    var nn, nt, ne := NewNodes(els, selectedNames), NewTopics(els, selectedNames), NewEdges(els, selectedNames);
    FilterThree(nn, nt, ne, IsRosNode);
    FilterAll(nn, IsRosNode);
    FilterNone(nt, IsRosNode);
    FilterNone(ne, IsRosNode);
  }

  lemma ResolvedRosTopics(els: seq<Element>, selectedNames: seq<string>)
    requires Partitioned(els)
    ensures RosTopics(Resolve(els, selectedNames)) == NewTopics(els, selectedNames)
  {
    ResolvedKinds(els, selectedNames);
    var nn, nt, ne := NewNodes(els, selectedNames), NewTopics(els, selectedNames), NewEdges(els, selectedNames);
    FilterThree(nn, nt, ne, IsRosTopic);
    FilterNone(nn, IsRosTopic);
    FilterAll(nt, IsRosTopic);
    FilterNone(ne, IsRosTopic);
  }

  lemma ResolvedEdges(els: seq<Element>, selectedNames: seq<string>)
    requires Partitioned(els)
    ensures Edges(Resolve(els, selectedNames)) == NewEdges(els, selectedNames)
  {
    ResolvedKinds(els, selectedNames);
    var nn, nt, ne := NewNodes(els, selectedNames), NewTopics(els, selectedNames), NewEdges(els, selectedNames);
    FilterThree(nn, nt, ne, IsEdge);
    FilterNone(nn, IsEdge);
    FilterNone(nt, IsEdge);
    FilterAll(ne, IsEdge);
  }

  lemma PartsSameButHidden(els: seq<Element>, selectedNames: seq<string>)
    ensures SameButHidden(NewNodes(els, selectedNames), RosNodes(els))
    ensures SameButHidden(NewTopics(els, selectedNames), RosTopics(els))
    ensures SameButHidden(NewEdges(els, selectedNames), Edges(els))
  {
  }

  /** Applying the same selection twice changes nothing the second time. */
  lemma ResolveIdempotent(els: seq<Element>, selectedNames: seq<string>)
    requires Partitioned(els)
    ensures Resolve(Resolve(els, selectedNames), selectedNames) == Resolve(els, selectedNames)
  {
    ResolvedRosNodes(els, selectedNames);
    ResolvedRosTopics(els, selectedNames);
    ResolvedEdges(els, selectedNames);
    PartsSameButHidden(els, selectedNames);
    ResolveByParts(Resolve(els, selectedNames), els, selectedNames);
  }

  /** Each process of the list is shown exactly when it is selected. */
  predicate NodeLaw(r: seq<Element>, selectedNames: seq<string>) {
    forall k :: 0 <= k < |r| && IsRosNode(r[k]) ==> r[k].isHidden == Some(!Selected(r[k], selectedNames))
  }

  /** Some shown process of the list carries this id. */
  predicate ProcessShownIn(r: seq<Element>, id: string) {
    exists j :: 0 <= j < |r| && IsRosNode(r[j]) && IsShownNode(r[j]) && r[j].id == id
  }

  /** Each topic of the list is hidden exactly when none of its peers is a shown process of the list. */
  predicate TopicLaw(r: seq<Element>) {
    forall k :: 0 <= k < |r| && IsRosTopic(r[k]) ==>
      r[k].isHidden == Some(forall p :: p in PeerNodeIds(r[k], r) ==> !ProcessShownIn(r, p))
  }

  /** Some shown process or topic of the list carries this id. */
  predicate NodeShownIn(r: seq<Element>, id: string) {
    exists j :: 0 <= j < |r| && IsGraphNode(r[j]) && IsShownNode(r[j]) && r[j].id == id
  }

  /** Each edge of the list is shown exactly when both of its endpoints are shown nodes of the list. */
  predicate EdgeLaw(r: seq<Element>) {
    forall k :: 0 <= k < |r| && IsEdge(r[k]) ==>
      r[k].isHidden == Some(!(NodeShownIn(r, r[k].link.value.source) && NodeShownIn(r, r[k].link.value.target)))
  }

  lemma ResolveNodeLaw(els: seq<Element>, selectedNames: seq<string>)
    requires Partitioned(els)
    ensures NodeLaw(Resolve(els, selectedNames), selectedNames)
  {
    ResolvedKinds(els, selectedNames);
    var r := Resolve(els, selectedNames);
    forall k | 0 <= k < |r| && IsRosNode(r[k]) ensures r[k].isHidden == Some(!Selected(r[k], selectedNames)) {
      ResolveAt(els, selectedNames, k);
    }
  }

  /** The ids `selectionChange` treats as visible are those of the shown nodes of its result. */
  lemma VisibleIdsOfResolve(els: seq<Element>, selectedNames: seq<string>, id: string)
    requires Partitioned(els)
    ensures id in VisibleIds(NewNodes(els, selectedNames) + NewTopics(els, selectedNames)) <==>
      NodeShownIn(Resolve(els, selectedNames), id)
  {
    ResolvedKinds(els, selectedNames);
    var all := NewNodes(els, selectedNames) + NewTopics(els, selectedNames);
    var r := Resolve(els, selectedNames);
    VisibleIdsMember(all, id);
    if id in VisibleIds(all) {
      var k :| 0 <= k < |all| && IsShownNode(all[k]) && all[k].id == id;
      ResolveAt(els, selectedNames, k);
      assert r[k] == all[k];
    }
    if NodeShownIn(r, id) {
      var j :| 0 <= j < |r| && IsGraphNode(r[j]) && IsShownNode(r[j]) && r[j].id == id;
      ResolveAt(els, selectedNames, j);
      assert j < |all|;
      assert all[j] == r[j];
    }
  }

  lemma ResolveEdgeLaw(els: seq<Element>, selectedNames: seq<string>)
    requires Partitioned(els)
    ensures EdgeLaw(Resolve(els, selectedNames))
  {
    ResolvedKinds(els, selectedNames);
    var r := Resolve(els, selectedNames);
    forall k | 0 <= k < |r| && IsEdge(r[k])
      ensures r[k].isHidden == Some(!(NodeShownIn(r, r[k].link.value.source) && NodeShownIn(r, r[k].link.value.target)))
    {
      ResolveAt(els, selectedNames, k);
      VisibleIdsOfResolve(els, selectedNames, r[k].link.value.source);
      VisibleIdsOfResolve(els, selectedNames, r[k].link.value.target);
    }
  }

  /** Copying processes keeps their ids. */
  lemma NewNodesUnique(els: seq<Element>, selectedNames: seq<string>)
    requires UniqueIds(RosNodes(els))
    ensures UniqueIds(NewNodes(els, selectedNames))
  {
    var n, nn := RosNodes(els), NewNodes(els, selectedNames);
    forall i, j | 0 <= i < j < |nn| ensures nn[i].id != nn[j].id {
      assert nn[i].id == n[i].id && nn[j].id == n[j].id;
    }
  }

  /** With unique process ids, a peer counts as shown exactly when a shown process of the result carries its id. */
  lemma PeerShownOfResolve(els: seq<Element>, selectedNames: seq<string>, p: string)
    requires Partitioned(els)
    requires UniqueIds(RosNodes(els))
    ensures PeerShown(NewNodes(els, selectedNames), p) <==> ProcessShownIn(Resolve(els, selectedNames), p)
  {
    var nn := NewNodes(els, selectedNames);
    var r := Resolve(els, selectedNames);
    if PeerShown(nn, p) {
      FoundPeerShownIn(els, selectedNames, p);
    }
    if ProcessShownIn(r, p) {
      var j :| 0 <= j < |r| && IsRosNode(r[j]) && IsShownNode(r[j]) && r[j].id == p;
      ShownProcessFound(els, selectedNames, j);
    }
  }

  lemma FoundPeerShownIn(els: seq<Element>, selectedNames: seq<string>, p: string)
    requires PeerShown(NewNodes(els, selectedNames), p)
    ensures ProcessShownIn(Resolve(els, selectedNames), p)
  {
    var nn := NewNodes(els, selectedNames);
    var r := Resolve(els, selectedNames);
    var f := FindById(nn, p).value;
    var j :| 0 <= j < |nn| && nn[j] == f;
    ResolveAt(els, selectedNames, j);
    assert r[j] == f;
    assert IsRosNode(r[j]) && IsShownNode(r[j]) && r[j].id == p;
  }

  lemma ShownProcessFound(els: seq<Element>, selectedNames: seq<string>, j: int)
    requires Partitioned(els)
    requires UniqueIds(RosNodes(els))
    requires 0 <= j < |Resolve(els, selectedNames)|
    requires IsRosNode(Resolve(els, selectedNames)[j]) && IsShownNode(Resolve(els, selectedNames)[j])
    ensures PeerShown(NewNodes(els, selectedNames), Resolve(els, selectedNames)[j].id)
  {
    var nn := NewNodes(els, selectedNames);
    ResolvedKinds(els, selectedNames);
    ResolveAt(els, selectedNames, j);
    assert j < |nn|;
    NewNodesUnique(els, selectedNames);
    FindByIdUnique(nn, j);
  }

  /** `TopicHidden` read as "no peer id is carried by a shown process of `r`". */
  lemma TopicHiddenByShownProcesses(peerIds: seq<string>, newNodes: seq<Element>, r: seq<Element>)
    requires forall p :: PeerShown(newNodes, p) <==> ProcessShownIn(r, p)
    ensures TopicHidden(peerIds, newNodes) <==> forall p :: p in peerIds ==> !ProcessShownIn(r, p)
  {
    if TopicHidden(peerIds, newNodes) {
      forall p | p in peerIds ensures !ProcessShownIn(r, p) {
        var j :| 0 <= j < |peerIds| && peerIds[j] == p;
      }
    }
    if forall p :: p in peerIds ==> !ProcessShownIn(r, p) {
      forall j | 0 <= j < |peerIds| ensures !PeerShown(newNodes, peerIds[j]) {
        assert peerIds[j] in peerIds;
      }
    }
  }

  /** A topic of the result has the same peers in the result as it had in the input. */
  lemma PeersInResolve(els: seq<Element>, selectedNames: seq<string>, i: int)
    requires Partitioned(els)
    requires 0 <= i < |NewTopics(els, selectedNames)|
    ensures PeerNodeIds(NewTopics(els, selectedNames)[i], Resolve(els, selectedNames)) ==
      PeerNodeIds(RosTopics(els)[i], els)
  {
    var t', t := NewTopics(els, selectedNames)[i], RosTopics(els)[i];
    ResolvedEdges(els, selectedNames);
    PartsSameButHidden(els, selectedNames);
    PeerNodeIdsOfEdges(t', Resolve(els, selectedNames));
    PeerNodeIdsOfEdges(t, els);
    PeerNodeIdsIgnoresHidden(t', t, NewEdges(els, selectedNames), Edges(els));
  }

  lemma ResolveTopicLaw(els: seq<Element>, selectedNames: seq<string>)
    requires Partitioned(els)
    requires UniqueIds(RosNodes(els))
    ensures TopicLaw(Resolve(els, selectedNames))
  {
    var r := Resolve(els, selectedNames);
    forall k | 0 <= k < |r| && IsRosTopic(r[k])
      ensures r[k].isHidden == Some(forall p :: p in PeerNodeIds(r[k], r) ==> !ProcessShownIn(r, p))
    {
      ResolvedTopicAt(els, selectedNames, k);
    }
  }

  lemma ResolvedTopicAt(els: seq<Element>, selectedNames: seq<string>, k: int)
    requires Partitioned(els)
    requires UniqueIds(RosNodes(els))
    requires 0 <= k < |Resolve(els, selectedNames)| && IsRosTopic(Resolve(els, selectedNames)[k])
    ensures var r := Resolve(els, selectedNames);
      r[k].isHidden == Some(forall p :: p in PeerNodeIds(r[k], r) ==> !ProcessShownIn(r, p))
  {
    ResolvedKinds(els, selectedNames);
    var nn := NewNodes(els, selectedNames);
    var r := Resolve(els, selectedNames);
    forall p ensures PeerShown(nn, p) <==> ProcessShownIn(r, p) {
      PeerShownOfResolve(els, selectedNames, p);
    }
    ResolveAt(els, selectedNames, k);
    var i := k - |nn|;
    PeersInResolve(els, selectedNames, i);
    TopicHiddenByShownProcesses(PeerNodeIds(RosTopics(els)[i], els), nn, r);
  }

  /** No element of `els` is an edge touching this id. */
  predicate Untouched(els: seq<Element>, id: string) {
    forall j :: 0 <= j < |els| ==> !Touches(els[j], id)
  }

  /** A topic that no edge touches is hidden, whatever the selection. */
  lemma OrphanTopicHidden(els: seq<Element>, selectedNames: seq<string>)
    requires Partitioned(els)
    ensures var r := Resolve(els, selectedNames);
      forall k :: 0 <= k < |r| && IsRosTopic(r[k]) && Untouched(els, r[k].id) ==> r[k].isHidden == Some(true)
  {
    ResolvedKinds(els, selectedNames);
    var r := Resolve(els, selectedNames);
    forall k | 0 <= k < |r| && IsRosTopic(r[k]) && Untouched(els, r[k].id)
      ensures r[k].isHidden == Some(true)
    {
      ResolveAt(els, selectedNames, k);
      OrphanTopicHasNoPeers(RosTopics(els)[k - |NewNodes(els, selectedNames)|], els);
    }
  }

  /** With nothing selected every process is hidden, so no peer counts as shown. */
  lemma NoPeerShownWithoutSelection(els: seq<Element>, p: string)
    ensures !PeerShown(NewNodes(els, []), p)
  {
    var nn := NewNodes(els, []);
    var f := FindById(nn, p);
    if f.Some? {
      var j :| 0 <= j < |nn| && nn[j] == f.value;
    }
  }

  lemma TopicsHiddenWithoutSelection(els: seq<Element>)
    ensures forall k :: 0 <= k < |NewTopics(els, [])| ==> NewTopics(els, [])[k].isHidden == Some(true)
  {
    var nn, nt := NewNodes(els, []), NewTopics(els, []);
    forall k | 0 <= k < |nt| ensures nt[k].isHidden == Some(true) {
      var peers := PeerNodeIds(RosTopics(els)[k], els);
      forall j | 0 <= j < |peers| ensures !PeerShown(nn, peers[j]) {
        NoPeerShownWithoutSelection(els, peers[j]);
      }
    }
  }

  /** Selecting nothing hides every process, topic and edge. */
  lemma EmptySelectionHidesAll(els: seq<Element>)
    ensures forall k :: 0 <= k < |Resolve(els, [])| ==> Resolve(els, [])[k].isHidden == Some(true)
  {
    var nn, nt := NewNodes(els, []), NewTopics(els, []);
    TopicsHiddenWithoutSelection(els);
    assert forall x :: x in nn + nt ==> !IsShownNode(x);
    FilterNone(nn + nt, IsShownNode);
    assert VisibleIds(nn + nt) == [];
    var r := Resolve(els, []);
    forall k | 0 <= k < |r| ensures r[k].isHidden == Some(true) {
      ResolveAt(els, [], k);
    }
  }

  /** Names only matter through the processes they select. */
  lemma SelectionByMatchedNames(els: seq<Element>, a: seq<string>, b: seq<string>)
    requires forall k :: 0 <= k < |els| && IsRosNode(els[k]) ==> Selected(els[k], a) == Selected(els[k], b)
    ensures Resolve(els, a) == Resolve(els, b)
  {
    var n := RosNodes(els);
    assert NewNodes(els, a) == NewNodes(els, b) by {
      forall k | 0 <= k < |n| ensures Selected(n[k], a) == Selected(n[k], b) {
        var j :| 0 <= j < |els| && els[j] == n[k];
      }
    }
  }

  /** A name that matches no process label changes nothing and is not an error. */
  lemma UnknownNameIsNoOp(els: seq<Element>, selectedNames: seq<string>, extra: string)
    requires forall k :: 0 <= k < |els| && IsRosNode(els[k]) ==> els[k].name != extra
    ensures Resolve(els, selectedNames + [extra]) == Resolve(els, selectedNames)
  {
    SelectionByMatchedNames(els, selectedNames + [extra], selectedNames);
  }

  /**
    After `hideNode(nodeId)` a process is hidden exactly unless its label is
    non-empty and carried by a visible process other than `nodeId`; so node
    `nodeId` itself stays shown only when another visible process shares its label.
  */
  lemma HideNodeOutcome(els: seq<Element>, nodeId: string, k: int)
    requires 0 <= k < |RosNodes(els)|
    ensures Resolve(els, NamesAfterHide(els, nodeId))[k].isHidden == Some(true) <==>
      !(RosNodes(els)[k].name != "" &&
        exists j :: 0 <= j < |els| && IsRosNode(els[j]) && els[j].isHidden == Some(false) &&
          els[j].id != nodeId && els[j].name == RosNodes(els)[k].name)
  {
    NamesAfterHideMember(els, nodeId, RosNodes(els)[k].name);
  }

  /** The `ros_topics.map` of `selectionChange`: each topic copied with the verdict of its `shouldHide` loop. */
  method TopicsLoop(rosTopics: seq<Element>, elements: seq<Element>, newNodes: seq<Element>) returns (newTopics: seq<Element>)
    ensures newTopics == ResolveTopics(rosTopics, elements, newNodes)
  {
    newTopics := [];
    for i := 0 to |rosTopics|
      invariant |newTopics| == i
      invariant forall k :: 0 <= k < i ==> newTopics[k] == ResolveTopic(rosTopics[k], elements, newNodes)
    {
      var shouldHide := ShouldHide(PeerNodeIds(rosTopics[i], elements), newNodes);
      newTopics := newTopics + [rosTopics[i].(isHidden := Some(shouldHide))];
    }
  }

  /** The viewer's held element list (the `elements` state). */
  class Viewer {
    var elements: seq<Element>

    constructor (initialElements: seq<Element>)
      ensures elements == initialElements
    {
      elements := initialElements;
    }

    method SelectionChange(selectedNames: seq<string>)
      modifies this
      ensures elements == Resolve(old(elements), selectedNames)
    {
      var els := elements;
      var newNodes := ResolveNodes(RosNodes(els), selectedNames);
      var newTopics := TopicsLoop(RosTopics(els), els, newNodes);
      var allNodes := newNodes + newTopics;
      var newEdges := ResolveEdges(Edges(els), VisibleIds(allNodes));
      elements := allNodes + newEdges;
    }

    method HideNode(nodeId: string)
      modifies this
      ensures elements == Resolve(old(elements), NamesAfterHide(old(elements), nodeId))
    {
      var selectedNames := NamesAfterHide(elements, nodeId);
      SelectionChange(selectedNames);
    }
  }
}
