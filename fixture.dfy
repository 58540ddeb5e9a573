/**
  The diagram of src/initial-elements.ts: processes talker and listener, the
  topics /rosout, /parameter_events and /chatter, and eight edges, all
  initially shown. Edges carry no `data.label`, style or position, which are
  modelled as "", 0×0 and the origin.
*/
module Fixture {
  import opened Seqs
  import opened GraphModel
  import opened Visibility
  import opened Layout

  const NODE_STYLE := Size(275.0, 79.0)
  const ORIGIN := Point(0.0, 0.0)
  const EDGE_KIND := "default"

  const TALKER_ID := "0-bluesalley-130956-0x5571dbae10b0"
  const LISTENER_ID := "0-bluesalley-131016-0x55d655274fb0"
  const ROSOUT_ID := "topic-/rosout"
  const PARAMETER_EVENTS_ID := "topic-/parameter_events"
  const CHATTER_ID := "topic-/chatter"

  function Process(id: string, name: string): Element {
    Element(id, ROS_NODE_KIND, Some(false), name, None, NODE_STYLE, ORIGIN, None, None)
  }

  function Topic(id: string, name: string): Element {
    Element(id, ROS_TOPIC_KIND, Some(false), name, None, NODE_STYLE, ORIGIN, None, None)
  }

  function Connection(id: string, source: string, target: string): Element {
    Element(id, EDGE_KIND, Some(false), "", Some(Link(source, target)), Size(0.0, 0.0), ORIGIN, None, None)
  }

  const TALKER := Process(TALKER_ID, "talker")
  const LISTENER := Process(LISTENER_ID, "listener")
  const ROSOUT := Topic(ROSOUT_ID, "/rosout")
  const PARAMETER_EVENTS := Topic(PARAMETER_EVENTS_ID, "/parameter_events")
  const CHATTER := Topic(CHATTER_ID, "/chatter")

  const TALKER_ROSOUT := Connection("0-bluesalley-130956-0x5571dbae06e0-/rosout", TALKER_ID, ROSOUT_ID)
  const LISTENER_ROSOUT := Connection("0-bluesalley-131016-0x55d65526c3a0-/rosout", LISTENER_ID, ROSOUT_ID)
  const TALKER_PARAMS := Connection("0-bluesalley-130956-0x5571dbb1c0f0-/parameter_events", TALKER_ID, PARAMETER_EVENTS_ID)
  const LISTENER_PARAMS := Connection("0-bluesalley-131016-0x55d6552afeb0-/parameter_events", LISTENER_ID, PARAMETER_EVENTS_ID)
  const PARAMS_TALKER := Connection("0-bluesalley-130956-0x5571dbb22190-/parameter_events", PARAMETER_EVENTS_ID, TALKER_ID)
  const PARAMS_LISTENER := Connection("0-bluesalley-131016-0x55d6552b6040-/parameter_events", PARAMETER_EVENTS_ID, LISTENER_ID)
  const TALKER_CHATTER := Connection("0-bluesalley-130956-0x5571dbb22150-/chatter", TALKER_ID, CHATTER_ID)
  const CHATTER_LISTENER := Connection("0-bluesalley-131016-0x55d6552b51f0-/chatter", CHATTER_ID, LISTENER_ID)

  const PROCESSES := [TALKER, LISTENER]
  const TOPICS := [ROSOUT, PARAMETER_EVENTS, CHATTER]
  const CONNECTIONS := [
    TALKER_ROSOUT, LISTENER_ROSOUT, TALKER_PARAMS, LISTENER_PARAMS,
    PARAMS_TALKER, PARAMS_LISTENER, TALKER_CHATTER, CHATTER_LISTENER]

  /** `initialElements`, in source order. */
  const INITIAL_ELEMENTS := PROCESSES + TOPICS + CONNECTIONS

  /** The five node ids are pairwise distinct. */
  lemma IdsDistinct()
    ensures TALKER_ID != LISTENER_ID
    ensures ROSOUT_ID != PARAMETER_EVENTS_ID && ROSOUT_ID != CHATTER_ID && PARAMETER_EVENTS_ID != CHATTER_ID
    ensures forall t :: t in [ROSOUT_ID, PARAMETER_EVENTS_ID, CHATTER_ID] ==> t != TALKER_ID && t != LISTENER_ID
  {
    assert TALKER_ID[15] != LISTENER_ID[15];
    assert |ROSOUT_ID| != |PARAMETER_EVENTS_ID| && |ROSOUT_ID| != |CHATTER_ID| && |PARAMETER_EVENTS_ID| != |CHATTER_ID|;
    assert TALKER_ID[0] == '0' && LISTENER_ID[0] == '0';
    assert ROSOUT_ID[0] == 't' && PARAMETER_EVENTS_ID[0] == 't' && CHATTER_ID[0] == 't';
  }

  lemma KindsDistinct()
    ensures ROS_NODE_KIND != ROS_TOPIC_KIND && EDGE_KIND != ROS_NODE_KIND && EDGE_KIND != ROS_TOPIC_KIND
  {
    assert ROS_NODE_KIND[3] != ROS_TOPIC_KIND[3];
    assert EDGE_KIND[0] != ROS_NODE_KIND[0] && EDGE_KIND[0] != ROS_TOPIC_KIND[0];
  }

  lemma ListKinds()
    ensures forall x :: x in PROCESSES ==> IsRosNode(x) && !IsRosTopic(x) && !IsEdge(x)
    ensures forall x :: x in TOPICS ==> IsRosTopic(x) && !IsRosNode(x) && !IsEdge(x)
    ensures forall x :: x in CONNECTIONS ==> IsEdge(x) && !IsGraphNode(x)
  {
    ConnectionKinds();
    KindsDistinct();
  }

  lemma ConnectionKinds()
    ensures forall x :: x in CONNECTIONS ==> IsEdge(x) && !IsGraphNode(x)
  {
    KindsDistinct();
  }

  lemma FilterProcesses()
    ensures Filter(PROCESSES, IsRosNode) == PROCESSES && Filter(PROCESSES, IsGraphNode) == PROCESSES
    ensures Filter(PROCESSES, IsRosTopic) == [] && Filter(PROCESSES, IsEdge) == []
  {
    ListKinds();
    FilterAll(PROCESSES, IsRosNode);
    FilterAll(PROCESSES, IsGraphNode);
    FilterNone(PROCESSES, IsRosTopic);
    FilterNone(PROCESSES, IsEdge);
  }

  lemma FilterTopics()
    ensures Filter(TOPICS, IsRosTopic) == TOPICS && Filter(TOPICS, IsGraphNode) == TOPICS
    ensures Filter(TOPICS, IsRosNode) == [] && Filter(TOPICS, IsEdge) == []
  {
    ListKinds();
    FilterAll(TOPICS, IsRosTopic);
    FilterAll(TOPICS, IsGraphNode);
    FilterNone(TOPICS, IsRosNode);
    FilterNone(TOPICS, IsEdge);
  }

  lemma FilterConnections()
    ensures Filter(CONNECTIONS, IsEdge) == CONNECTIONS
    ensures Filter(CONNECTIONS, IsRosNode) == [] && Filter(CONNECTIONS, IsRosTopic) == []
    ensures Filter(CONNECTIONS, IsGraphNode) == []
  {
    ListKinds();
    FilterAll(CONNECTIONS, IsEdge);
    FilterNone(CONNECTIONS, IsRosNode);
    FilterNone(CONNECTIONS, IsRosTopic);
    FilterNone(CONNECTIONS, IsGraphNode);
  }

  lemma FixtureRosNodes()
    ensures RosNodes(INITIAL_ELEMENTS) == PROCESSES
  {
    FilterThree(PROCESSES, TOPICS, CONNECTIONS, IsRosNode);
    FilterProcesses();
    FilterTopics();
    FilterConnections();
  }

  lemma FixtureRosTopics()
    ensures RosTopics(INITIAL_ELEMENTS) == TOPICS
  {
    FilterThree(PROCESSES, TOPICS, CONNECTIONS, IsRosTopic);
    FilterProcesses();
    FilterTopics();
    FilterConnections();
  }

  lemma FixtureEdges()
    ensures Edges(INITIAL_ELEMENTS) == CONNECTIONS
  {
    FilterThree(PROCESSES, TOPICS, CONNECTIONS, IsEdge);
    FilterProcesses();
    FilterTopics();
    FilterConnections();
  }

  lemma FixtureGraphNodes()
    ensures Filter(INITIAL_ELEMENTS, IsGraphNode) == PROCESSES + TOPICS
  {
    FilterThree(PROCESSES, TOPICS, CONNECTIONS, IsGraphNode);
    FilterProcesses();
    FilterTopics();
    FilterConnections();
  }

  /** Every element is shown and of exactly one kind, and every node is styled 275×79. */
  lemma ListFlags()
    ensures forall x :: x in PROCESSES ==> x.isHidden == Some(false) && x.style == NODE_STYLE
    ensures forall x :: x in TOPICS ==> x.isHidden == Some(false) && x.style == NODE_STYLE
    ensures forall x :: x in CONNECTIONS ==> x.isHidden == Some(false)
  {
  }

  lemma FixtureFlags()
    ensures |INITIAL_ELEMENTS| == 13
    ensures Partitioned(INITIAL_ELEMENTS) && Classified(INITIAL_ELEMENTS)
    ensures forall k :: 0 <= k < |INITIAL_ELEMENTS| ==> INITIAL_ELEMENTS[k].isHidden == Some(false)
    ensures forall k :: 0 <= k < |INITIAL_ELEMENTS| && IsGraphNode(INITIAL_ELEMENTS[k]) ==>
      INITIAL_ELEMENTS[k].style == NODE_STYLE
  {
    ListKinds();
    ListFlags();
    var e := INITIAL_ELEMENTS;
    forall k | 0 <= k < |e|
      ensures e[k] in PROCESSES || e[k] in TOPICS || e[k] in CONNECTIONS
    {
      if k < 2 {
        assert e[k] == PROCESSES[k];
      } else if k < 5 {
        assert e[k] == TOPICS[k - 2];
      } else {
        assert e[k] == CONNECTIONS[k - 5];
      }
    }
  }

  /** The fixture holds 2 processes, 3 topics and 8 edges, in that order. */
  lemma FixtureShape()
    ensures RosNodes(INITIAL_ELEMENTS) == PROCESSES && |PROCESSES| == 2
    ensures RosTopics(INITIAL_ELEMENTS) == TOPICS && |TOPICS| == 3
    ensures Edges(INITIAL_ELEMENTS) == CONNECTIONS && |CONNECTIONS| == 8
  {
    FixtureRosNodes();
    FixtureRosTopics();
    FixtureEdges();
  }

  // ---------------------------------------------------------------------------
  // Scenarios

  function Ids(s: seq<Element>): seq<string> {
    Map(s, IdOf)
  }

  lemma ProcessAndTopicIds()
    ensures Ids(RosNodes(INITIAL_ELEMENTS)) == [TALKER_ID, LISTENER_ID]
    ensures Ids(RosTopics(INITIAL_ELEMENTS)) == [ROSOUT_ID, PARAMETER_EVENTS_ID, CHATTER_ID]
  {
    FixtureRosNodes();
    FixtureRosTopics();
    ListIds();
  }

  lemma ListIds()
    ensures Ids(PROCESSES) == [TALKER_ID, LISTENER_ID]
    ensures Ids(TOPICS) == [ROSOUT_ID, PARAMETER_EVENTS_ID, CHATTER_ID]
  {
    assert Ids(PROCESSES)[0] == TALKER_ID && Ids(PROCESSES)[1] == LISTENER_ID;
    assert Ids(TOPICS)[0] == ROSOUT_ID && Ids(TOPICS)[1] == PARAMETER_EVENTS_ID && Ids(TOPICS)[2] == CHATTER_ID;
  }

  /**
    Every edge joins a process id and a topic id of the fixture, one at each
    end, and no id is both; so no edge dangles.
  */
  lemma EdgesJoinProcessAndTopic()
    ensures forall k :: 0 <= k < |Ids(RosNodes(INITIAL_ELEMENTS))| ==> Ids(RosNodes(INITIAL_ELEMENTS))[k] !in Ids(RosTopics(INITIAL_ELEMENTS))
    ensures forall k :: 0 <= k < |Edges(INITIAL_ELEMENTS)| ==>
      var l := Edges(INITIAL_ELEMENTS)[k].link.value;
      (l.source in Ids(RosNodes(INITIAL_ELEMENTS)) && l.target in Ids(RosTopics(INITIAL_ELEMENTS))) ||
      (l.source in Ids(RosTopics(INITIAL_ELEMENTS)) && l.target in Ids(RosNodes(INITIAL_ELEMENTS)))
  {
    ProcessAndTopicIds();
    FixtureEdges();
    IdsDistinct();
  }

  /** The peers among the edges, unrolled one edge at a time. */
  lemma PeersOfConnections(t: Element)
    ensures PeerNodeIds(t, CONNECTIONS) ==
      PeerNodeIds(t, [TALKER_ROSOUT]) + PeerNodeIds(t, [LISTENER_ROSOUT]) +
      PeerNodeIds(t, [TALKER_PARAMS]) + PeerNodeIds(t, [LISTENER_PARAMS]) +
      PeerNodeIds(t, [PARAMS_TALKER]) + PeerNodeIds(t, [PARAMS_LISTENER]) +
      PeerNodeIds(t, [TALKER_CHATTER]) + PeerNodeIds(t, [CHATTER_LISTENER])
  {
    var c := CONNECTIONS;
    assert c == [c[0]] + [c[1]] + [c[2]] + [c[3]] + [c[4]] + [c[5]] + [c[6]] + [c[7]];
    PeerNodeIdsAppend(t, [c[0]] + [c[1]] + [c[2]] + [c[3]] + [c[4]] + [c[5]] + [c[6]], [c[7]]);
    PeerNodeIdsAppend(t, [c[0]] + [c[1]] + [c[2]] + [c[3]] + [c[4]] + [c[5]], [c[6]]);
    PeerNodeIdsAppend(t, [c[0]] + [c[1]] + [c[2]] + [c[3]] + [c[4]], [c[5]]);
    PeerNodeIdsAppend(t, [c[0]] + [c[1]] + [c[2]] + [c[3]], [c[4]]);
    PeerNodeIdsAppend(t, [c[0]] + [c[1]] + [c[2]], [c[3]]);
    PeerNodeIdsAppend(t, [c[0]] + [c[1]], [c[2]]);
    PeerNodeIdsAppend(t, [c[0]], [c[1]]);
  }

  /** Only edges contribute peers. */
  lemma PeersOfFixture(t: Element)
    ensures PeerNodeIds(t, INITIAL_ELEMENTS) == PeerNodeIds(t, CONNECTIONS)
  {
    FixtureEdges();
    PeerNodeIdsOfEdges(t, INITIAL_ELEMENTS);
  }

  lemma RosoutEdgePeers()
    ensures PeerNodeIds(ROSOUT, [TALKER_ROSOUT]) == [TALKER_ID]
    ensures PeerNodeIds(ROSOUT, [LISTENER_ROSOUT]) == [LISTENER_ID]
    ensures PeerNodeIds(ROSOUT, [TALKER_PARAMS]) == []
    ensures PeerNodeIds(ROSOUT, [LISTENER_PARAMS]) == []
    ensures PeerNodeIds(ROSOUT, [PARAMS_TALKER]) == []
    ensures PeerNodeIds(ROSOUT, [PARAMS_LISTENER]) == []
    ensures PeerNodeIds(ROSOUT, [TALKER_CHATTER]) == []
    ensures PeerNodeIds(ROSOUT, [CHATTER_LISTENER]) == []
  {
    IdsDistinct();
    PeerOfOneElement(ROSOUT, TALKER_ROSOUT);
    PeerOfOneElement(ROSOUT, LISTENER_ROSOUT);
    PeerOfOneElement(ROSOUT, TALKER_PARAMS);
    PeerOfOneElement(ROSOUT, LISTENER_PARAMS);
    PeerOfOneElement(ROSOUT, PARAMS_TALKER);
    PeerOfOneElement(ROSOUT, PARAMS_LISTENER);
    PeerOfOneElement(ROSOUT, TALKER_CHATTER);
    PeerOfOneElement(ROSOUT, CHATTER_LISTENER);
  }

  lemma ParameterEventsEdgePeers()
    ensures PeerNodeIds(PARAMETER_EVENTS, [TALKER_ROSOUT]) == []
    ensures PeerNodeIds(PARAMETER_EVENTS, [LISTENER_ROSOUT]) == []
    ensures PeerNodeIds(PARAMETER_EVENTS, [TALKER_PARAMS]) == [TALKER_ID]
    ensures PeerNodeIds(PARAMETER_EVENTS, [LISTENER_PARAMS]) == [LISTENER_ID]
    ensures PeerNodeIds(PARAMETER_EVENTS, [PARAMS_TALKER]) == [TALKER_ID]
    ensures PeerNodeIds(PARAMETER_EVENTS, [PARAMS_LISTENER]) == [LISTENER_ID]
    ensures PeerNodeIds(PARAMETER_EVENTS, [TALKER_CHATTER]) == []
    ensures PeerNodeIds(PARAMETER_EVENTS, [CHATTER_LISTENER]) == []
  {
    IdsDistinct();
    PeerOfOneElement(PARAMETER_EVENTS, TALKER_ROSOUT);
    PeerOfOneElement(PARAMETER_EVENTS, LISTENER_ROSOUT);
    PeerOfOneElement(PARAMETER_EVENTS, TALKER_PARAMS);
    PeerOfOneElement(PARAMETER_EVENTS, LISTENER_PARAMS);
    PeerOfOneElement(PARAMETER_EVENTS, PARAMS_TALKER);
    PeerOfOneElement(PARAMETER_EVENTS, PARAMS_LISTENER);
    PeerOfOneElement(PARAMETER_EVENTS, TALKER_CHATTER);
    PeerOfOneElement(PARAMETER_EVENTS, CHATTER_LISTENER);
  }

  lemma ChatterEdgePeers()
    ensures PeerNodeIds(CHATTER, [TALKER_ROSOUT]) == []
    ensures PeerNodeIds(CHATTER, [LISTENER_ROSOUT]) == []
    ensures PeerNodeIds(CHATTER, [TALKER_PARAMS]) == []
    ensures PeerNodeIds(CHATTER, [LISTENER_PARAMS]) == []
    ensures PeerNodeIds(CHATTER, [PARAMS_TALKER]) == []
    ensures PeerNodeIds(CHATTER, [PARAMS_LISTENER]) == []
    ensures PeerNodeIds(CHATTER, [TALKER_CHATTER]) == [TALKER_ID]
    ensures PeerNodeIds(CHATTER, [CHATTER_LISTENER]) == [LISTENER_ID]
  {
    IdsDistinct();
    PeerOfOneElement(CHATTER, TALKER_ROSOUT);
    PeerOfOneElement(CHATTER, LISTENER_ROSOUT);
    PeerOfOneElement(CHATTER, TALKER_PARAMS);
    PeerOfOneElement(CHATTER, LISTENER_PARAMS);
    PeerOfOneElement(CHATTER, PARAMS_TALKER);
    PeerOfOneElement(CHATTER, PARAMS_LISTENER);
    PeerOfOneElement(CHATTER, TALKER_CHATTER);
    PeerOfOneElement(CHATTER, CHATTER_LISTENER);
  }

  lemma RosoutPeers()
    ensures PeerNodeIds(ROSOUT, INITIAL_ELEMENTS) == [TALKER_ID, LISTENER_ID]
  {
    PeersOfFixture(ROSOUT);
    PeersOfConnections(ROSOUT);
    RosoutEdgePeers();
  }

  /** `/parameter_events` is touched by four edges, two from each process and two back to them. */
  lemma ParameterEventsPeers()
    ensures PeerNodeIds(PARAMETER_EVENTS, INITIAL_ELEMENTS) == [TALKER_ID, LISTENER_ID, TALKER_ID, LISTENER_ID]
  {
    PeersOfFixture(PARAMETER_EVENTS);
    PeersOfConnections(PARAMETER_EVENTS);
    ParameterEventsEdgePeers();
  }

  lemma ChatterPeers()
    ensures PeerNodeIds(CHATTER, INITIAL_ELEMENTS) == [TALKER_ID, LISTENER_ID]
  {
    PeersOfFixture(CHATTER);
    PeersOfConnections(CHATTER);
    ChatterEdgePeers();
  }

  // ---------------------------------------------------------------------------
  // Selecting talker alone

  function Hidden(e: Element): Element {
    e.(isHidden := Some(true))
  }

  /** The diagram after selecting only talker: listener and its four edges are hidden. */
  const TALKER_EDGES := [
    TALKER_ROSOUT, Hidden(LISTENER_ROSOUT), TALKER_PARAMS, Hidden(LISTENER_PARAMS),
    PARAMS_TALKER, Hidden(PARAMS_LISTENER), TALKER_CHATTER, Hidden(CHATTER_LISTENER)]
  const TALKER_ONLY := [TALKER, Hidden(LISTENER)] + TOPICS + TALKER_EDGES

  lemma TalkerNodes()
    ensures NewNodes(INITIAL_ELEMENTS, ["talker"]) == [TALKER, Hidden(LISTENER)]
  {
    FixtureRosNodes();
    assert "listener"[0] != "talker"[0];
  }

  /** Every topic has talker as its first peer, and talker is shown. */
  lemma TalkerTopics()
    ensures NewTopics(INITIAL_ELEMENTS, ["talker"]) == TOPICS
  {
    TalkerNodes();
    FixtureRosTopics();
    RosoutPeers();
    ParameterEventsPeers();
    ChatterPeers();
    var nn := [TALKER, Hidden(LISTENER)];
    assert PeerShown(nn, TALKER_ID);
    assert PeerShown(nn, PeerNodeIds(ROSOUT, INITIAL_ELEMENTS)[0]);
    assert PeerShown(nn, PeerNodeIds(PARAMETER_EVENTS, INITIAL_ELEMENTS)[0]);
    assert PeerShown(nn, PeerNodeIds(CHATTER, INITIAL_ELEMENTS)[0]);
  }

  lemma ShownWithTalker()
    ensures Filter([TALKER, Hidden(LISTENER)] + TOPICS, IsShownNode) == [TALKER] + TOPICS
  {
    FilterAppend([TALKER, Hidden(LISTENER)], TOPICS, IsShownNode);
    ListFlags();
    FilterAll(TOPICS, IsShownNode);
    assert Filter([TALKER, Hidden(LISTENER)], IsShownNode) == [TALKER];
  }

  lemma IdsOfShown()
    ensures Map([TALKER] + TOPICS, IdOf) == [TALKER_ID, ROSOUT_ID, PARAMETER_EVENTS_ID, CHATTER_ID]
  {
    var m := Map([TALKER] + TOPICS, IdOf);
    assert m[0] == TALKER_ID && m[1] == ROSOUT_ID && m[2] == PARAMETER_EVENTS_ID && m[3] == CHATTER_ID;
  }

  lemma TalkerVisibleIds()
    ensures VisibleIds([TALKER, Hidden(LISTENER)] + TOPICS) == TALKER_VISIBLE
  {
    ShownWithTalker();
    IdsOfShown();
  }

  lemma TalkerVisibleMembers()
    ensures LISTENER_ID !in TALKER_VISIBLE
    ensures TALKER_ID in TALKER_VISIBLE && ROSOUT_ID in TALKER_VISIBLE
    ensures PARAMETER_EVENTS_ID in TALKER_VISIBLE && CHATTER_ID in TALKER_VISIBLE
  {
    IdsDistinct();
  }

  const TALKER_VISIBLE := [TALKER_ID, ROSOUT_ID, PARAMETER_EVENTS_ID, CHATTER_ID]

  lemma TalkerEdgeInputs()
    ensures NewEdges(INITIAL_ELEMENTS, ["talker"]) == ResolveEdges(CONNECTIONS, TALKER_VISIBLE)
  {
    FixtureEdges();
    TalkerNodes();
    TalkerTopics();
    TalkerVisibleIds();
  }

  /** An edge stays shown exactly when listener is neither of its ends. */
  lemma TalkerEdgeFlags()
    ensures ResolveEdges(CONNECTIONS, TALKER_VISIBLE) == TALKER_EDGES
  {
    TalkerVisibleMembers();
    var r := ResolveEdges(CONNECTIONS, TALKER_VISIBLE);
    assert r[0] == TALKER_ROSOUT && r[2] == TALKER_PARAMS && r[4] == PARAMS_TALKER && r[6] == TALKER_CHATTER;
    assert r[1] == Hidden(LISTENER_ROSOUT) && r[3] == Hidden(LISTENER_PARAMS);
    assert r[5] == Hidden(PARAMS_LISTENER) && r[7] == Hidden(CHATTER_LISTENER);
  }

  lemma TalkerEdges()
    ensures NewEdges(INITIAL_ELEMENTS, ["talker"]) == TALKER_EDGES
  {
    TalkerEdgeInputs();
    TalkerEdgeFlags();
  }

  /**
    Selecting talker shows talker and every topic, since each topic has talker
    as a peer, and hides listener together with the four edges it ends.
  */
  lemma SelectTalker()
    ensures Resolve(INITIAL_ELEMENTS, ["talker"]) == TALKER_ONLY
  {
    TalkerNodes();
    TalkerTopics();
    TalkerEdges();
  }

  /** Hiding listener from the initial diagram re-selects talker alone. */
  lemma HideListenerNames()
    ensures NamesAfterHide(INITIAL_ELEMENTS, LISTENER_ID) == ["talker"]
  {
    NamesAfterHideAppend(PROCESSES, TOPICS + CONNECTIONS, LISTENER_ID);
    assert INITIAL_ELEMENTS == PROCESSES + (TOPICS + CONNECTIONS);
    NoProcessAfterProcesses();
    NamesAfterHideWithoutProcesses(TOPICS + CONNECTIONS, LISTENER_ID);
    IdsDistinct();
    assert PROCESSES[1..][1..] == [];
  }

  lemma NoProcessAfterProcesses()
    ensures forall k :: 0 <= k < |TOPICS + CONNECTIONS| ==> !IsRosNode((TOPICS + CONNECTIONS)[k])
  {
    ListKinds();
    assert forall k :: 0 <= k < |TOPICS + CONNECTIONS| ==> (TOPICS + CONNECTIONS)[k] in TOPICS || (TOPICS + CONNECTIONS)[k] in CONNECTIONS;
  }

  /** `hideNode` on listener gives the same diagram as selecting talker. */
  lemma HideListener()
    ensures Resolve(INITIAL_ELEMENTS, NamesAfterHide(INITIAL_ELEMENTS, LISTENER_ID)) == TALKER_ONLY
  {
    HideListenerNames();
    SelectTalker();
  }

  /** Clearing the selection hides all thirteen elements and removes none. */
  lemma SelectNothing()
    ensures |Resolve(INITIAL_ELEMENTS, [])| == 13
    ensures forall k :: 0 <= k < 13 ==> Resolve(INITIAL_ELEMENTS, [])[k].isHidden == Some(true)
  {
    FixtureFlags();
    ResolveKeepsEveryElement(INITIAL_ELEMENTS, []);
    EmptySelectionHidesAll(INITIAL_ELEMENTS);
  }

  // ---------------------------------------------------------------------------
  // Laying out the initial diagram

  /**
    A process of the initial diagram is drawn with its 275×79 box centred on
    the 200×50 box ELK placed: 37.5 left of it (plus under 0.001 of jitter)
    and 14.5 above it.
  */
  lemma ProcessOffset(
    lrOrientation: bool, measure: string -> Size, elk: LayoutRequest -> Option<seq<LaidNode>>,
    random: nat -> real, k: int)
    requires GraphLayout(INITIAL_ELEMENTS, lrOrientation, measure, elk, random).Some?
    requires 0 <= k < |PROCESSES| && 0.0 <= random(k) < 1.0
    requires var found := FindChild(elk(Request(INITIAL_ELEMENTS, DirectionOf(lrOrientation))).value, PROCESSES[k].id);
      found.Some? && LaidOut(found.value)
    ensures |GraphLayout(INITIAL_ELEMENTS, lrOrientation, measure, elk, random).value| == 13
    ensures var b := FindChild(elk(Request(INITIAL_ELEMENTS, DirectionOf(lrOrientation))).value, PROCESSES[k].id).value;
      var p := GraphLayout(INITIAL_ELEMENTS, lrOrientation, measure, elk, random).value[k].position;
      p.y == b.y - 14.5 && b.x - 37.5 <= p.x < b.x - 37.5 + 0.001
  {
    FixtureLayoutLength(lrOrientation, measure, elk, random);
    FixtureProcessAt(k, measure);
    LaidOutNodeCentred(INITIAL_ELEMENTS, lrOrientation, measure, elk, random, k);
  }

  lemma FixtureLayoutLength(
    lrOrientation: bool, measure: string -> Size, elk: LayoutRequest -> Option<seq<LaidNode>>, random: nat -> real)
    requires GraphLayout(INITIAL_ELEMENTS, lrOrientation, measure, elk, random).Some?
    ensures |GraphLayout(INITIAL_ELEMENTS, lrOrientation, measure, elk, random).value| == 13
  {
    FixtureGraphNodes();
    FixtureEdges();
    GraphLayoutShape(INITIAL_ELEMENTS, lrOrientation, measure, elk, random);
  }

  lemma FixtureProcessAt(k: int, measure: string -> Size)
    requires 0 <= k < |PROCESSES|
    ensures k < |Filter(INITIAL_ELEMENTS, IsGraphNode)| && Filter(INITIAL_ELEMENTS, IsGraphNode)[k] == PROCESSES[k]
    ensures !IsEdge(PROCESSES[k]) && Resized(PROCESSES[k], measure).style == NODE_STYLE
  {
    FixtureGraphNodes();
    ListKinds();
    assert (PROCESSES + TOPICS)[k] == PROCESSES[k];
  }
}
