/**
  The diagram's flat element list and the classification helpers of
  src/utils/utils.ts. An element is a process node (`type` "rosNode"), a
  topic node (`type` "rosTopic") or an edge (any element with a `source`
  field); the three tests are independent of one another.
*/
module GraphModel {
  import opened Seqs

  datatype Option<T> = None | Some(value: T)

  /** A side of a node box where edges attach (react-flow's `Position`). */
  datatype Side = Left | Right | Top | Bottom

  datatype Size = Size(width: real, height: real)
  datatype Point = Point(x: real, y: real)

  /** The `source`/`target` pair carried by an edge element. */
  datatype Link = Link(source: string, target: string)

  /**
    One diagram element. `kind` is the `type` tag ("" when absent), `isHidden`
    is None when the field is absent, `name` is `data.label` ("" when absent),
    `link` is present exactly when the element has a `source` field, and
    `style`, `position` and the two anchor sides are the rendering fields the
    layout adapter reads and writes.
  */
  datatype Element = Element(
    id: string,
    kind: string,
    isHidden: Option<bool>,
    name: string,
    link: Option<Link>,
    style: Size,
    position: Point,
    targetPosition: Option<Side>,
    sourcePosition: Option<Side>)

  /**
    `Array.prototype.find` with an id test: the first entry whose key is
    `id`, or None when no entry has that key.
  */
  function First<T>(s: seq<T>, key: T -> string, id: string): (r: Option<T>)
    ensures r.Some? ==> r.value in s && key(r.value) == id
    ensures r.None? ==> forall k :: 0 <= k < |s| ==> key(s[k]) != id
  {
    if |s| == 0 then None
    else if key(s[0]) == id then Some(s[0])
    else First(s[1..], key, id)
  }

  /** The match is the earliest: every entry before it has another key. */
  lemma {:induction false} FirstIsEarliest<T>(s: seq<T>, key: T -> string, id: string)
    requires First(s, key, id).Some?
    ensures exists k ::
      0 <= k < |s| && s[k] == First(s, key, id).value && forall j :: 0 <= j < k ==> key(s[j]) != id
  {
    if key(s[0]) != id {
      FirstIsEarliest(s[1..], key, id);
      var k :| 0 <= k < |s[1..]| && s[1..][k] == First(s[1..], key, id).value && forall j :: 0 <= j < k ==> key(s[1..][j]) != id;
      forall j | 0 <= j < k + 1 ensures key(s[j]) != id {
        if j > 0 {
          assert s[j] == s[1..][j - 1];
        }
      }
    }
  }

  const ROS_NODE_KIND := "rosNode"
  const ROS_TOPIC_KIND := "rosTopic"

  predicate IsRosNode(e: Element) {
    e.kind == ROS_NODE_KIND
  }

  /** Decided by the tag alone, so no element is both a process and a topic. */
  predicate IsRosTopic(e: Element)
    ensures IsRosTopic(e) ==> !IsRosNode(e)
  {
    e.kind == ROS_TOPIC_KIND
  }

  /** `hasOwnProperty(element, 'source')`: decided by the field, not by the tag. */
  predicate IsEdge(e: Element) {
    e.link.Some?
  }

  function IdOf(e: Element): string { e.id }

  /** A node the layout adapter places: a process or a topic. */
  predicate IsGraphNode(e: Element) {
    IsRosNode(e) || IsRosTopic(e)
  }

  /** Changing the `type` tag never makes an element an edge or stops it being one. */
  lemma EdgeIgnoresKind(e: Element, kind: string)
    ensures IsEdge(e.(kind := kind)) == IsEdge(e)
    ensures IsRosNode(e.(kind := kind)) <==> kind == ROS_NODE_KIND
    ensures IsRosTopic(e.(kind := kind)) <==> kind == ROS_TOPIC_KIND
  {
  }

  /** No element of the list is both a node (process or topic) and an edge. */
  predicate Partitioned(els: seq<Element>) {
    forall k :: 0 <= k < |els| ==> !(IsEdge(els[k]) && IsGraphNode(els[k]))
  }

  /** Every element of the list is a process, a topic or an edge. */
  predicate Classified(els: seq<Element>) {
    forall k :: 0 <= k < |els| ==> IsGraphNode(els[k]) || IsEdge(els[k])
  }

  /** The element with its hidden flag erased: what a copy `{...e, isHidden: b}` keeps. */
  function Unflag(e: Element): Element {
    e.(isHidden := None)
  }

  /** `a` and `b` hold the same elements in the same order, except perhaps for their hidden flags. */
  predicate SameButHidden(a: seq<Element>, b: seq<Element>) {
    |a| == |b| && forall k :: 0 <= k < |a| ==> Unflag(a[k]) == Unflag(b[k])
  }

  /** Whether edge element `e` has the topic id as its source or its target. */
  predicate Touches(e: Element, topicId: string) {
    e.link.Some? && (e.link.value.source == topicId || e.link.value.target == topicId)
  }

  /** The endpoint of `l` opposite the topic: the target when the source is the topic, else the source. */
  function Opposite(l: Link, topicId: string): string {
    if l.source == topicId then l.target else l.source
  }

  /**
    `getPeerNodeIds`: one id per edge of `els` touching the topic, in list
    order, the endpoint opposite the topic. Hidden flags are not consulted.
  */
  function PeerNodeIds(topic: Element, els: seq<Element>): (ids: seq<string>)
    ensures |ids| <= |els|
  {
    if |els| == 0 then
      []
    else
      var head := if Touches(els[0], topic.id) then [Opposite(els[0].link.value, topic.id)] else [];
      head + PeerNodeIds(topic, els[1..])
  }

  /** The peers of a concatenation are the peers of each part, in order. */
  lemma {:induction false} PeerNodeIdsAppend(topic: Element, a: seq<Element>, b: seq<Element>)
    ensures PeerNodeIds(topic, a + b) == PeerNodeIds(topic, a) + PeerNodeIds(topic, b)
  {
    if |a| == 0 {
      assert a + b == b;
    } else {
      assert (a + b)[1..] == a[1..] + b;
      PeerNodeIdsAppend(topic, a[1..], b);
    }
  }

  /**
    One element contributes one id when it is an edge touching the topic and
    none otherwise; a self-loop on the topic contributes the topic's own id.
  */
  lemma PeerOfOneElement(topic: Element, e: Element)
    ensures !Touches(e, topic.id) ==> PeerNodeIds(topic, [e]) == []
    ensures e.link == Some(Link(topic.id, topic.id)) ==> PeerNodeIds(topic, [e]) == [topic.id]
    ensures e.link.Some? && e.link.value.source == topic.id ==> PeerNodeIds(topic, [e]) == [e.link.value.target]
    ensures e.link.Some? && e.link.value.source != topic.id && e.link.value.target == topic.id ==>
      PeerNodeIds(topic, [e]) == [e.link.value.source]
  {
    assert [e][1..] == [];
  }

  /** The `filter` test of `getPeerNodeIds`: an edge with the topic at one end. */
  function TouchesTopic(topicId: string): Element -> bool {
    (e: Element) => Touches(e, topicId)
  }

  /** The `map` step of `getPeerNodeIds`: the end of an edge opposite the topic. */
  function OppositeEnd(topicId: string): Element --> string {
    (e: Element) requires e.link.Some? => Opposite(e.link.value, topicId)
  }

  /** `getPeerNodeIds` in the source's own shape: filter the touching edges, then map each to its other end. */
  lemma {:induction false} PeerNodeIdsIsFilterMap(topic: Element, els: seq<Element>)
    ensures PeerNodeIds(topic, els) == Map(Filter(els, TouchesTopic(topic.id)), OppositeEnd(topic.id))
  {
    if |els| > 0 {
      var p, f := TouchesTopic(topic.id), OppositeEnd(topic.id);
      var head := if p(els[0]) then [els[0]] else [];
      var tail := Filter(els[1..], p);
      var ids := if Touches(els[0], topic.id) then [Opposite(els[0].link.value, topic.id)] else [];
      assert Filter(els, p) == head + tail;
      assert PeerNodeIds(topic, els) == ids + PeerNodeIds(topic, els[1..]);
      assert Map(head, f) == ids;
      PeerNodeIdsIsFilterMap(topic, els[1..]);
      MapAppend(head, tail, f);
    }
  }

  /** An id is a peer exactly when some touching edge has it as the endpoint opposite the topic. */
  lemma {:induction false} PeerNodeIdsMember(topic: Element, els: seq<Element>, peer: string)
    ensures peer in PeerNodeIds(topic, els) <==>
      exists k :: 0 <= k < |els| && Touches(els[k], topic.id) && Opposite(els[k].link.value, topic.id) == peer
  {
    if |els| > 0 {
      PeerNodeIdsMember(topic, els[1..], peer);
      if peer in PeerNodeIds(topic, els[1..]) {
        var k :| 0 <= k < |els[1..]| && Touches(els[1..][k], topic.id) && Opposite(els[1..][k].link.value, topic.id) == peer;
        assert els[k + 1] == els[1..][k];
      }
      if exists k :: 0 <= k < |els| && Touches(els[k], topic.id) && Opposite(els[k].link.value, topic.id) == peer {
        var k :| 0 <= k < |els| && Touches(els[k], topic.id) && Opposite(els[k].link.value, topic.id) == peer;
        if k > 0 {
          assert els[1..][k - 1] == els[k];
        }
      }
    }
  }

  /** A topic no edge touches has no peers, and conversely. */
  lemma OrphanTopicHasNoPeers(topic: Element, els: seq<Element>)
    ensures PeerNodeIds(topic, els) == [] <==> forall k :: 0 <= k < |els| ==> !Touches(els[k], topic.id)
  {
    var ids := PeerNodeIds(topic, els);
    if ids != [] {
      PeerNodeIdsMember(topic, els, ids[0]);
    } else {
      forall k | 0 <= k < |els| ensures !Touches(els[k], topic.id) {
        if Touches(els[k], topic.id) {
          PeerNodeIdsMember(topic, els, Opposite(els[k].link.value, topic.id));
        }
      }
    }
  }

  /**
    The peers depend on the topic only through its id and on the list only
    through its elements' links: hidden flags (of edges or anything else) do not matter.
  */
  lemma {:induction false} PeerNodeIdsIgnoresHidden(t1: Element, t2: Element, a: seq<Element>, b: seq<Element>)
    requires t1.id == t2.id
    requires SameButHidden(a, b)
    ensures PeerNodeIds(t1, a) == PeerNodeIds(t2, b)
  {
    if |a| > 0 {
      assert Unflag(a[0]) == Unflag(b[0]);
      assert a[0].link == b[0].link;
      assert SameButHidden(a[1..], b[1..]) by {
        forall k | 0 <= k < |a[1..]| ensures Unflag(a[1..][k]) == Unflag(b[1..][k]) {
          assert Unflag(a[k + 1]) == Unflag(b[k + 1]);
        }
      }
      PeerNodeIdsIgnoresHidden(t1, t2, a[1..], b[1..]);
    }
  }

  /** Elements that are not edges never contribute: only the edge sublist matters. */
  lemma {:induction false} PeerNodeIdsOfEdges(topic: Element, els: seq<Element>)
    ensures PeerNodeIds(topic, els) == PeerNodeIds(topic, Filter(els, IsEdge))
  {
    if |els| > 0 {
      PeerNodeIdsOfEdges(topic, els[1..]);
      var head := if IsEdge(els[0]) then [els[0]] else [];
      assert Filter(els, IsEdge) == head + Filter(els[1..], IsEdge);
      PeerNodeIdsAppend(topic, head, Filter(els[1..], IsEdge));
      if IsEdge(els[0]) {
        assert [els[0]][1..] == [];
      }
    }
  }

  /** Filtering by a test that ignores hidden flags keeps two lists equal up to hidden flags. */
  lemma {:induction false} FilterSameButHidden(a: seq<Element>, b: seq<Element>, p: Element -> bool)
    requires SameButHidden(a, b)
    requires forall e :: p(e) == p(Unflag(e))
    ensures SameButHidden(Filter(a, p), Filter(b, p))
  {
    if |a| > 0 {
      assert Unflag(a[0]) == Unflag(b[0]);
      assert p(a[0]) == p(Unflag(a[0])) == p(b[0]);
      assert SameButHidden(a[1..], b[1..]) by {
        forall k | 0 <= k < |a[1..]| ensures Unflag(a[1..][k]) == Unflag(b[1..][k]) {
          assert Unflag(a[k + 1]) == Unflag(b[k + 1]);
        }
      }
      FilterSameButHidden(a[1..], b[1..], p);
      var fa, fb := Filter(a, p), Filter(b, p);
      var ta, tb := Filter(a[1..], p), Filter(b[1..], p);
      if p(a[0]) {
        assert fa == [a[0]] + ta && fb == [b[0]] + tb;
        forall k | 0 <= k < |fa| ensures Unflag(fa[k]) == Unflag(fb[k]) {
          if k > 0 {
            assert fa[k] == ta[k - 1] && fb[k] == tb[k - 1];
          }
        }
      } else {
        assert fa == ta && fb == tb;
      }
    }
  }
}
