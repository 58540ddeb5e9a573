# system_viewer — a Dafny model of the viewer's element logic

The system viewer draws a running ROS 2 system as a react-flow diagram:
processes (`rosNode` elements) and topics (`rosTopic` elements) are nodes,
and publish/subscribe connections are edges from a process to a topic or
back. This project models the part of the viewer that decides what the
diagram holds:

- `utils.ts`: classifying an element as a process, a topic or an edge, and
  finding the processes a topic is connected to (its *peers*) — module
  `GraphModel` (graph_model.dfy).
- `SystemViewer.tsx`: `selectionChange`, which resolves every element's
  hidden flag from the set of selected process labels, and `hideNode`,
  which re-selects every visible process except one — module `Visibility`
  (visibility.dfy), with the viewer's element state as class
  `Visibility.Viewer`.
- `layout.ts`: `measureText` and `createGraphLayout`, which resize the
  shown topics in place, submit placeholders and shown edges to the ELK
  layout engine and re-centre the nodes on the boxes ELK returns — module
  `Layout` (layout.dfy), a method over an `array<Element>`.
- `SystemViewToolbar.tsx`: the orientation switch, the "include hidden
  nodes" checkbox and `filterNodeList`, which lists the processes and drops
  those whose label starts with `_` — module `Toolbar` (toolbar.dfy), with
  the toolbar state as class `Toolbar.SystemViewToolbar`.
- `initial-elements.ts`: the talker/listener diagram shown at start-up, with
  concrete outcomes of selection, hiding and layout on it — module `Fixture`
  (fixture.dfy).
- Module `Pipeline` (pipeline.dfy) joins the resolver and the layout
  adapter: when the viewer lays out a resolved list, every edge ELK receives
  has both endpoints among the nodes it receives.
- Module `Seqs` (seqs.dfy) defines the `filter` and `map` combinators the
  code leans on, and facts about them.

Modelling choices:

- An element's `isHidden` is `Option<bool>`, because JavaScript's
  `undefined` matters. The layout's `!el.isHidden` treats a missing flag as
  shown (`Layout.NotHidden`). The `isHidden === false` tests in
  `selectionChange` and `hideNode` treat it as not visible
  (`Visibility.IsShownNode`).
- `data.label` is the field `name`, and a missing label is modelled as `""`.
  `selectionChange`, `measureText` and the `includes` test that a re-selected
  name goes through all test a label for truthiness, so for them the two
  agree. `filterNodeList` and `hideNode` read the label without such a test.
  There, a missing label or `data` makes the code throw, which the model
  does not reproduce (see "## Left out").
- `isEdge` asks whether the element has a `source` field. In the model that
  is `link.Some?`, so it does not depend on the `type` tag.
- The three filters in `selectionChange` are independent. An element that
  were both a `rosNode` and an edge would be copied twice. The laws about
  the result are therefore proved for lists where no element is both
  (`GraphModel.Partitioned`). Where needed, they also assume every element
  is one of the three kinds (`GraphModel.Classified`).
- `Array.prototype.find` returns the first match. The topic law therefore
  assumes process ids are unique.
- Outside the model:
  - The ELK engine is a parameter `elk: LayoutRequest -> Option<seq<LaidNode>>`.
    `None` is a rejected promise.
  - The text measurer (`calculateSize` with the theme's font) is a parameter
    `measure: string -> Size`.
  - `Math.random()` is a parameter `random: nat -> real`, indexed by the
    node's position.

## Model

| member | source | states |
|---|---|---|
| GraphModel.IsRosTopic | src/utils/utils.ts:17-23 | An element tagged as a topic is never a process: the two tests read the one `type` tag. |
| GraphModel.EdgeIgnoresKind | src/utils/utils.ts:17-29 | Retagging an element never changes whether it is an edge, because that test looks at the `source` field. It is a process or a topic exactly when the new tag says so. |
| GraphModel.PeerNodeIds | src/utils/utils.ts:31-43 | A topic has at most one peer per element of the list. |
| GraphModel.PeerNodeIdsAppend | src/utils/utils.ts:31-43 | The peers of a concatenation are the peers of its parts, in list order. |
| GraphModel.PeerOfOneElement | src/utils/utils.ts:31-43 | What one element contributes. An element that is not an edge touching the topic contributes nothing. An edge whose source is the topic contributes its target; otherwise an edge whose target is the topic contributes its source. A self-loop contributes the topic itself. |
| GraphModel.PeerNodeIdsMember | src/utils/utils.ts:31-43 | An id is a peer exactly when some edge of the list touches the topic and has that id at its other end. |
| GraphModel.OrphanTopicHasNoPeers | src/utils/utils.ts:31-43 | A topic has no peers if and only if no edge of the list touches it. |
| GraphModel.PeerNodeIdsIgnoresHidden | src/utils/utils.ts:31-43 | Peers do not depend on hidden flags, either the topic's or the list's. |
| GraphModel.PeerNodeIdsIsFilterMap | src/utils/utils.ts:31-43 | The peers are the touching edges, filtered in list order, each mapped to its end opposite the topic: the source's filter-then-map. |
| GraphModel.PeerNodeIdsOfEdges | src/utils/utils.ts:31-43 | Only edges contribute peers: the peers in the list equal the peers in its edge sublist. |
| GraphModel.First | src/SystemViewer.tsx:104 | The `find` by id used for peers and for ELK's boxes. A match is in the list and carries the id. No match means no entry carries the id. |
| GraphModel.FirstIsEarliest | src/layout.ts:120 | The match is the first entry with the id: every entry before it has another id. |
| Visibility.FindByIdUnique | src/SystemViewer.tsx:104 | When ids are unique, `find` returns the one element carrying the id. |
| Visibility.ShouldHide | src/SystemViewer.tsx:101-108 | The `shouldHide` loop ends true exactly when no peer id resolves, in the new process list, to a process that is not hidden. |
| Visibility.VisibleIdsMember | src/SystemViewer.tsx:116-122 | An id is visible exactly when a process or topic of the new list carries it with `isHidden` explicitly false. |
| Visibility.NamesAfterHideMember | src/SystemViewer.tsx:72-79 | A label is re-selected exactly when some process of the list has it, is visible (`isHidden == false`) and is not `nodeId`. |
| Visibility.NamesAfterHideAppend | src/SystemViewer.tsx:74-79 | The re-selected labels keep the list order. |
| Visibility.NamesAfterHideWithoutProcesses | src/SystemViewer.tsx:74-76 | A list without processes re-selects nothing. |
| Visibility.ResolveAt | src/SystemViewer.tsx:116-140 | Every position of the result lies in the copied processes, the copied topics or the copied edges, in that order. |
| Visibility.ResolvedKinds | src/SystemViewer.tsx:84-123 | The copies keep their kinds: copied processes and topics are not edges, and copied edges are not nodes. |
| Visibility.ResolveCopies | src/SystemViewer.tsx:87-140 | The result is the processes, then the topics, then the edges of the input. They are copied with only their hidden flag changed, and every flag is set. |
| Visibility.SplitKeepsMultiset | src/SystemViewer.tsx:84-123 | When every element is exactly one kind, the three sublists together hold each input element exactly as often as the input does. |
| Visibility.ResolveKeepsEveryElement | src/SystemViewer.tsx:83-142 | Selection hides and never deletes. With every element of exactly one kind, the result has the input's length and is a permutation of the input grouped by kind, up to hidden flags. |
| Visibility.ResolveByParts | src/SystemViewer.tsx:83-142 | The result depends only on the three sublists, up to their hidden flags. |
| Visibility.ResolveIgnoresInputFlags | src/SystemViewer.tsx:83-142 | The flags the input carries have no effect on the result. |
| Visibility.ResolvedRosNodes | src/SystemViewer.tsx:87-98 | The processes of the result are the new process list. |
| Visibility.ResolvedRosTopics | src/SystemViewer.tsx:100-114 | The topics of the result are the new topic list. |
| Visibility.ResolvedEdges | src/SystemViewer.tsx:123-140 | The edges of the result are the new edge list. |
| Visibility.PartsSameButHidden | src/SystemViewer.tsx:87-138 | Each new sublist equals its input sublist up to hidden flags. |
| Visibility.ResolveIdempotent | src/SystemViewer.tsx:83-142 | Re-applying the same selection to its result changes nothing. |
| Visibility.ResolveNodeLaw | src/SystemViewer.tsx:87-98 | In the result, each process is shown exactly when its label is non-empty and among the selected names. |
| Visibility.VisibleIdsOfResolve | src/SystemViewer.tsx:116-122 | The ids treated as visible are exactly those of the shown processes and topics of the result. |
| Visibility.ResolveEdgeLaw | src/SystemViewer.tsx:123-138 | In the result, each edge is shown exactly when both its endpoints are ids of shown nodes of the result. |
| Visibility.NewNodesUnique | src/SystemViewer.tsx:87-98 | Copying the processes keeps their ids unique. |
| Visibility.PeerShownOfResolve | src/SystemViewer.tsx:104-105 | With unique process ids, a peer counts as shown exactly when a shown process of the result carries its id. |
| Visibility.FoundPeerShownIn | src/SystemViewer.tsx:104-105 | A peer found shown in the new process list is a shown process of the result. |
| Visibility.ShownProcessFound | src/SystemViewer.tsx:104-105 | With unique process ids, the id of a shown process of the result is found shown in the new process list. |
| Visibility.TopicHiddenByShownProcesses | src/SystemViewer.tsx:101-108 | The `shouldHide` verdict, read as: no peer is a shown process of the result. |
| Visibility.PeersInResolve | src/SystemViewer.tsx:101 | A topic has the same peers in the result as it had in the input. |
| Visibility.ResolveTopicLaw | src/SystemViewer.tsx:100-114 | With unique process ids, each topic of the result is hidden exactly when none of its peers in the result is a shown process. |
| Visibility.ResolvedTopicAt | src/SystemViewer.tsx:100-114 | The topic law at one position of the result. |
| Visibility.OrphanTopicHidden | src/SystemViewer.tsx:102-113 | A topic that no edge touches is hidden, whatever is selected. |
| Visibility.NoPeerShownWithoutSelection | src/SystemViewer.tsx:87-105 | With nothing selected, no peer counts as shown. |
| Visibility.TopicsHiddenWithoutSelection | src/SystemViewer.tsx:100-114 | With nothing selected, every topic is hidden. |
| Visibility.EmptySelectionHidesAll | src/SystemViewer.tsx:83-142 | Selecting nothing hides every process, topic and edge. |
| Visibility.SelectionByMatchedNames | src/SystemViewer.tsx:88 | Two selections that pick the same processes give the same result. |
| Visibility.UnknownNameIsNoOp | src/SystemViewer.tsx:88 | Adding a name that no process carries changes nothing and is not an error. |
| Visibility.HideNodeOutcome | src/SystemViewer.tsx:72-81 | After `hideNode(nodeId)`, a process is hidden unless its label is non-empty and carried by a visible process other than `nodeId`. So `nodeId` itself stays shown only when another visible process shares its label. |
| Visibility.Viewer.constructor | src/SystemViewer.tsx:42 | The viewer starts holding the given elements. |
| Visibility.TopicsLoop | src/SystemViewer.tsx:100-114 | The `ros_topics.map` loop returns exactly the resolved topics: each topic copied with its `shouldHide` verdict over its peers. |
| Visibility.Viewer.SelectionChange | src/SystemViewer.tsx:83-142 | The viewer's elements become the resolution of the old elements under the selected names. The loops compute exactly the resolver the laws above are about. |
| Visibility.Viewer.HideNode | src/SystemViewer.tsx:72-81 | The viewer's elements become the resolution of the old elements under the labels of the visible processes other than `nodeId`. |
| Layout.MeasureText | src/layout.ts:35-45 | An empty label measures 0×0 without consulting the measurer; any other label measures what the measurer says. |
| Layout.RequestNodesMember | src/layout.ts:55-89 | ELK is sent a node exactly when it is the 200×50 placeholder of a process or topic that is not hidden. |
| Layout.RequestNodesAppend | src/layout.ts:62-89 | The placeholders keep the list order. |
| Layout.RequestEdgesMember | src/layout.ts:58-101 | ELK is sent an edge exactly when it is the id, source and target of an edge that is not hidden. |
| Layout.RequestEdgesSound | src/layout.ts:91-101 | Every edge sent to ELK comes from an edge of the list that is not hidden. |
| Layout.RequestEdgesComplete | src/layout.ts:91-101 | Every edge of the list that is not hidden is sent to ELK. |
| Layout.RequestEdgesAppend | src/layout.ts:91-101 | The submitted edges keep the list order. |
| Layout.DanglingEdgeSubmitted | src/layout.ts:91-101 | Endpoints are not checked. A shown edge alone is submitted even though ELK is sent no node. |
| Layout.RequestOptions | src/layout.ts:52-114 | The direction is RIGHT exactly for left-to-right orientation. Node spacing is 275 either way; layer spacing is 200 across and 150 down. |
| Layout.RequestIgnoresStyles | src/layout.ts:62-101 | The request does not depend on the elements' styles. |
| Layout.RequestIgnoresResize | src/layout.ts:74-86 | Resizing the topics does not change what ELK is sent. Every placeholder is 200×50 whatever the measured size. |
| Layout.ResizeTopicsEffect | src/layout.ts:71-78 | The resize keeps the list's length. Each shown topic's style becomes its label's measured size, which is 0×0 for an empty label. Nothing else changes, and every other element is untouched. |
| Layout.ResizeTopicsIdempotent | src/layout.ts:71-78 | Resizing a resized list changes nothing. |
| Layout.PlaceEffect | src/layout.ts:117-136 | Placement changes only the position and the anchors. An edge is copied unchanged. A node gets the direction's anchors (left/right across, top/bottom down). A node keeps its position when ELK did not lay it out. |
| Layout.PlaceKeepsCentre | src/layout.ts:124-129 | The correction keeps the centre ELK chose for the 200×50 placeholder, up to the jitter on x. |
| Layout.DefaultSizedNodeOnBox | src/layout.ts:124-129 | A node of the placeholder's own size lands on ELK's y and within 0.001 to the right of ELK's x. |
| Layout.ResizedParts | src/layout.ts:55-78 | Resizing commutes with splitting the list into nodes and edges. |
| Layout.GraphLayoutAt | src/layout.ts:117-138 | Position `k` of the result is node `k` of the resized list, placed. |
| Layout.GraphLayoutTail | src/layout.ts:138 | After the nodes, the result is the edges of the resized list. |
| Layout.GraphLayoutShape | src/layout.ts:47-139 | The layout fails exactly when ELK rejects. Otherwise the result is the processes and topics, placed, in order and otherwise unchanged, followed by the edges; elements of any other kind are dropped. With no element both node and edge, every node has the direction's anchors and the edges are the input's edges. |
| Layout.LaidOutNodeCentred | src/layout.ts:117-133 | A node ELK laid out is re-centred on its box by its resized style, with jitter below 0.001, and gets the direction's anchors. |
| Layout.HiddenNodeStaysPut | src/layout.ts:117-129 | When ELK returns boxes only for the nodes it was sent, a node that was not sent (a hidden one, with no shown node sharing its id) keeps its position. |
| Layout.SubmitNode | src/layout.ts:62-89 | One step of the node loop. The element is resized in place and nothing else in the array changes. Its placeholder is pushed exactly when it is a shown process or topic. |
| Layout.SubmitNodes | src/layout.ts:62-89 | The node loop leaves the array holding the resized list and returns the placeholders for the original list. |
| Layout.SubmitEdges | src/layout.ts:91-101 | The edge loop returns exactly the submitted edges. |
| Layout.CreateGraphLayout | src/layout.ts:47-139 | `createGraphLayout` resizes the caller's topics in place and resolves to the layout function of the original list. |
| Toolbar.KeptMember | src/SystemViewToolbar.tsx:114-123 | The `reduce` keeps an item exactly when it is in the list and either hidden nodes are included or its label has no leading `_`. |
| Toolbar.ProcessItemsMember | src/SystemViewToolbar.tsx:107-112 | The mapped list holds exactly the items of the processes. |
| Toolbar.NodeItemsMember | src/SystemViewToolbar.tsx:106-126 | An item is listed exactly when it is a process's item and either hidden nodes are included or its label does not start with `_`. |
| Toolbar.NodeItemsIncluded | src/SystemViewToolbar.tsx:106-126 | With hidden nodes included, every process is listed once, in order, with its id, label and hidden flag. |
| Toolbar.NodeItemsExcludedIsSubsequence | src/SystemViewToolbar.tsx:114-123 | Excluding hidden nodes only deletes items, keeping the order of the rest. |
| Toolbar.NodeItemsAppend | src/SystemViewToolbar.tsx:106-126 | Items keep the order of the elements. |
| Toolbar.SystemViewToolbar.constructor | src/SystemViewToolbar.tsx:60-61 | The orientation starts as the viewer's, and hidden nodes start excluded. |
| Toolbar.SystemViewToolbar.ToggleOrientation | src/SystemViewToolbar.tsx:68-72 | The orientation flips and the new value is reported. The other setting is unchanged. |
| Toolbar.SystemViewToolbar.SetIncludeHiddenNodes | src/SystemViewToolbar.tsx:90-92 | The checkbox sets the flag and leaves the orientation alone. |
| Toolbar.SystemViewToolbar.FilterNodeList | src/SystemViewToolbar.tsx:106-126 | Returns exactly the process items for the current setting, whose meaning the lemmas above give. |
| Fixture.IdsDistinct | src/initial-elements.ts:24-108 | The five node ids are pairwise distinct. |
| Fixture.FixtureFlags | src/initial-elements.ts:24-238 | There are 13 elements, each of exactly one kind and each shown. Every node is styled 275×79. |
| Fixture.FixtureShape | src/initial-elements.ts:24-238 | 2 processes, 3 topics and 8 edges, in that order. |
| Fixture.ProcessAndTopicIds | src/initial-elements.ts:24-108 | The process ids and the topic ids, in order. |
| Fixture.EdgesJoinProcessAndTopic | src/initial-elements.ts:110-237 | No process id is a topic id, and every edge joins a process and a topic. |
| Fixture.RosoutPeers | src/initial-elements.ts:110-141 | `/rosout` has peers talker and listener. |
| Fixture.ParameterEventsPeers | src/initial-elements.ts:142-205 | `/parameter_events` has peers talker, listener, talker, listener: two edges come from the processes and two go back to them. |
| Fixture.ChatterPeers | src/initial-elements.ts:206-237 | `/chatter` has peers talker and listener. |
| Fixture.SelectTalker | src/SystemViewer.tsx:83-142 | Selecting only "talker" in the initial diagram hides listener and its four edges. All three topics and talker's edges stay shown. |
| Fixture.HideListenerNames | src/SystemViewer.tsx:72-79 | Hiding listener from the initial diagram re-selects just "talker". |
| Fixture.HideListener | src/SystemViewer.tsx:72-81 | Hiding listener gives the same diagram as selecting talker alone. |
| Fixture.SelectNothing | src/SystemViewer.tsx:83-142 | Clearing the selection hides all 13 elements and removes none. |
| Fixture.ProcessOffset | src/layout.ts:117-138 | Laying out the initial diagram returns 13 elements. A 275×79 process that ELK laid out sits 37.5 left of and 14.5 above ELK's box, up to the jitter. |
| Pipeline.ShownNodeSubmitted | src/layout.ts:62-89 | A shown process or topic of the list is among the placeholders sent to ELK. |
| Pipeline.EdgeLawCloses | src/layout.ts:62-101 | A list whose edges obey the edge law gives ELK no dangling edge. |
| Pipeline.ResolvedRequestClosed | src/SystemViewer.tsx:156-175 | Laying out any list `selectionChange` produced, in either orientation, sends ELK only edges whose endpoints are among the nodes sent. |

## Left out

- The ELK layered algorithm is not modelled: ELK is a parameter. Of the
  per-call options, the model keeps the direction and the two spacings
  (node spacing is 275 in both orientations). It omits the per-call layering
  strategy (`NETWORK_SIMPLEX`) and edge routing (`POLYLINE`), the engine's
  default options and the `root` graph id.
- `calculateSize` and the Fluent UI theme are a measuring parameter, because
  font metrics are outside the program.
- `Math.random()` is a parameter indexed by node position. Its range
  [0, 1) is stated where a lemma needs it.
- Promises and their ordering are not modelled: a rejected layout is `None`.
  The `console.error` on rejection is I/O. As the code stands, no "latest
  request wins" rule orders overlapping layouts, so the model has none
  either.
- React state setters, effects, JSX rendering and react-flow callbacks are
  not modelled. This covers the `useEffect`/`onLoad` code that writes
  `hideNode` into each node's `data` and lays out the list, and
  `setSelectedElements([])`. The viewer's `elements` state is the field of
  `Visibility.Viewer`.
- The toolbar's `onLayoutGraph` (src/SystemViewToolbar.tsx:86-88) only passes
  its orientation to the viewer's `layoutGraph` (src/SystemViewer.tsx:169-175).
  That runs `createGraphLayout` on the held elements, which
  `Layout.CreateGraphLayout` and `Pipeline.ResolvedRequestClosed` cover.
  Storing the result with `setElements` is React state and is not modelled.
- Zoom in/out and fit view only forward to react-flow and are not modelled.
- The toolbar's other checkboxes (hidden topics, `/rosout`,
  `/parameter_events`) and the grouping tabs set state the filter never
  reads, so they are not modelled either.
- src/SystemViewerPanel.tsx is host plumbing and is not part of this model.
  It subscribes to the telemetry topics, folds node-event messages into
  node and pub/sub lists, and JSON-parses statistics messages.
- src/NodeList.tsx keeps UI state and is not part of this model. It holds
  the list's selection in a Fluent UI `Selection`, which reports the
  selected labels to `selectionChange`, and runs the list's text filter.
- src/RosNode.tsx, src/RosTopic.tsx, src/foxglove/ExpandingToolbar.tsx and
  src/foxglove/sharedStyleConstants.ts are rendering only and are not part
  of this model.
- Layout.CreateGraphLayout: a topic's `style` is a field of its array entry.
  The code writes `style.width`/`style.height` into an object that other
  element lists may share, and that sharing is not captured.
- Layout.CreateGraphLayout: a missing `style` or `data` would throw in the
  code (the `!` non-null assertions). The model gives every element a style
  and a label ("" when absent), so that crash path is not modelled.
- Toolbar.SystemViewToolbar.FilterNodeList: a process with no `data` or no
  `data.label` makes the code throw. The cast at src/SystemViewToolbar.tsx:111
  lets `undefined` through, and `item.name.startsWith('_')` at line 115 then
  throws a TypeError. The model lists such a process as an item named `""`
  instead.
- Visibility.NamesAfterHide: a visible process other than `nodeId` with no
  `data` makes `node.data.label` at src/SystemViewer.tsx:78 throw, and the
  model re-selects `""` instead. A process with `data` but no label gives
  `undefined`, which selects nothing, just as `""` selects nothing in the
  model.
- Layout.Place: react-flow's `isNode` requires an element to have neither a
  `source` nor a `target` field. The model's `Link` always carries both ends,
  so an element with only one of them cannot be represented. The node test
  in the placement step is therefore "not an edge".
  - An element with only a `target` is neither a node nor an edge in the
    code.
  - An element with only a `source` is an edge for `isEdge`
    (src/utils/utils.ts:27-29) with an `undefined` target.
    `selectionChange` always hides such an edge, because no visible id
    equals `undefined`. The layout adapter submits it with an undefined
    target unless it is hidden.
- Layout.LaidOut: ELK coordinates are reals, and an absent coordinate is read
  as 0. Both fail the truthiness guard, so they behave alike.
- Fixture: edge styles, labels and positions, absent on edges in the
  diagram, are modelled as 0×0, "" and the origin. Edge label text,
  animation and arrow heads are not modelled.
- Visibility.ResolveTopicLaw: stated for lists whose process ids are unique.
  With duplicate ids, `find` picks the first match, and the model follows
  that (`Visibility.FindById`, whose earliest match `GraphModel.FirstIsEarliest` states) without a topic law for it.
- Visibility.ResolveKeepsEveryElement and the other laws: stated for lists
  where no element is both a node and an edge. The code's three filters do
  not exclude each other, so such an element would be copied twice. The
  model computes that, but the laws do not describe it.
- Layout.DanglingEdgeSubmitted: the layout adapter does not check that an
  edge's endpoints are among the nodes it submits. Only a list resolved by
  `selectionChange` is proved free of dangling edges
  (`Pipeline.ResolvedRequestClosed`).
