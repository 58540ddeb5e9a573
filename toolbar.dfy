/**
  The selection list and orientation switch of src/SystemViewToolbar.tsx.
  `filterNodeList` turns the process elements into list items and, unless
  hidden nodes are included, drops those whose label starts with `_`; the
  orientation toggle flips a state field and reports the new value.
*/
module Toolbar {
  import opened Seqs
  import opened GraphModel

  /** `INodeListItem`: key, label and hidden flag of one process. */
  datatype NodeListItem = NodeListItem(key: string, name: string, isHidden: Option<bool>)

  function ToItem(e: Element): NodeListItem {
    NodeListItem(e.id, e.name, e.isHidden)
  }

  /** `name.startsWith('_')`: the naming convention for hidden ROS nodes. */
  predicate StartsWithUnderscore(name: string) {
    |name| > 0 && name[0] == '_'
  }

  predicate IsPlainItem(item: NodeListItem) {
    !StartsWithUnderscore(item.name)
  }

  /** What the `reduce` keeps of a list of items. */
  function Kept(items: seq<NodeListItem>, includeHiddenNodes: bool): seq<NodeListItem> {
    if includeHiddenNodes then items else Filter(items, IsPlainItem)
  }

  /** The items `filterNodeList` returns for the given setting of "include hidden nodes". */
  function NodeItems(els: seq<Element>, includeHiddenNodes: bool): seq<NodeListItem> {
    Kept(Map(Filter(els, IsRosNode), ToItem), includeHiddenNodes)
  }

  lemma KeptSnoc(items: seq<NodeListItem>, x: NodeListItem, includeHiddenNodes: bool)
    ensures Kept(items + [x], includeHiddenNodes) ==
      Kept(items, includeHiddenNodes) + (if IsPlainItem(x) || includeHiddenNodes then [x] else [])
  {
    FilterSnoc(items, x, IsPlainItem);
  }

  /** The mapped list holds exactly the items of the processes. */
  lemma ProcessItemsMember(els: seq<Element>, item: NodeListItem)
    ensures item in Map(Filter(els, IsRosNode), ToItem) <==>
      exists k :: 0 <= k < |els| && IsRosNode(els[k]) && ToItem(els[k]) == item
  {
    MapFilterMember(els, IsRosNode, ToItem, item);
  }

  /** The `reduce` keeps an item exactly when hidden nodes are included or its label has no leading `_`. */
  lemma KeptMember(items: seq<NodeListItem>, includeHiddenNodes: bool, item: NodeListItem)
    ensures item in Kept(items, includeHiddenNodes) <==>
      item in items && (includeHiddenNodes || !StartsWithUnderscore(item.name))
  {
    if !includeHiddenNodes {
      var kept := Filter(items, IsPlainItem);
      if item in kept {
        var j :| 0 <= j < |kept| && kept[j] == item;
      }
      if item in items && IsPlainItem(item) {
        var j :| 0 <= j < |items| && items[j] == item;
      }
    }
  }

  /**
    An item is listed exactly when it is the item of some process and either
    hidden nodes are included or its label does not start with `_`.
  */
  lemma NodeItemsMember(els: seq<Element>, includeHiddenNodes: bool, item: NodeListItem)
    ensures item in NodeItems(els, includeHiddenNodes) <==>
      (exists k :: 0 <= k < |els| && IsRosNode(els[k]) && ToItem(els[k]) == item) &&
      (includeHiddenNodes || !StartsWithUnderscore(item.name))
  {
    ProcessItemsMember(els, item);
    KeptMember(Map(Filter(els, IsRosNode), ToItem), includeHiddenNodes, item);
  }

  /**
    With hidden nodes included every process is listed, one item per process
    in list order, carrying its id, label and hidden flag.
  */
  lemma NodeItemsIncluded(els: seq<Element>)
    ensures |NodeItems(els, true)| == |Filter(els, IsRosNode)|
    ensures forall k :: 0 <= k < |Filter(els, IsRosNode)| ==>
      var node, item := Filter(els, IsRosNode)[k], NodeItems(els, true)[k];
      item.key == node.id && item.name == node.name && item.isHidden == node.isHidden
  {
  }

  /** Excluding hidden nodes only deletes items: the result is a subsequence of the full list. */
  lemma NodeItemsExcludedIsSubsequence(els: seq<Element>)
    ensures IsSubsequence(NodeItems(els, false), NodeItems(els, true))
  {
    FilterIsSubsequence(Map(Filter(els, IsRosNode), ToItem), IsPlainItem);
  }

  /** Items keep the order of the element list. */
  lemma NodeItemsAppend(a: seq<Element>, b: seq<Element>, includeHiddenNodes: bool)
    ensures NodeItems(a + b, includeHiddenNodes) == NodeItems(a, includeHiddenNodes) + NodeItems(b, includeHiddenNodes)
  {
    FilterAppend(a, b, IsRosNode);
    MapAppend(Filter(a, IsRosNode), Filter(b, IsRosNode), ToItem);
    FilterAppend(Map(Filter(a, IsRosNode), ToItem), Map(Filter(b, IsRosNode), ToItem), IsPlainItem);
  }

  /** The toolbar's `lrOrientation` and `includeHiddenNodes` state. */
  class SystemViewToolbar {
    var lrOrientation: bool
    var includeHiddenNodes: bool

    /** The orientation starts from the viewer's; hidden nodes start excluded. */
    constructor(lrOrientation: bool)
      ensures this.lrOrientation == lrOrientation
      ensures !includeHiddenNodes
    {
      this.lrOrientation := lrOrientation;
      includeHiddenNodes := false;
    }

    /** `onToggleOrientation`: flip the orientation and report the new value to the viewer. */
    method ToggleOrientation() returns (reported: bool)
      modifies this
      ensures lrOrientation == !old(lrOrientation)
      ensures reported == lrOrientation
      ensures includeHiddenNodes == old(includeHiddenNodes)
    {
      var newOrientation := !lrOrientation;
      lrOrientation := newOrientation;
      reported := newOrientation;
    }

    /** `onToggleIncludeHiddenNodes`: the checkbox sets the flag. */
    method SetIncludeHiddenNodes(isChecked: bool)
      modifies this
      ensures includeHiddenNodes == isChecked
      ensures lrOrientation == old(lrOrientation)
    {
      includeHiddenNodes := isChecked;
    }

    /** `filterNodeList`: the `filter` and `map`, then the `reduce` that pushes what it keeps. */
    method FilterNodeList(els: seq<Element>) returns (filtered: seq<NodeListItem>)
      ensures filtered == NodeItems(els, includeHiddenNodes)
    {
      var items := Map(Filter(els, IsRosNode), ToItem);
      filtered := [];
      for i := 0 to |items|
        invariant filtered == Kept(items[..i], includeHiddenNodes)
      {
        var item := items[i];
        if StartsWithUnderscore(item.name) {
          if includeHiddenNodes {
            filtered := filtered + [item];
          }
        } else {
          filtered := filtered + [item];
        }
        KeptSnoc(items[..i], item, includeHiddenNodes);
        assert items[..i + 1] == items[..i] + [item];
      }
      assert items[..|items|] == items;
    }
  }
}
