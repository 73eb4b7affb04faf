/** The tree items of the information widgets
    (`source/gui/infoWidgets/cxTreeModelItem.cpp`): each item holds a weak
    reference to its parent, the item model it belongs to, and the list of
    children appended to it. */
module TreeItems {
  import opened Text

  /** `BrowserItemModel`: only its identity matters here. */
  class BrowserItemModel {
    constructor() {}
  }

  /** Which of the item classes an item is. */
  datatype ItemKind = PlainItem | ToolManagerItem | ToolItem(toolUid: string)

  class TreeItem {
    /** `mParent`; null when the parent is gone or there is none. */
    const parent: TreeItem?
    const name: string
    const itemType: string
    const value: string
    const kind: ItemKind
    var model: BrowserItemModel?
    var children: seq<TreeItem>

    /** The `TreeItemImpl` constructor: a child takes its model from a live
        parent and starts without children. */
    constructor(p: TreeItem?, name: string, itemType: string, value: string, kind: ItemKind)
      ensures parent == p && this.name == name && this.itemType == itemType && this.value == value
      ensures this.kind == kind && children == []
      ensures model == (if p != null then p.model else null)
    {
      parent := p;
      this.name := name;
      this.itemType := itemType;
      this.value := value;
      this.kind := kind;
      children := [];
      model := if p != null then p.model else null;
    }

    /** `create(model)`: the root item, without a parent. */
    static method CreateRoot(m: BrowserItemModel?) returns (r: TreeItem)
      ensures fresh(r) && r.parent == null && r.model == m && r.children == []
      ensures r.name == "" && r.itemType == "" && r.value == "" && r.kind == PlainItem
    {
      r := new TreeItem(null, "", "", "", PlainItem);
      r.model := m;
    }

    /** `create(parent, name, type, val)` and the `create` of the derived items:
        the new item is appended to a live parent's children. */
    static method Create(p: TreeItem?, name: string, itemType: string, value: string, kind: ItemKind)
      returns (r: TreeItem)
      modifies p
      ensures fresh(r) && r.parent == p && r.children == [] && r.kind == kind
      ensures r.name == name && r.itemType == itemType && r.value == value
      ensures r.model == (if p != null then p.model else null)
      ensures p != null ==> p.children == old(p.children) + [r] && p.model == old(p.model)
    {
      r := new TreeItem(p, name, itemType, value, kind);
      if p != null {
        var _ := p.AddChild(r);
      }
    }

    /** `addChild`: appends the child and returns it. */
    method AddChild(child: TreeItem) returns (r: TreeItem)
      modifies this`children
      ensures children == old(children) + [child] && r == child
    {
      children := children + [child];
      r := child;
    }

    /** `getChild`: the row-th appended child. */
    method GetChild(row: nat) returns (r: TreeItem)
      requires row < |children|
      ensures r == children[row] && r in children
    {
      r := children[row];
    }

    /** `getChildCount`: the number of appended children. */
    method GetChildCount() returns (r: nat)
      ensures r == |children|
      ensures r == 0 <==> children == []
    {
      r := |children|;
    }

    /** `getColumnCount`: every item shows three columns. */
    method GetColumnCount() returns (r: nat)
      ensures r == 3
    {
      r := 3;
    }

    /** `TreeItemToolManager::create`: an item appended to a live parent, with
        one tool child per tool of the tracking service, in the map's key order. */
    static method CreateToolManager(p: TreeItem?, tools: set<string>) returns (r: TreeItem)
      modifies p
      ensures fresh(r) && r.parent == p && r.kind == ToolManagerItem
      ensures p != null ==> p.children == old(p.children) + [r]
      ensures |r.children| == |SortedSeq(tools)| == |tools|
      ensures forall i :: 0 <= i < |r.children| ==>
                r.children[i].parent == r && r.children[i].kind == ToolItem(SortedSeq(tools)[i])
      ensures forall t :: t in tools <==> exists i :: 0 <= i < |r.children| && r.children[i].kind == ToolItem(t)
    {
      r := Create(p, "", "", "", ToolManagerItem);
      var uids := SortedKeys(tools);
      SortedSeqSpec(tools);
      for i := 0 to |uids|
        invariant |r.children| == i
        invariant forall j :: 0 <= j < i ==> r.children[j].parent == r && r.children[j].kind == ToolItem(uids[j])
        invariant p != null ==> p.children == old(p.children) + [r]
        modifies r
      {
        var _ := Create(r, "", "", "", ToolItem(uids[i]));
      }
      forall t | t in tools
        ensures exists i :: 0 <= i < |r.children| && r.children[i].kind == ToolItem(t)
      {
        var i :| 0 <= i < |uids| && uids[i] == t;
        assert r.children[i].kind == ToolItem(t);
      }
    }
  }
}
