/** The browser's `TreeRepository` (`source/gui/browser/cxTreeRepository.cpp`): a
    vector of tree nodes rebuilt from the patient's data and the tracked tools,
    whose insert operations skip a node whose uid is already present. Nodes are
    values identified by their uid; the patient model and the tracking service
    are inputs to `Update` and `Rebuild`. */
module Browser {
  import opened Common
  import opened Text

  /** The uid of the invisible top node. */
  const TopUid := "node::invisible_top"

  /** `COORDINATE_SYSTEM` values `rebuild` uses. */
  datatype SpaceId = Reference | DataSpace | PatientReference

  /** `CoordinateSystem`: a space and the uid of the object that defines it. */
  datatype Space = Space(id: SpaceId, refObject: string)

  function SpaceIdName(id: SpaceId): string
  {
    match id
    case Reference => "reference"
    case DataSpace => "data"
    case PatientReference => "patient reference"
  }

  /** `CoordinateSystem::toString`. That function is not part of this model; the
      form `<space>/<reference object>` with the names above is assumed. */
  function SpaceString(s: Space): string
  {
    SpaceIdName(s.id) + "/" + s.refObject
  }

  /** The three "show in view" nodes that follow each data node. */
  datatype ShowKind = ShowVolume | ShowSlice2D | ShowSlice3D

  function ShowName(k: ShowKind): string
  {
    match k
    case ShowVolume => "volume"
    case ShowSlice2D => "slice2D"
    case ShowSlice3D => "slice3D"
  }

  datatype Node =
    | TopNode
    | GroupNode(group: string)
    | SpaceNode(space: Space)
    | DataNode(dataUid: string)
    | ShowNode(view: ShowKind, shown: string)
    | ToolNode(toolUid: string)

  /** `TreeNode::getUid`. The top uid is the one `getTopNode` looks for, a
      group's is the one `getNodeForGroup` looks up, and data and tool nodes
      carry their object's uid, as the insert checks expect. The space and
      show nodes' own `getUid` bodies are not part of this model: a space node
      is assumed to carry its space string, which is what `insertSpaceNode`
      checks, and the show-node form is assumed. */
  function NodeUid(n: Node): string
  {
    match n
    case TopNode => TopUid
    case GroupNode(g) => "group_" + g
    case SpaceNode(s) => SpaceString(s)
    case DataNode(u) => u
    case ShowNode(k, u) => "show_" + ShowName(k) + "_" + u
    case ToolNode(u) => u
  }

  // ---------------------------------------------------------------------------
  // Lookup
  // ---------------------------------------------------------------------------

  predicate HasUid(ns: seq<Node>, uid: string)
  {
    exists i :: 0 <= i < |ns| && NodeUid(ns[i]) == uid
  }

  /** `getNode`: the first node with this uid, if any. */
  function FindNode(ns: seq<Node>, uid: string): Option<Node>
  {
    if ns == [] then None
    else if NodeUid(ns[0]) == uid then Some(ns[0])
    else FindNode(ns[1..], uid)
  }

  /** `getNode` finds a node exactly when one has the uid, and then the first. */
  lemma {:induction false} FindNodeSpec(ns: seq<Node>, uid: string)
    ensures FindNode(ns, uid).Some? <==> HasUid(ns, uid)
    ensures FindNode(ns, uid).Some? ==>
              exists i :: 0 <= i < |ns| && ns[i] == FindNode(ns, uid).value
                          && NodeUid(ns[i]) == uid && forall j :: 0 <= j < i ==> NodeUid(ns[j]) != uid
  {
    if ns != [] && NodeUid(ns[0]) != uid {
      var rest := ns[1..];
      FindNodeSpec(rest, uid);
      assert FindNode(ns, uid) == FindNode(rest, uid);
      if HasUid(ns, uid) {
        var i :| 0 <= i < |ns| && NodeUid(ns[i]) == uid;
        assert NodeUid(rest[i - 1]) == uid;
      }
      if FindNode(rest, uid).Some? {
        var i :| 0 <= i < |rest| && rest[i] == FindNode(rest, uid).value
          && NodeUid(rest[i]) == uid && forall j :: 0 <= j < i ==> NodeUid(rest[j]) != uid;
        forall j | 0 <= j < i + 1
          ensures NodeUid(ns[j]) != uid
        {
          if j > 0 {
            assert ns[j] == rest[j - 1];
          }
        }
        assert ns[i + 1] == rest[i];
      }
    }
  }

  // ---------------------------------------------------------------------------
  // Insertion
  // ---------------------------------------------------------------------------

  /** `ns` is the start of `r`: insertion only appends. */
  predicate Grows(ns: seq<Node>, r: seq<Node>)
  {
    |ns| <= |r| && r[..|ns|] == ns
  }

  lemma GrowsTransitive(a: seq<Node>, b: seq<Node>, c: seq<Node>)
    requires Grows(a, b) && Grows(b, c)
    ensures Grows(a, c)
  {
    assert c[..|b|][..|a|] == c[..|a|];
  }

  lemma GrowsKeepsUids(ns: seq<Node>, r: seq<Node>, uid: string)
    requires Grows(ns, r) && HasUid(ns, uid)
    ensures HasUid(r, uid)
  {
    var i :| 0 <= i < |ns| && NodeUid(ns[i]) == uid;
    assert r[i] == r[..|ns|][i];
  }

  /** `insertGroupNode`. */
  function WithGroup(ns: seq<Node>, g: string): seq<Node>
  {
    if HasUid(ns, "group_" + g) then ns else ns + [GroupNode(g)]
  }

  /** `insertToolNode`. */
  function WithTool(ns: seq<Node>, uid: string): seq<Node>
  {
    if HasUid(ns, uid) then ns else ns + [ToolNode(uid)]
  }

  /** `insertDataNode`: the data node and its three show nodes. */
  function WithData(ns: seq<Node>, uid: string): seq<Node>
  {
    if HasUid(ns, uid) then ns
    else ns + [DataNode(uid), ShowNode(ShowVolume, uid), ShowNode(ShowSlice2D, uid), ShowNode(ShowSlice3D, uid)]
  }

  /** `insertSpaceNode`: skipped when a node has the space's uid or its
      reference object's uid. */
  function WithSpace(ns: seq<Node>, s: Space): seq<Node>
  {
    if HasUid(ns, SpaceString(s)) || HasUid(ns, s.refObject) then ns else ns + [SpaceNode(s)]
  }

  /** After each insert the node's uid is present, nothing was removed, and
      inserting again changes nothing. */
  lemma WithGroupSpec(ns: seq<Node>, g: string)
    ensures Grows(ns, WithGroup(ns, g)) && HasUid(WithGroup(ns, g), "group_" + g)
    ensures WithGroup(WithGroup(ns, g), g) == WithGroup(ns, g)
  {
    if !HasUid(ns, "group_" + g) {
      assert NodeUid(WithGroup(ns, g)[|ns|]) == "group_" + g;
    }
  }

  lemma WithToolSpec(ns: seq<Node>, uid: string)
    ensures Grows(ns, WithTool(ns, uid)) && HasUid(WithTool(ns, uid), uid)
    ensures WithTool(WithTool(ns, uid), uid) == WithTool(ns, uid)
  {
    if !HasUid(ns, uid) {
      assert NodeUid(WithTool(ns, uid)[|ns|]) == uid;
    }
  }

  lemma WithDataSpec(ns: seq<Node>, uid: string)
    ensures Grows(ns, WithData(ns, uid)) && HasUid(WithData(ns, uid), uid)
    ensures WithData(WithData(ns, uid), uid) == WithData(ns, uid)
    ensures !HasUid(ns, uid) ==> |WithData(ns, uid)| == |ns| + 4
  {
    if !HasUid(ns, uid) {
      assert NodeUid(WithData(ns, uid)[|ns|]) == uid;
    }
  }

  lemma WithSpaceSpec(ns: seq<Node>, s: Space)
    ensures Grows(ns, WithSpace(ns, s))
    ensures HasUid(WithSpace(ns, s), SpaceString(s)) || HasUid(WithSpace(ns, s), s.refObject)
    ensures WithSpace(WithSpace(ns, s), s) == WithSpace(ns, s)
  {
    if !(HasUid(ns, SpaceString(s)) || HasUid(ns, s.refObject)) {
      assert NodeUid(WithSpace(ns, s)[|ns|]) == SpaceString(s);
    }
  }

  /** Every node except a show node has a uid no earlier node has: the uids the
      inserts check stay unique. */
  ghost predicate CheckedUnique(ns: seq<Node>)
  {
    forall i, j :: 0 <= i < j < |ns| && !ns[j].ShowNode? ==> NodeUid(ns[i]) != NodeUid(ns[j])
  }

  /** Appending a node whose uid is new keeps the checked uids unique. */
  lemma AppendFresh(ns: seq<Node>, tail: seq<Node>)
    requires CheckedUnique(ns) && tail != []
    requires !HasUid(ns, NodeUid(tail[0]))
    requires forall k :: 1 <= k < |tail| ==> tail[k].ShowNode?
    ensures CheckedUnique(ns + tail)
  {
    var r := ns + tail;
    forall i, j | 0 <= i < j < |r| && !r[j].ShowNode?
      ensures NodeUid(r[i]) != NodeUid(r[j])
    {
      if j >= |ns| {
        assert j == |ns| && r[j] == tail[0] && r[i] == ns[i];
      }
    }
  }

  lemma InsertsKeepUnique(ns: seq<Node>, g: string, uid: string, s: Space)
    requires CheckedUnique(ns)
    ensures CheckedUnique(WithGroup(ns, g))
    ensures CheckedUnique(WithTool(ns, uid))
    ensures CheckedUnique(WithData(ns, uid))
    ensures CheckedUnique(WithSpace(ns, s))
  {
    if !HasUid(ns, "group_" + g) {
      AppendFresh(ns, [GroupNode(g)]);
    }
    if !HasUid(ns, uid) {
      AppendFresh(ns, [ToolNode(uid)]);
      AppendFresh(ns, [DataNode(uid), ShowNode(ShowVolume, uid), ShowNode(ShowSlice2D, uid), ShowNode(ShowSlice3D, uid)]);
    }
    if !(HasUid(ns, SpaceString(s)) || HasUid(ns, s.refObject)) {
      AppendFresh(ns, [SpaceNode(s)]);
    }
  }

  // ---------------------------------------------------------------------------
  // Rebuild
  // ---------------------------------------------------------------------------

  /** The loop of `rebuild` over the data, in map order. */
  function WithDataNodes(ns: seq<Node>, uids: seq<string>): seq<Node>
  {
    if uids == [] then ns else WithData(WithDataNodes(ns, uids[..|uids| - 1]), uids[|uids| - 1])
  }

  /** The loop of `rebuild` over the data's parent spaces: a space that is empty
      or is itself a data uid is skipped. `parents` maps data uid to parent space. */
  function WithParentSpaces(ns: seq<Node>, uids: seq<string>, parents: map<string, string>): seq<Node>
  {
    if uids == [] then ns
    else
      var prev := WithParentSpaces(ns, uids[..|uids| - 1], parents);
      var u := uids[|uids| - 1];
      if u !in parents then prev
      else if parents[u] == "" || parents[u] in parents then prev
      else WithSpace(prev, Space(DataSpace, parents[u]))
  }

  /** The loop of `rebuild` over the tools, in map order. */
  function WithToolNodes(ns: seq<Node>, uids: seq<string>): seq<Node>
  {
    if uids == [] then ns else WithTool(WithToolNodes(ns, uids[..|uids| - 1]), uids[|uids| - 1])
  }

  /** The groups `rebuild` creates, in order. */
  const Groups: seq<string> := ["tool", "data", "space"]

  function WithGroups(ns: seq<Node>, groups: seq<string>): seq<Node>
  {
    if groups == [] then ns else WithGroup(WithGroups(ns, groups[..|groups| - 1]), groups[|groups| - 1])
  }

  /** The top node, the groups and the reference space. */
  function Skeleton(): seq<Node>
  {
    WithSpace(WithGroups([TopNode], Groups), Space(Reference, ""))
  }

  /** The nodes `rebuild` makes from the patient's data (uid to parent space) and
      the tracked tools' uids. */
  ghost function Rebuilt(parents: map<string, string>, tools: set<string>): seq<Node>
  {
    var uids := SortedSeq(parents.Keys);
    var withData := WithParentSpaces(WithDataNodes(Skeleton(), uids), uids, parents);
    WithToolNodes(WithSpace(withData, Space(PatientReference, "")), SortedSeq(tools))
  }

  /** The group loop of `rebuild` adds the tool, data and space groups in
      that order after the top node. */
  lemma GroupsShape()
    ensures WithGroups([TopNode], Groups) == [TopNode, GroupNode("tool"), GroupNode("data"), GroupNode("space")]
  {
    var top: seq<Node> := [TopNode];
    assert Groups[..0] == [] && Groups[..1] == ["tool"] && Groups[..2] == ["tool", "data"];
    assert !HasUid(top, "group_tool");
    var g1 := top + [GroupNode("tool")];
    assert WithGroups(top, Groups[..1]) == g1;
    assert !HasUid(g1, "group_data") by {
      assert NodeUid(g1[0]) == TopUid && NodeUid(g1[1]) == "group_tool";
    }
    var g2 := g1 + [GroupNode("data")];
    assert WithGroups(top, Groups[..2]) == g2;
    assert !HasUid(g2, "group_space") by {
      assert NodeUid(g2[0]) == TopUid && NodeUid(g2[1]) == "group_tool" && NodeUid(g2[2]) == "group_data";
    }
  }

  /** `rebuild` always starts with the top node, the tool, data and space groups
      and the reference space, in that order. */
  lemma SkeletonShape()
    ensures Skeleton() == [TopNode, GroupNode("tool"), GroupNode("data"), GroupNode("space"), SpaceNode(Space(Reference, ""))]
  {
    GroupsShape();
    var g3: seq<Node> := [TopNode, GroupNode("tool"), GroupNode("data"), GroupNode("space")];
    assert !HasUid(g3, "reference/") && !HasUid(g3, "") by {
      assert NodeUid(g3[0]) == TopUid && NodeUid(g3[1]) == "group_tool";
      assert NodeUid(g3[2]) == "group_data" && NodeUid(g3[3]) == "group_space";
    }
  }

  lemma {:induction false} WithDataNodesSpec(ns: seq<Node>, uids: seq<string>)
    ensures Grows(ns, WithDataNodes(ns, uids))
    ensures forall u :: u in uids ==> HasUid(WithDataNodes(ns, uids), u)
    ensures CheckedUnique(ns) ==> CheckedUnique(WithDataNodes(ns, uids))
  {
    if uids != [] {
      var init := uids[..|uids| - 1];
      var last := uids[|uids| - 1];
      var prev := WithDataNodes(ns, init);
      WithDataNodesSpec(ns, init);
      WithDataSpec(prev, last);
      GrowsTransitive(ns, prev, WithData(prev, last));
      forall u | u in uids
        ensures HasUid(WithData(prev, last), u)
      {
        if u != last {
          assert u in init;
          GrowsKeepsUids(prev, WithData(prev, last), u);
        }
      }
      if CheckedUnique(ns) {
        InsertsKeepUnique(prev, "", last, Space(Reference, ""));
      }
    }
  }

  lemma {:induction false} WithToolNodesSpec(ns: seq<Node>, uids: seq<string>)
    ensures Grows(ns, WithToolNodes(ns, uids))
    ensures forall u :: u in uids ==> HasUid(WithToolNodes(ns, uids), u)
    ensures CheckedUnique(ns) ==> CheckedUnique(WithToolNodes(ns, uids))
  {
    if uids != [] {
      var init := uids[..|uids| - 1];
      var last := uids[|uids| - 1];
      var prev := WithToolNodes(ns, init);
      WithToolNodesSpec(ns, init);
      WithToolSpec(prev, last);
      GrowsTransitive(ns, prev, WithTool(prev, last));
      forall u | u in uids
        ensures HasUid(WithTool(prev, last), u)
      {
        if u != last {
          assert u in init;
          GrowsKeepsUids(prev, WithTool(prev, last), u);
        }
      }
      if CheckedUnique(ns) {
        InsertsKeepUnique(prev, "", last, Space(Reference, ""));
      }
    }
  }

  lemma {:induction false} WithParentSpacesSpec(ns: seq<Node>, uids: seq<string>, parents: map<string, string>)
    ensures Grows(ns, WithParentSpaces(ns, uids, parents))
    ensures CheckedUnique(ns) ==> CheckedUnique(WithParentSpaces(ns, uids, parents))
  {
    if uids != [] {
      var init := uids[..|uids| - 1];
      var prev := WithParentSpaces(ns, init, parents);
      WithParentSpacesSpec(ns, init, parents);
      var u := uids[|uids| - 1];
      if u in parents && parents[u] != "" && parents[u] !in parents {
        var s := Space(DataSpace, parents[u]);
        WithSpaceSpec(prev, s);
        GrowsTransitive(ns, prev, WithSpace(prev, s));
        if CheckedUnique(ns) {
          InsertsKeepUnique(prev, "", "", s);
        }
      }
    }
  }

  /** The five fixed nodes have distinct uids. */
  lemma FixedNodesUnique()
    ensures CheckedUnique([TopNode, GroupNode("tool"), GroupNode("data"), GroupNode("space"), SpaceNode(Space(Reference, ""))])
  {
    var sk: seq<Node> := [TopNode, GroupNode("tool"), GroupNode("data"), GroupNode("space"), SpaceNode(Space(Reference, ""))];
    assert NodeUid(sk[0]) == TopUid && NodeUid(sk[1]) == "group_tool";
    assert NodeUid(sk[2]) == "group_data" && NodeUid(sk[3]) == "group_space";
    assert NodeUid(sk[4]) == "reference/";
  }

  lemma SkeletonUnique()
    ensures CheckedUnique(Skeleton())
  {
    SkeletonShape();
    FixedNodesUnique();
  }

  /** The data half of `rebuild`: the skeleton grows to hold every data node. */
  lemma WithDataPhase(parents: map<string, string>)
    ensures var uids := SortedSeq(parents.Keys);
      var b := WithParentSpaces(WithDataNodes(Skeleton(), uids), uids, parents);
      Grows(Skeleton(), b) && CheckedUnique(b) && forall u :: u in parents ==> HasUid(b, u)
  {
    var uids := SortedSeq(parents.Keys);
    SortedSeqSpec(parents.Keys);
    SkeletonUnique();
    var sk := Skeleton();
    var a := WithDataNodes(sk, uids);
    WithDataNodesSpec(sk, uids);
    var b := WithParentSpaces(a, uids, parents);
    WithParentSpacesSpec(a, uids, parents);
    GrowsTransitive(sk, a, b);
    forall u | u in parents
      ensures HasUid(b, u)
    {
      GrowsKeepsUids(a, b, u);
    }
  }

  /** After `rebuild` every data object and every tool has a node, the first
      five nodes are the fixed skeleton, and the checked uids are unique. */
  lemma RebuiltSpec(parents: map<string, string>, tools: set<string>)
    ensures var r := Rebuilt(parents, tools);
      |r| >= 5 && r[..5] == Skeleton()
      && (forall u :: u in parents ==> HasUid(r, u))
      && (forall t :: t in tools ==> HasUid(r, t))
      && CheckedUnique(r)
  {
    var uids := SortedSeq(parents.Keys);
    SortedSeqSpec(tools);
    SkeletonShape();
    WithDataPhase(parents);
    var b := WithParentSpaces(WithDataNodes(Skeleton(), uids), uids, parents);
    var pr := Space(PatientReference, "");
    var c := WithSpace(b, pr);
    WithSpaceSpec(b, pr);
    InsertsKeepUnique(b, "", "", pr);
    var r := WithToolNodes(c, SortedSeq(tools));
    WithToolNodesSpec(c, SortedSeq(tools));
    GrowsTransitive(b, c, r);
    GrowsTransitive(Skeleton(), b, r);
    forall u | u in parents
      ensures HasUid(r, u)
    {
      GrowsKeepsUids(b, r, u);
    }
  }

  // ---------------------------------------------------------------------------
  // TreeRepository
  // ---------------------------------------------------------------------------

  class TreeRepository {
    var nodes: seq<Node>
    /** `mInvalid`: the next `update` rebuilds. */
    var invalid: bool
    /** The number of `invalidated` signals emitted. */
    var invalidations: nat

    /** `create`: an invalid repository holding only the top node. */
    constructor()
      ensures nodes == [TopNode] && invalid && invalidations == 0
    {
      nodes := [];
      invalid := true;
      invalidations := 0;
      new;
      InsertTopNode();
    }

    /** `getNode`: a linear search for the first node with this uid. */
    method GetNode(uid: string) returns (r: Option<Node>)
      ensures r == FindNode(nodes, uid)
      ensures r.Some? <==> HasUid(nodes, uid)
    {
      FindNodeSpec(nodes, uid);
      var i := 0;
      while i < |nodes|
        invariant 0 <= i <= |nodes|
        invariant FindNode(nodes[i..], uid) == FindNode(nodes, uid)
      {
        assert nodes[i..][1..] == nodes[i + 1..];
        if NodeUid(nodes[i]) == uid {
          return Some(nodes[i]);
        }
        i := i + 1;
      }
      return None;
    }

    /** `getTopNode`: the node with the top uid, if the tree has one. */
    method GetTopNode() returns (r: Option<Node>)
      ensures r == FindNode(nodes, TopUid)
      ensures r.Some? <==> HasUid(nodes, TopUid)
    {
      FindNodeSpec(nodes, TopUid);
      var all := nodes;
      for i := 0 to |all|
        invariant FindNode(all[i..], TopUid) == FindNode(all, TopUid)
      {
        assert all[i..][1..] == all[i + 1..];
        if NodeUid(all[i]) == TopUid {
          return Some(all[i]);
        }
      }
      assert all[|all|..] == [];
      return None;
    }

    method InsertTopNode()
      modifies this`nodes
      ensures nodes == old(nodes) + [TopNode]
    {
      nodes := nodes + [TopNode];
    }

    method AppendNode(n: Node)
      modifies this`nodes
      ensures nodes == old(nodes) + [n]
    {
      nodes := nodes + [n];
    }

    /** `getNodeForGroup`. */
    method GetNodeForGroup(g: string) returns (r: Option<Node>)
      ensures r == FindNode(nodes, "group_" + g)
    {
      r := GetNode("group_" + g);
    }

    method InsertGroupNode(g: string)
      modifies this`nodes
      ensures nodes == WithGroup(old(nodes), g)
    {
      var existing := GetNodeForGroup(g);
      FindNodeSpec(nodes, "group_" + g);
      if existing.Some? {
        return;
      }
      AppendNode(GroupNode(g));
    }

    method InsertToolNode(uid: string)
      modifies this`nodes
      ensures nodes == WithTool(old(nodes), uid)
    {
      var existing := GetNode(uid);
      if existing.Some? {
        return;
      }
      AppendNode(ToolNode(uid));
    }

    method InsertDataNode(uid: string)
      modifies this`nodes
      ensures nodes == WithData(old(nodes), uid)
    {
      var existing := GetNode(uid);
      if existing.Some? {
        return;
      }
      AppendNode(DataNode(uid));
      AppendNode(ShowNode(ShowVolume, uid));
      AppendNode(ShowNode(ShowSlice2D, uid));
      AppendNode(ShowNode(ShowSlice3D, uid));
    }

    method InsertSpaceNode(s: Space)
      modifies this`nodes
      ensures nodes == WithSpace(old(nodes), s)
    {
      var byName := GetNode(SpaceString(s));
      var byRef := GetNode(s.refObject);
      if byName.Some? || byRef.Some? {
        return;
      }
      AppendNode(SpaceNode(s));
    }

    /** The first part of `rebuild`: the top node, the groups and the
        reference space. */
    method RebuildSkeleton()
      modifies this`nodes
      ensures nodes == Skeleton()
    {
      nodes := [];
      InsertTopNode();
      for i := 0 to |Groups|
        invariant nodes == WithGroups([TopNode], Groups[..i])
      {
        assert Groups[..i + 1][..i] == Groups[..i];
        InsertGroupNode(Groups[i]);
      }
      assert Groups[..|Groups|] == Groups;
      InsertSpaceNode(Space(Reference, ""));
    }

    method InsertDataNodes(uids: seq<string>)
      modifies this`nodes
      ensures nodes == WithDataNodes(old(nodes), uids)
    {
      for i := 0 to |uids|
        invariant nodes == WithDataNodes(old(nodes), uids[..i])
      {
        assert uids[..i + 1][..i] == uids[..i];
        InsertDataNode(uids[i]);
      }
      assert uids[..|uids|] == uids;
    }

    method InsertParentSpaces(uids: seq<string>, parents: map<string, string>)
      requires forall u :: u in uids ==> u in parents
      modifies this`nodes
      ensures nodes == WithParentSpaces(old(nodes), uids, parents)
    {
      for i := 0 to |uids|
        invariant nodes == WithParentSpaces(old(nodes), uids[..i], parents)
      {
        assert uids[..i + 1][..i] == uids[..i];
        var space := parents[uids[i]];
        if space == "" {
          continue;
        }
        if space in parents {
          continue;
        }
        InsertSpaceNode(Space(DataSpace, space));
      }
      assert uids[..|uids|] == uids;
    }

    method InsertToolNodes(uids: seq<string>)
      modifies this`nodes
      ensures nodes == WithToolNodes(old(nodes), uids)
    {
      for i := 0 to |uids|
        invariant nodes == WithToolNodes(old(nodes), uids[..i])
      {
        assert uids[..i + 1][..i] == uids[..i];
        InsertToolNode(uids[i]);
      }
      assert uids[..|uids|] == uids;
    }

    /** `rebuild`: clears the nodes and recreates them from the data (uid to
        parent space) and the tools. */
    method Rebuild(parents: map<string, string>, tools: set<string>)
      modifies this`nodes
      ensures nodes == Rebuilt(parents, tools)
    {
      RebuildSkeleton();
      var uids := SortedKeys(parents.Keys);
      SortedSeqSpec(parents.Keys);
      InsertDataNodes(uids);
      InsertParentSpaces(uids, parents);
      InsertSpaceNode(Space(PatientReference, ""));
      var toolUids := SortedKeys(tools);
      InsertToolNodes(toolUids);
    }

    /** `update`: rebuilds when invalid, and leaves the repository invalid. */
    method Update(parents: map<string, string>, tools: set<string>)
      modifies this`nodes, this`invalid
      ensures old(invalid) ==> nodes == Rebuilt(parents, tools)
      ensures !old(invalid) ==> nodes == old(nodes)
      ensures invalid
    {
      if invalid {
        Rebuild(parents, tools);
      }
      invalid := true;
    }

    /** `invalidate`: marks the repository invalid and announces it. */
    method Invalidate()
      modifies this`invalid, this`invalidations
      ensures invalid && invalidations == old(invalidations) + 1
    {
      invalid := true;
      invalidations := invalidations + 1;
    }
  }
}
