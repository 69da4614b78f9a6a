/**
 The capability hierarchy that an agent proposes: what makes it acceptable, and what the paths through
 an accepted one look like.
 */
module CapabilityForest {
  import opened Common
  import opened Text

  const PROTOCOL := "capability-reconciliation/v1"

  datatype Node = Node(id: string, name: string, parent: string, members: seq<string>)

  datatype Hierarchy = Hierarchy(protocol: string, capabilities: seq<Node>)

  type Nodes = map<string, Node>

  // ---------------------------------------------------------------------------------------------
  // Reference definition
  // ---------------------------------------------------------------------------------------------

  /** The id one step up, and nothing above a root or a missing node. */
  function Up(nodes: Nodes, id: string): string {
    if id in nodes then nodes[id].parent else ""
  }

  /** The id `k` steps up. */
  function Above(nodes: Nodes, id: string, k: nat): string
    decreases k
  {
    if k == 0 then id else Above(nodes, Up(nodes, id), k - 1)
  }

  /** No node is above itself. */
  ghost predicate Acyclic(nodes: Nodes) {
    forall id, k: nat :: id in nodes && k >= 1 ==> Above(nodes, id, k) != id
  }

  /** Nodes by trimmed id. */
  function ById(cs: seq<Node>): Nodes {
    if cs == [] then map[] else ById(cs[..|cs| - 1])[Trim(cs[|cs| - 1].id) := cs[|cs| - 1]]
  }

  /** Each node has an id and a name, ids are unique, and only known tools are members. */
  ghost predicate NodesValid(cs: seq<Node>, known: set<string>) {
    && (forall i :: 0 <= i < |cs| ==> Trim(cs[i].id) != "" && Trim(cs[i].name) != "")
    && (forall i, j :: 0 <= i < j < |cs| ==> Trim(cs[i].id) != Trim(cs[j].id))
    && (forall i, m :: 0 <= i < |cs| && m in cs[i].members ==> m in known)
  }

  ghost predicate ParentsExist(nodes: Nodes) {
    forall id :: id in nodes && nodes[id].parent != "" ==> nodes[id].parent in nodes
  }

  /** The members of all nodes. */
  function Assigned(cs: seq<Node>): set<string> {
    set i, k | 0 <= i < |cs| && 0 <= k < |cs[i].members| :: cs[i].members[k]
  }

  ghost predicate Acceptable(h: Hierarchy, known: set<string>) {
    && h.protocol == PROTOCOL
    && NodesValid(h.capabilities, known)
    && ParentsExist(ById(h.capabilities)) && Acyclic(ById(h.capabilities))
    && known <= Assigned(h.capabilities)
  }

  // ---------------------------------------------------------------------------------------------
  // Walking up
  // ---------------------------------------------------------------------------------------------

  lemma {:induction false} AboveSplit(nodes: Nodes, id: string, a: nat, b: nat)
    ensures Above(nodes, id, a + b) == Above(nodes, Above(nodes, id, a), b)
    decreases a
  {
    if a > 0 {
      AboveSplit(nodes, Up(nodes, id), a - 1, b);
    }
  }

  lemma OneUp(nodes: Nodes, id: string)
    ensures Above(nodes, id, 1) == Up(nodes, id)
  {
    assert Above(nodes, Up(nodes, id), 0) == Up(nodes, id);
  }

  lemma {:induction false} NothingAboveRoots(nodes: Nodes, k: nat)
    requires "" !in nodes
    ensures Above(nodes, "", k) == ""
  {
    if k > 0 {
      NothingAboveRoots(nodes, k - 1);
    }
  }

  lemma {:induction false} CyclesRepeat(nodes: Nodes, id: string, k: nat, n: nat)
    requires Above(nodes, id, k) == id
    ensures Above(nodes, id, k * n) == id
  {
    if n > 0 {
      CyclesRepeat(nodes, id, k, n - 1);
      AboveSplit(nodes, id, k, k * (n - 1));
      assert k * n == k + k * (n - 1);
    }
  }

  /** A node from which the walk ends lies on no cycle. */
  lemma EndingWalkHasNoCycle(nodes: Nodes, id: string, n: nat, k: nat)
    requires "" !in nodes && id in nodes && Above(nodes, id, n) == "" && k >= 1
    ensures Above(nodes, id, k) != id
  {
    if Above(nodes, id, k) == id {
      CyclesRepeat(nodes, id, k, n);
      var m := k * n - n;
      assert m >= 0 by {
        assert k * n - n == (k - 1) * n;
      }
      AboveSplit(nodes, id, n, m);
      NothingAboveRoots(nodes, m);
      assert false;
    }
  }

  /** A node that is met twice on one walk lies on a cycle. */
  lemma RepeatedIsCycle(nodes: Nodes, id: string, a: nat, b: nat)
    requires a < b && Above(nodes, id, a) == Above(nodes, id, b)
    ensures var p := Above(nodes, id, a); Above(nodes, p, b - a) == p
  {
    AboveSplit(nodes, id, a, b - a);
  }

  /** The walk up from a node comes to an end. */
  ghost predicate Ends(nodes: Nodes, id: string) {
    exists n: nat :: Above(nodes, id, n) == ""
  }

  /** Everything met on the first steps of a walk. */
  ghost function Met(nodes: Nodes, id: string, n: nat): set<string> {
    set k: nat | k <= n :: Above(nodes, id, k)
  }

  lemma MetFirst(nodes: Nodes, id: string)
    ensures Met(nodes, id, 0) == {id}
  {
    assert Above(nodes, id, 0) == id;
  }

  lemma MetNext(nodes: Nodes, id: string, n: nat)
    requires n >= 1
    ensures Met(nodes, id, n) == Met(nodes, id, n - 1) + {Above(nodes, id, n)}
  {
    hide Above;
    assert Above(nodes, id, n) in Met(nodes, id, n);
  }

  /** A node that is met again lies on a cycle. */
  lemma MetTwice(nodes: Nodes, id: string, n: nat)
    requires n >= 1 && "" !in nodes && Above(nodes, id, n) != "" && Above(nodes, id, n) in Met(nodes, id, n - 1)
    ensures !Acyclic(nodes)
  {
    hide Above;
    var p := Above(nodes, id, n);
    var k: nat :| k <= n - 1 && Above(nodes, id, k) == p;
    RepeatedIsCycle(nodes, id, k, n);
    if p !in nodes {
      OneUp(nodes, p);
      AboveSplit(nodes, p, 1, n - k - 1);
      NothingAboveRoots(nodes, n - k - 1);
      assert false;
    }
  }

  /** The walk of the validation: it ends at a root, or it meets a node twice. */
  method WalkEnds(nodes: Nodes, id: string) returns (ok: bool)
    requires "" !in nodes && id in nodes
    ensures ok ==> Ends(nodes, id)
    ensures !ok ==> !Acyclic(nodes)
  {
    hide Met, Acyclic, Above;
    var seen, parent := {id}, nodes[id].parent;
    ghost var n: nat := 1;
    OneUp(nodes, id);
    MetFirst(nodes, id);
    while parent != ""
      invariant n >= 1 && parent == Above(nodes, id, n) && seen == Met(nodes, id, n - 1)
      invariant seen <= nodes.Keys || parent == ""
      decreases |nodes.Keys - seen|, if parent == "" then 0 else 1
    {
      if parent in seen {
        MetTwice(nodes, id, n);
        return false;
      }
      assert nodes.Keys - (seen + {parent}) == nodes.Keys - seen - {parent};
      MetNext(nodes, id, n);
      seen := seen + {parent};
      AboveSplit(nodes, id, n, 1);
      OneUp(nodes, parent);
      parent := Up(nodes, parent);
      n := n + 1;
    }
    ok := true;
  }

  // ---------------------------------------------------------------------------------------------
  // Validation
  // ---------------------------------------------------------------------------------------------

  lemma {:induction false} ByIdKeys(cs: seq<Node>, id: string)
    ensures id in ById(cs) <==> exists i :: 0 <= i < |cs| && Trim(cs[i].id) == id
    ensures id in ById(cs) ==> ById(cs)[id] in cs && Trim(ById(cs)[id].id) == id
  {
    hide Trim;
    if cs != [] {
      var init, last := cs[..|cs| - 1], cs[|cs| - 1];
      ByIdKeys(init, id);
      assert forall i :: 0 <= i < |init| ==> init[i] == cs[i];
      if id in ById(init) {
        var i :| 0 <= i < |init| && Trim(init[i].id) == id;
        assert Trim(cs[i].id) == id;
      }
    }
  }

  /** The nodes so far are valid, or the next one spoils them. */
  ghost predicate NodeValid(nodes: Nodes, node: Node, known: set<string>) {
    && Trim(node.id) != "" && Trim(node.name) != "" && Trim(node.id) !in nodes
    && forall m :: m in node.members ==> m in known
  }

  lemma NextNode(cs: seq<Node>, i: nat, known: set<string>)
    requires i < |cs| && NodesValid(cs[..i], known)
    ensures NodeValid(ById(cs[..i]), cs[i], known) ==> NodesValid(cs[..i + 1], known)
    ensures !NodeValid(ById(cs[..i]), cs[i], known) ==> !NodesValid(cs, known)
    ensures ById(cs[..i + 1]) == ById(cs[..i])[Trim(cs[i].id) := cs[i]]
    ensures Assigned(cs[..i + 1]) == Assigned(cs[..i]) + set m | m in cs[i].members
  {
    hide Trim;
    var init := cs[..i];
    assert cs[..i + 1][..i] == init;
    ByIdKeys(init, Trim(cs[i].id));
    if Trim(cs[i].id) in ById(init) {
      var k :| 0 <= k < |init| && Trim(init[k].id) == Trim(cs[i].id);
      assert cs[k] == init[k];
    }
    assert forall k :: 0 <= k < i ==> cs[..i + 1][k] == init[k];
    AssignedNext(cs, i);
  }

  lemma AssignedNext(cs: seq<Node>, i: nat)
    requires i < |cs|
    ensures Assigned(cs[..i + 1]) == Assigned(cs[..i]) + set m | m in cs[i].members
  {
    var a, b := cs[..i], cs[..i + 1];
    assert b[i] == cs[i] && forall k :: 0 <= k < i ==> b[k] == a[k];
    assert Assigned(b) <= Assigned(a) + set m | m in cs[i].members;
    forall m | m in cs[i].members ensures m in Assigned(b) {
      var k :| 0 <= k < |cs[i].members| && cs[i].members[k] == m;
      assert b[i].members[k] == m;
    }
  }

  /** The loop over the nodes: indexes them by trimmed id and notes which tools are covered. */
  method CollectNodes(cs: seq<Node>, known: set<string>) returns (r: Option<(Nodes, set<string>)>)
    ensures r.Some? <==> NodesValid(cs, known)
    ensures r.Some? ==> r.value == (ById(cs), Assigned(cs))
  {
    hide Trim, NodesValid, Assigned;
    var nodes: Nodes, covered: set<string> := map[], {};
    NoNodes(cs, known);
    for i := 0 to |cs|
      invariant NodesValid(cs[..i], known) && nodes == ById(cs[..i]) && covered == Assigned(cs[..i])
    {
      NextNode(cs, i, known);
      var node := cs[i];
      if Trim(node.id) == "" || Trim(node.name) == "" || Trim(node.id) in nodes {
        return None;
      }
      nodes := nodes[Trim(node.id) := node];
      var members, ok := CollectMembers(node.members, known);
      if !ok {
        return None;
      }
      covered := covered + members;
    }
    assert cs[..|cs|] == cs;
    r := Some((nodes, covered));
  }

  lemma NoNodes(cs: seq<Node>, known: set<string>)
    ensures NodesValid(cs[..0], known) && ById(cs[..0]) == map[] && Assigned(cs[..0]) == {}
  {
  }

  method CollectMembers(members: seq<string>, known: set<string>) returns (found: set<string>, ok: bool)
    ensures ok <==> forall m :: m in members ==> m in known
    ensures ok ==> found == set m | m in members
  {
    found, ok := {}, true;
    for k := 0 to |members|
      invariant found == set m | m in members[..k]
      invariant forall m :: m in members[..k] ==> m in known
    {
      if members[k] !in known {
        return found, false;
      }
      assert members[..k + 1] == members[..k] + [members[k]];
      found := found + {members[k]};
    }
    assert members[..|members|] == members;
  }

  /** The loop over the indexed nodes: parents exist, and every walk up ends. */
  method CheckParents(nodes: Nodes) returns (ok: bool)
    requires "" !in nodes
    ensures ok <==> ParentsExist(nodes) && Acyclic(nodes)
  {
    var todo := nodes.Keys;
    while todo != {}
      invariant todo <= nodes.Keys
      invariant forall id :: id in nodes.Keys - todo ==> nodes[id].parent == "" || nodes[id].parent in nodes
      invariant forall id :: id in nodes.Keys - todo ==> Ends(nodes, id)
      decreases |todo|
    {
      var id :| id in todo;
      todo := todo - {id};
      if nodes[id].parent != "" && nodes[id].parent !in nodes {
        return false;
      }
      var ends := WalkEnds(nodes, id);
      if !ends {
        return false;
      }
    }
    forall id, k: nat | id in nodes && k >= 1 ensures Above(nodes, id, k) != id {
      assert Ends(nodes, id);
      var n: nat :| Above(nodes, id, n) == "";
      EndingWalkHasNoCycle(nodes, id, n, k);
    }
    ok := true;
  }

  /** Accepts exactly the acceptable hierarchies. */
  method ValidateHierarchy(h: Hierarchy, known: set<string>) returns (ok: bool)
    ensures ok <==> Acceptable(h, known)
  {
    hide NodesValid, Assigned, ParentsExist, Acyclic;
    if h.protocol != PROTOCOL {
      return false;
    }
    if |h.capabilities| == 0 && |known| != 0 {
      NoNodes(h.capabilities, known);
      assert h.capabilities[..0] == h.capabilities;
      return false;
    }
    var collected := CollectNodes(h.capabilities, known);
    if collected.None? {
      return false;
    }
    var (nodes, covered) := collected.value;
    NoEmptyId(h.capabilities, known);
    var parents := CheckParents(nodes);
    if !parents {
      return false;
    }
    var todo := known;
    while todo != {}
      invariant todo <= known && known - todo <= covered
      decreases |todo|
    {
      var m :| m in todo;
      if m !in covered {
        return false;
      }
      todo := todo - {m};
    }
    ok := true;
  }

  lemma NoEmptyId(cs: seq<Node>, known: set<string>)
    requires NodesValid(cs, known)
    ensures "" !in ById(cs)
  {
    hide Trim;
    ByIdKeys(cs, "");
  }

  // ---------------------------------------------------------------------------------------------
  // Paths through an accepted hierarchy
  // ---------------------------------------------------------------------------------------------

  /** Nodes by the id as it is written, which is how paths look them up. */
  function ByRawId(cs: seq<Node>): Nodes {
    if cs == [] then map[] else ByRawId(cs[..|cs| - 1])[cs[|cs| - 1].id := cs[|cs| - 1]]
  }

  /** The nodes from a node upwards, up to a root, a missing parent or one that was met already. */
  function Climb(node: Node, byId: Nodes, seen: set<string>): seq<Node>
    decreases |byId.Keys - seen|
  {
    if node.parent == "" || node.parent !in byId then [node]
    else
      var parent := byId[node.parent];
      if node.parent in seen then [node]
      else
        assert byId.Keys - (seen + {node.parent}) == byId.Keys - seen - {node.parent};
        [node] + Climb(parent, byId, seen + {node.parent})
  }

  function PathOf(node: Node, byId: Nodes): seq<Node> {
    Climb(node, byId, {node.id})
  }

  /** Lookups by written id give nodes with that id. */
  ghost predicate Keyed(byId: Nodes) {
    forall k :: k in byId ==> byId[k].id == k
  }

  method CapabilityPath(start: Node, byId: Nodes) returns (path: seq<Node>)
    requires Keyed(byId)
    ensures path == PathOf(start, byId)
  {
    path := [start];
    var seen, node := {start.id}, start;
    while node.parent != ""
      invariant |path| > 0 && path[|path| - 1] == node
      invariant PathOf(start, byId) == path[..|path| - 1] + Climb(node, byId, seen)
      decreases |byId.Keys - seen|
    {
      if node.parent !in byId {
        break;
      }
      var parent := byId[node.parent];
      if parent.id in seen {
        break;
      }
      assert byId.Keys - (seen + {parent.id}) == byId.Keys - seen - {parent.id};
      seen := seen + {parent.id};
      path := path + [parent];
      node := parent;
      assert path[..|path| - 1] + Climb(node, byId, seen) == PathOf(start, byId);
    }
    assert path == path[..|path| - 1] + [node];
  }

  /** The path ends at a root, and not at a missing parent or a repeated node. */
  predicate ReachesRoot(path: seq<Node>) {
    path != [] && path[|path| - 1].parent == ""
  }

  lemma {:induction false} ByRawIdKeys(cs: seq<Node>, id: string)
    ensures id in ByRawId(cs) <==> exists i :: 0 <= i < |cs| && cs[i].id == id
    ensures id in ByRawId(cs) ==> ByRawId(cs)[id] in cs && ByRawId(cs)[id].id == id
  {
    if cs != [] {
      var init, last := cs[..|cs| - 1], cs[|cs| - 1];
      ByRawIdKeys(init, id);
      assert forall i :: 0 <= i < |init| ==> init[i] == cs[i];
      if id in ByRawId(init) {
        var i :| 0 <= i < |init| && init[i].id == id;
        assert cs[i].id == id;
      }
    }
  }

  /** Every parent is written exactly as the id of some node is. */
  ghost predicate ParentsWritten(cs: seq<Node>) {
    forall node :: node in cs && node.parent != "" ==> node.parent in ByRawId(cs)
  }

  /** In a valid list, looking a node's id up finds the node. */
  lemma LooksUpItself(cs: seq<Node>, known: set<string>, node: Node)
    requires NodesValid(cs, known) && node in cs
    ensures Trim(node.id) in ById(cs) && ById(cs)[Trim(node.id)] == node
  {
    hide Trim;
    var id := Trim(node.id);
    ByIdKeys(cs, id);
    var found := ById(cs)[id];
    var i :| 0 <= i < |cs| && cs[i] == node;
    var j :| 0 <= j < |cs| && cs[j] == found;
    assert i == j;
  }

  /** Every node met so far has the current one above it. */
  ghost predicate AllBelow(nodes: Nodes, seen: set<string>, id: string) {
    forall s :: s in seen && Trim(s) == s && s in nodes ==> exists k: nat :: Above(nodes, s, k) == id
  }

  lemma BelowParent(nodes: Nodes, seen: set<string>, id: string, parent: string)
    requires AllBelow(nodes, seen, id) && Up(nodes, id) == parent
    ensures AllBelow(nodes, seen + {parent}, parent)
  {
    hide Trim;
    forall s | s in seen + {parent} && Trim(s) == s && s in nodes ensures exists k: nat :: Above(nodes, s, k) == parent {
      if s == parent {
        assert Above(nodes, s, 0) == parent;
      } else {
        var k: nat :| Above(nodes, s, k) == id;
        OneUp(nodes, id);
        AboveSplit(nodes, s, k, 1);
        assert Above(nodes, s, k + 1) == parent;
      }
    }
  }

  /** In an acyclic hierarchy the next parent has not been met. */
  lemma ParentIsNew(nodes: Nodes, seen: set<string>, id: string, parent: string)
    requires AllBelow(nodes, seen, id) && Up(nodes, id) == parent && Acyclic(nodes) && parent in nodes && Trim(parent) == parent
    ensures parent !in seen
  {
    if parent in seen {
      var k: nat :| Above(nodes, parent, k) == id;
      OneUp(nodes, id);
      AboveSplit(nodes, parent, k, 1);
      assert false;
    }
  }

  lemma {:induction false} ClimbReachesRoot(h: Hierarchy, known: set<string>, node: Node, seen: set<string>)
    requires Acceptable(h, known) && ParentsWritten(h.capabilities) && node in h.capabilities
    requires AllBelow(ById(h.capabilities), seen, Trim(node.id))
    ensures ReachesRoot(Climb(node, ByRawId(h.capabilities), seen))
    decreases |ByRawId(h.capabilities).Keys - seen|
  {
    hide Trim, NodesValid, Acyclic, Assigned, AllBelow, ById, ByRawId;
    var cs := h.capabilities;
    var nodes, raw := ById(cs), ByRawId(cs);
    if node.parent != "" {
      LooksUpItself(cs, known, node);
      ByRawIdKeys(cs, node.parent);
      var parent := raw[node.parent];
      assert node.parent in nodes;
      ByIdKeys(cs, node.parent);
      TrimTwice(nodes[node.parent].id);
      ParentIsNew(nodes, seen, Trim(node.id), node.parent);
      BelowParent(nodes, seen, Trim(node.id), node.parent);
      assert raw.Keys - (seen + {node.parent}) == raw.Keys - seen - {node.parent};
      ClimbReachesRoot(h, known, parent, seen + {node.parent});
    }
  }

  /**
   In an accepted hierarchy every path reaches a root exactly if every parent is written as the id of its
   node is. Validation trims ids and not parents, so it is the written form of the ids that matters.
   */
  lemma PathsReachRootsIff(h: Hierarchy, known: set<string>)
    requires Acceptable(h, known)
    ensures (forall node :: node in h.capabilities ==> ReachesRoot(PathOf(node, ByRawId(h.capabilities)))) <==> ParentsWritten(h.capabilities)
  {
    hide Trim;
    var cs := h.capabilities;
    if ParentsWritten(cs) {
      forall node | node in cs ensures ReachesRoot(PathOf(node, ByRawId(cs))) {
        assert Above(ById(cs), Trim(node.id), 0) == Trim(node.id);
        ClimbReachesRoot(h, known, node, {node.id});
      }
    } else {
      var node :| node in cs && node.parent != "" && node.parent !in ByRawId(cs);
      assert PathOf(node, ByRawId(cs)) == [node];
    }
  }

  /** With ids that are written trimmed, every path of an accepted hierarchy reaches a root. */
  lemma TrimmedIdsReachRoots(h: Hierarchy, known: set<string>, node: Node)
    requires Acceptable(h, known) && node in h.capabilities
    requires forall n :: n in h.capabilities ==> Trim(n.id) == n.id
    ensures ReachesRoot(PathOf(node, ByRawId(h.capabilities)))
  {
    hide Trim, Acyclic, NodesValid;
    var cs := h.capabilities;
    forall n | n in cs && n.parent != "" ensures n.parent in ByRawId(cs) {
      LooksUpItself(cs, known, n);
      ByIdKeys(cs, n.parent);
      ByRawIdKeys(cs, n.parent);
      var i :| 0 <= i < |cs| && Trim(cs[i].id) == n.parent;
      assert cs[i] in cs && cs[i].id == n.parent;
    }
    PathsReachRootsIff(h, known);
  }

  const Root := Node("a ", "A", "", [])
  const Leaf := Node("b", "B", "a", ["t"])

  /** An accepted hierarchy whose only path is cut short, because an id is written with a blank. */
  lemma BlankInIdCutsPath()
    ensures var h := Hierarchy(PROTOCOL, [Root, Leaf]);
            Acceptable(h, {"t"}) && PathOf(Leaf, ByRawId(h.capabilities)) == [Leaf]
  {
    hide Trim, Acyclic, NodesValid, Assigned, ParentsExist, ById, ByRawId;
    var cs := [Root, Leaf];
    BlankMaps();
    BlankNodes();
    TwoLevels(ById(cs), Root, Leaf);
    assert |"a "| != |"a"|;
  }

  lemma BlankMaps()
    ensures ById([Root, Leaf]) == map["a" := Root]["b" := Leaf] && ByRawId([Root, Leaf]) == map["a " := Root]["b" := Leaf]
  {
    hide Trim;
    BlankTrims();
    OneMore([], Root);
    OneMore([Root], Leaf);
    assert [] + [Root] == [Root] && [Root] + [Leaf] == [Root, Leaf];
  }

  lemma BlankNodes()
    ensures NodesValid([Root, Leaf], {"t"}) && {"t"} <= Assigned([Root, Leaf])
  {
    hide Trim;
    BlankTrims();
    var cs := [Root, Leaf];
    assert cs[1].members[0] == "t";
    assert "t" in Assigned(cs);
  }

  lemma OneMore(cs: seq<Node>, node: Node)
    ensures ById(cs + [node]) == ById(cs)[Trim(node.id) := node] && ByRawId(cs + [node]) == ByRawId(cs)[node.id := node]
  {
    hide Trim;
    assert (cs + [node])[..|cs|] == cs;
  }

  lemma TwoLevels(nodes: Nodes, root: Node, leaf: Node)
    requires nodes == map["a" := root]["b" := leaf] && root.parent == "" && leaf.parent == "a"
    ensures ParentsExist(nodes) && Acyclic(nodes)
  {
    forall id, k: nat | id in nodes && k >= 1 ensures Above(nodes, id, k) != id {
      OneUp(nodes, "a");
      OneUp(nodes, "b");
      AboveSplit(nodes, "b", 1, 1);
      EndingWalkHasNoCycle(nodes, id, if id == "a" then 1 else 2, k);
    }
  }

  lemma BlankTrims()
    ensures Trim("a ") == "a" && Trim("b") == "b" && Trim("A") == "A" && Trim("B") == "B"
  {
    assert "a "[..1] == "a";
  }

  predicate IsParent(node: Node, parent: Node, byId: Nodes) {
    node.parent != "" && node.parent in byId && parent == byId[node.parent]
  }

  /** A path begins with its node, and each further node is the one that the one before names as its parent. */
  lemma {:induction false} PathIsChain(node: Node, byId: Nodes, seen: set<string>)
    ensures var path := Climb(node, byId, seen);
            && path != [] && path[0] == node
            && forall i, j :: 0 <= i < j < |path| && j == i + 1 ==> IsParent(path[i], path[j], byId)
    decreases |byId.Keys - seen|
  {
    var path := Climb(node, byId, seen);
    if node.parent != "" && node.parent in byId && node.parent !in seen {
      assert byId.Keys - (seen + {node.parent}) == byId.Keys - seen - {node.parent};
      PathIsChain(byId[node.parent], byId, seen + {node.parent});
    }
  }

  /** With unique ids, every node is found under its own trimmed id. */
  lemma {:induction false} EveryNodeIsFound(cs: seq<Node>, k: nat)
    requires k < |cs| && forall i, j :: 0 <= i < j < |cs| ==> Trim(cs[i].id) != Trim(cs[j].id)
    ensures Trim(cs[k].id) in ById(cs) && ById(cs)[Trim(cs[k].id)] == cs[k]
    decreases |cs|
  {
    hide Trim;
    if k < |cs| - 1 {
      EveryNodeIsFound(cs[..|cs| - 1], k);
    }
  }
}
