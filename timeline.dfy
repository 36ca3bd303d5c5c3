/**
 * The checkpoint timeline of a session (src/components/TimelineNavigator.tsx): a tree of
 * checkpoints, the search for the checkpoint that is current (whose ancestors are expanded when the
 * timeline loads), and the set of expanded nodes the user toggles.
 */
module Timeline {
  import opened Base

  /** A checkpoint (only its id matters here) and the checkpoints forked from it. */
  datatype TimelineNode = TimelineNode(id: string, children: seq<TimelineNode>)

  /**
   * `findPathToCheckpoint` as written. A node that is the target gives back `path`; otherwise the
   * children are tried in order, and the first whose result is longer than `path` wins.
   */
  function FindPath(node: TimelineNode, target: string, path: seq<string>): (r: seq<string>)
    ensures path <= r
    decreases node, 1
  {
    if node.id == target then path
    else FindInChildren(node.children, target, path, path + [node.id])
  }

  /** The loop over the children: `extended` is `path` with the node's own id added. */
  function FindInChildren(children: seq<TimelineNode>, target: string, path: seq<string>, extended: seq<string>): (r: seq<string>)
    requires path <= extended
    ensures path <= r
    decreases children, 0
  {
    if children == [] then path
    else
      var childPath := FindPath(children[0], target, extended);
      if |childPath| > |path| then childPath
      else FindInChildren(children[1..], target, path, extended)
  }

  /**
   * The target node gives back `path`. Any other node gives the first child's answer, found or
   * not, because that answer always extends `path` by the node's id; a leaf gives back `path`.
   */
  lemma FirstChildDecides(node: TimelineNode, target: string, path: seq<string>)
    ensures node.id == target ==> FindPath(node, target, path) == path
    ensures node.id != target && node.children == [] ==> FindPath(node, target, path) == path
    ensures node.id != target && node.children != [] ==>
              FindPath(node, target, path) == FindPath(node.children[0], target, path + [node.id])
  {
    if node.id != target && node.children != [] {
      var childPath := FindPath(node.children[0], target, path + [node.id]);
      assert path + [node.id] <= childPath;
      assert |childPath| > |path|;
    }
  }

  /** `ids` are the ids from `node` down to the parent of a node with id `target`, in that order. */
  ghost predicate Reaches(node: TimelineNode, ids: seq<string>, target: string)
    decreases node
  {
    if ids == [] then node.id == target
    else ids[0] == node.id && exists k :: 0 <= k < |node.children| && Reaches(node.children[k], ids[1..], target)
  }

  /** The ids along the first-child chain, `depth` steps down from `node`. */
  function FirstChain(node: TimelineNode, depth: nat): (r: Option<(seq<string>, TimelineNode)>)
    ensures r.Some? ==> |r.value.0| == depth
    decreases depth
  {
    if depth == 0 then Some(([], node))
    else if node.children == [] then None
    else
      match FirstChain(node.children[0], depth - 1)
      case None => None
      case Some((ids, end)) => Some(([node.id] + ids, end))
  }

  /** When the target sits on the first-child chain and nowhere above it there, the result is the chain's ids. */
  lemma {:induction false} FirstChainIsFound(node: TimelineNode, target: string, path: seq<string>, depth: nat)
    requires FirstChain(node, depth).Some? && FirstChain(node, depth).value.1.id == target
    requires forall d :: 0 <= d < depth ==> FirstChain(node, d).Some? && FirstChain(node, d).value.1.id != target
    ensures FindPath(node, target, path) == path + FirstChain(node, depth).value.0
    decreases depth
  {
    if depth == 0 {
      assert path + [] == path;
    } else {
      assert FirstChain(node, 0).value.1 == node;
      FirstChildDecides(node, target, path);
      var child := node.children[0];
      forall d | 0 <= d < depth - 1
        ensures FirstChain(child, d).Some? && FirstChain(child, d).value.1.id != target
      {
        assert FirstChain(node, d + 1).Some?;
      }
      FirstChainIsFound(child, target, path + [node.id], depth - 1);
      assert path + [node.id] + FirstChain(child, depth - 1).value.0 == path + FirstChain(node, depth).value.0;
    }
  }

  /** The search as intended: `None` when the target is not in the subtree, else the ids leading to it. */
  function FindPathIntended(node: TimelineNode, target: string, path: seq<string>): (r: Option<seq<string>>)
    ensures r.Some? ==> path <= r.value
    decreases node, 1
  {
    if node.id == target then Some(path)
    else FindInChildrenIntended(node.children, target, path + [node.id])
  }

  function FindInChildrenIntended(children: seq<TimelineNode>, target: string, extended: seq<string>): (r: Option<seq<string>>)
    ensures r.Some? ==> extended <= r.value
    decreases children, 0
  {
    if children == [] then None
    else
      match FindPathIntended(children[0], target, extended)
      case Some(p) => Some(p)
      case None => FindInChildrenIntended(children[1..], target, extended)
  }

  /** Whatever the intended search finds is a path of ancestors of a node with the target id. */
  lemma {:induction false} IntendedFindsAncestors(node: TimelineNode, target: string, path: seq<string>)
    ensures FindPathIntended(node, target, path).Some? ==>
              var p := FindPathIntended(node, target, path).value;
              Reaches(node, p[|path|..], target)
    decreases node, 1
  {
    var r := FindPathIntended(node, target, path);
    if r.Some? && node.id != target {
      var p := r.value;
      var k := IntendedChildFinds(node.children, target, path + [node.id]);
      IntendedFindsAncestors(node.children[k], target, path + [node.id]);
      assert p[|path|..][1..] == p[|path| + 1..];
      assert p[|path|..][0] == node.id;
    } else if r.Some? {
      assert r.value[|path|..] == [];
    }
  }

  /** The child the intended loop takes its answer from. */
  lemma {:induction false} IntendedChildFinds(children: seq<TimelineNode>, target: string, extended: seq<string>) returns (k: nat)
    requires FindInChildrenIntended(children, target, extended).Some?
    ensures k < |children| && FindPathIntended(children[k], target, extended) == FindInChildrenIntended(children, target, extended)
    decreases children
  {
    if FindPathIntended(children[0], target, extended).Some? {
      k := 0;
    } else {
      var j := IntendedChildFinds(children[1..], target, extended);
      k := j + 1;
    }
  }

  /** The intended search finds every target that is in the tree. */
  lemma {:induction false} IntendedFindsPresent(node: TimelineNode, target: string, path: seq<string>, ids: seq<string>)
    requires Reaches(node, ids, target)
    ensures FindPathIntended(node, target, path).Some?
    decreases node, 1
  {
    if node.id != target {
      var k :| 0 <= k < |node.children| && Reaches(node.children[k], ids[1..], target);
      IntendedFindsPresent(node.children[k], target, path + [node.id], ids[1..]);
      ChildFindsForLoop(node.children, target, path + [node.id], k);
    }
  }

  lemma {:induction false} ChildFindsForLoop(children: seq<TimelineNode>, target: string, extended: seq<string>, k: nat)
    requires k < |children| && FindPathIntended(children[k], target, extended).Some?
    ensures FindInChildrenIntended(children, target, extended).Some?
    decreases k
  {
    if k > 0 && FindPathIntended(children[0], target, extended).None? {
      ChildFindsForLoop(children[1..], target, extended, k - 1);
    }
  }

  /** The checkpoint tree R with children A (whose child is C) and B. */
  const Forked: TimelineNode := TimelineNode("R", [TimelineNode("A", [TimelineNode("C", [])]), TimelineNode("B", [])])

  /**
   * Looking for B in that tree: as written the search answers with the first child's path, so the
   * ids of R and A are expanded, while B's only ancestor is R; the intended search finds [R].
   */
  lemma FindPathMissesSecondChild()
    ensures FindPath(Forked, "B", []) == ["R", "A"]
    ensures !Reaches(Forked, ["R", "A"], "B") && Reaches(Forked, ["R"], "B")
    ensures FindPathIntended(Forked, "B", []) == Some(["R"])
  {
    var a := Forked.children[0];
    var b := Forked.children[1];
    var c := a.children[0];
    FirstChildDecides(Forked, "B", []);
    FirstChildDecides(a, "B", ["R"]);
    FirstChildDecides(c, "B", ["R", "A"]);
    assert Reaches(b, [], "B");
    assert ["R"][1..] == [];
    assert Reaches(Forked, ["R"], "B");
    assert !Reaches(Forked, ["R", "A"], "B") by {
      assert ["R", "A"][1..] == ["A"];
      assert !Reaches(a, ["A"], "B") by {
        assert ["A"][1..] == [];
        assert !Reaches(c, [], "B");
      }
      assert !Reaches(b, ["A"], "B");
    }
    assert FindPathIntended(c, "B", ["R", "A"]) == None;
    assert ["R"] + ["A"] == ["R", "A"];
    assert FindInChildrenIntended([c], "B", ["R", "A"]) == None;
    assert FindPathIntended(a, "B", ["R"]) == None;
    assert Forked.children[1..] == [b];
    assert FindPathIntended(b, "B", ["R"]) == Some(["R"]);
    assert FindInChildrenIntended([b], "B", ["R"]) == Some(["R"]);
    assert [] + ["R"] == ["R"];
    assert FindInChildrenIntended(Forked.children, "B", ["R"]) == Some(["R"]);
  }

  /** Flips the membership of `id` and of nothing else. */
  function Toggled(s: set<string>, id: string): (r: set<string>)
    ensures forall x :: x in r <==> (if x == id then x !in s else x in s)
  {
    if id in s then s - {id} else s + {id}
  }

  /** Toggling the same node twice restores the set. */
  lemma ToggleTwice(s: set<string>, id: string)
    ensures Toggled(Toggled(s, id), id) == s
  {
    var t := Toggled(Toggled(s, id), id);
    assert forall x :: x in t <==> x in s;
  }

  class TimelineView {
    var expandedNodes: set<string>

    constructor()
      ensures expandedNodes == {}
    {
      expandedNodes := {};
    }

    /** After the timeline loads, the nodes on the path the search returns for the current checkpoint are expanded. */
    method ExpandToCurrent(root: Option<TimelineNode>, currentCheckpointId: Option<string>)
      modifies this
      ensures root.Some? && currentCheckpointId.Some? && currentCheckpointId.value != "" ==>
                expandedNodes == set x | x in FindPath(root.value, currentCheckpointId.value, [])
      ensures !(root.Some? && currentCheckpointId.Some? && currentCheckpointId.value != "") ==>
                expandedNodes == old(expandedNodes)
    {
      if currentCheckpointId.Some? && currentCheckpointId.value != "" && root.Some? {
        var pathToNode := FindPath(root.value, currentCheckpointId.value, []);
        expandedNodes := set x | x in pathToNode;
      }
    }

    /** `toggleNodeExpansion`. */
    method ToggleNodeExpansion(nodeId: string)
      modifies this
      ensures expandedNodes == Toggled(old(expandedNodes), nodeId)
    {
      var newExpanded := expandedNodes;
      if nodeId in newExpanded {
        newExpanded := newExpanded - {nodeId};
      } else {
        newExpanded := newExpanded + {nodeId};
      }
      expandedNodes := newExpanded;
    }
  }
}
