/**
 * The node tree of a mind map as the hierarchical-icons hook sees it:
 * parent links, ordered child lists and the icons each node carries itself.
 */
module MindMaps {

  datatype Option<T> = None | Some(value: T)

  /** A node is named by its index into the per-node sequences of a MindMap. */
  type Node = nat

  /** An icon is identified by its name. */
  type Icon = string

  /**
   * parent[x]   : x's parent node, None for a root (NodeModel.getParentNode)
   * children[x] : x's children in iteration order (childrenUnfolded)
   * depth[x]    : x's distance from its root; it witnesses that following
   *               parent links always ends, so the links form a forest
   * icons[x]    : the icons x carries itself (IconController.getIcons)
   */
  datatype MindMap = MindMap(
    parent: seq<Option<Node>>,
    children: seq<seq<Node>>,
    depth: seq<nat>,
    icons: seq<seq<Icon>>)

  predicate Contains(m: MindMap, x: Node) {
    x < |m.parent|
  }

  /** Parent links and child lists describe the same forest, and no child is listed twice. */
  ghost predicate Valid(m: MindMap) {
    && |m.children| == |m.parent| && |m.depth| == |m.parent| && |m.icons| == |m.parent|
    && (forall x: Node, c :: Contains(m, x) && c in m.children[x] ==> Contains(m, c) && m.parent[c] == Some(x))
    && (forall x: Node :: Contains(m, x) && m.parent[x].Some? ==>
          Contains(m, m.parent[x].value)
          && x in m.children[m.parent[x].value]
          && m.depth[x] == m.depth[m.parent[x].value] + 1)
    && (forall x: Node :: Contains(m, x) && m.parent[x].None? ==> m.depth[x] == 0)
    && (forall x: Node, i, j :: Contains(m, x) && 0 <= i < j < |m.children[x]| ==> m.children[x][i] != m.children[x][j])
  }

  /** getChildCount() == 0 */
  predicate IsLeaf(m: MindMap, x: Node)
    requires Valid(m) && Contains(m, x)
  {
    |m.children[x]| == 0
  }

  function OwnIcons(m: MindMap, x: Node): set<Icon>
    requires Valid(m) && Contains(m, x)
  {
    set i | i in m.icons[x]
  }

  /** x together with all its ancestors, up to its root. */
  ghost function Lineage(m: MindMap, x: Node): (r: set<Node>)
    requires Valid(m) && Contains(m, x)
    ensures x in r
    ensures forall a :: a in r ==> Contains(m, a) && m.depth[a] <= m.depth[x]
    decreases m.depth[x]
  {
    {x} + if m.parent[x].Some? then Lineage(m, m.parent[x].value) else {}
  }

  /** y lies in the subtree rooted at r (r itself included). */
  ghost predicate InSubtree(m: MindMap, r: Node, y: Node)
    requires Valid(m) && Contains(m, y)
  {
    r in Lineage(m, y)
  }

  ghost function Subtree(m: MindMap, r: Node): (s: set<Node>)
    requires Valid(m)
    ensures forall y :: y in s ==> Contains(m, y)
  {
    set y: Node | y < |m.parent| && InSubtree(m, r, y)
  }

  /** The union of the subtrees rooted at the nodes of cs. */
  ghost function SubtreesOf(m: MindMap, cs: seq<Node>): (s: set<Node>)
    requires Valid(m)
    ensures forall y :: y in s ==> Contains(m, y)
  {
    if cs == [] then {} else Subtree(m, cs[0]) + SubtreesOf(m, cs[1..])
  }

  ghost function LeavesOf(m: MindMap, s: set<Node>): set<Node>
    requires Valid(m) && forall y :: y in s ==> Contains(m, y)
  {
    set y | y in s && IsLeaf(m, y)
  }

  /** The icons carried by the strict descendants of y. */
  ghost function Below(m: MindMap, y: Node): set<Icon>
    requires Valid(m) && Contains(m, y)
  {
    set z: Node, i | z < |m.parent| && z != y && InSubtree(m, y, z) && i in m.icons[z] :: i
  }

  lemma LineageDepth(m: MindMap, a: Node, y: Node)
    requires Valid(m) && Contains(m, y) && InSubtree(m, a, y)
    ensures Contains(m, a) && m.depth[a] <= m.depth[y]
    ensures m.depth[a] == m.depth[y] ==> a == y
  {
    if a != y {
      var p := m.parent[y].value;
      assert a in Lineage(m, p);
    }
  }

  /** Two ancestors of y at the same depth are the same node. */
  lemma {:induction false} LineageUnique(m: MindMap, a: Node, b: Node, y: Node)
    requires Valid(m) && Contains(m, y)
    requires InSubtree(m, a, y) && InSubtree(m, b, y)
    requires Contains(m, a) && Contains(m, b) && m.depth[a] == m.depth[b]
    ensures a == b
    decreases m.depth[y]
  {
    if a == y || b == y {
      LineageDepth(m, a, y);
      LineageDepth(m, b, y);
    } else {
      LineageUnique(m, a, b, m.parent[y].value);
    }
  }

  lemma {:induction false} LineageTransitive(m: MindMap, a: Node, b: Node, y: Node)
    requires Valid(m) && Contains(m, y) && Contains(m, b)
    requires InSubtree(m, b, y) && InSubtree(m, a, b)
    ensures InSubtree(m, a, y)
    decreases m.depth[y]
  {
    if b != y {
      LineageTransitive(m, a, b, m.parent[y].value);
    }
  }

  /** A strict ancestor has at least one child. */
  lemma AncestorIsNotLeaf(m: MindMap, a: Node, y: Node)
    requires Valid(m) && Contains(m, y) && InSubtree(m, a, y) && a != y
    ensures Contains(m, a) && !IsLeaf(m, a)
    decreases m.depth[y]
  {
    var p := m.parent[y].value;
    if a != p {
      AncestorIsNotLeaf(m, a, p);
    }
  }

  /** A strict descendant y of x lies in the subtree of one of x's children. */
  lemma {:induction false} ChildTowards(m: MindMap, x: Node, y: Node) returns (c: Node)
    requires Valid(m) && Contains(m, y) && InSubtree(m, x, y) && y != x
    ensures Contains(m, x) && c in m.children[x] && InSubtree(m, c, y)
    decreases m.depth[y]
  {
    var p := m.parent[y].value;
    if p == x {
      c := y;
    } else {
      c := ChildTowards(m, x, p);
      assert Contains(m, c) && InSubtree(m, c, p);
      LineageTransitive(m, c, p, y);
    }
  }

  /** Everything in the subtree of a child of x is a strict descendant of x. */
  lemma ChildSubtreeInside(m: MindMap, x: Node, c: Node, y: Node)
    requires Valid(m) && Contains(m, x) && Contains(m, y) && c in m.children[x] && InSubtree(m, c, y)
    ensures InSubtree(m, x, y) && y != x
  {
    assert InSubtree(m, x, c);
    LineageTransitive(m, x, c, y);
    LineageDepth(m, c, y);
  }

  lemma SubtreeSplit(m: MindMap, x: Node, y: Node)
    requires Valid(m) && Contains(m, x) && Contains(m, y)
    ensures (InSubtree(m, x, y) && y != x) <==> exists c :: c in m.children[x] && InSubtree(m, c, y)
  {
    if InSubtree(m, x, y) && y != x {
      var c := ChildTowards(m, x, y);
    }
    if exists c :: c in m.children[x] && InSubtree(m, c, y) {
      var c :| c in m.children[x] && InSubtree(m, c, y);
      ChildSubtreeInside(m, x, c, y);
    }
  }

  lemma {:induction false} SubtreesOfMember(m: MindMap, cs: seq<Node>, y: Node)
    requires Valid(m)
    ensures y in SubtreesOf(m, cs) <==> Contains(m, y) && exists c :: c in cs && InSubtree(m, c, y)
  {
    if cs != [] {
      SubtreesOfMember(m, cs[1..], y);
      if Contains(m, y) && exists c :: c in cs && InSubtree(m, c, y) {
        var c :| c in cs && InSubtree(m, c, y);
        if c != cs[0] {
          assert c in cs[1..];
        }
      }
    }
  }

  lemma SubtreesOfSplit(m: MindMap, cs: seq<Node>, i: nat)
    requires Valid(m) && i <= |cs|
    ensures SubtreesOf(m, cs) == SubtreesOf(m, cs[..i]) + SubtreesOf(m, cs[i..])
  {
    forall y ensures y in SubtreesOf(m, cs) <==> y in SubtreesOf(m, cs[..i]) + SubtreesOf(m, cs[i..]) {
      SubtreesOfMember(m, cs, y);
      SubtreesOfMember(m, cs[..i], y);
      SubtreesOfMember(m, cs[i..], y);
      if Contains(m, y) && exists c :: c in cs && InSubtree(m, c, y) {
        var c :| c in cs && InSubtree(m, c, y);
        var k :| 0 <= k < |cs| && cs[k] == c;
        if k < i { assert cs[..i][k] == c; } else { assert cs[i..][k - i] == c; }
      }
    }
  }

  /** Taking one more child of a list adds that child's subtree. */
  lemma SubtreesOfPrefixStep(m: MindMap, cs: seq<Node>, i: nat)
    requires Valid(m) && i < |cs|
    ensures SubtreesOf(m, cs[..i + 1]) == SubtreesOf(m, cs[..i]) + Subtree(m, cs[i])
  {
    SubtreesOfSplit(m, cs[..i + 1], i);
    assert cs[..i + 1][..i] == cs[..i];
    assert cs[..i + 1][i..] == [cs[i]];
    assert SubtreesOf(m, [cs[i]]) == Subtree(m, cs[i]) + SubtreesOf(m, []);
  }

  lemma LeavesOfPrefixStep(m: MindMap, cs: seq<Node>, i: nat)
    requires Valid(m) && i < |cs|
    ensures LeavesOf(m, SubtreesOf(m, cs[..i + 1])) == LeavesOf(m, SubtreesOf(m, cs[..i])) + LeavesOf(m, Subtree(m, cs[i]))
  {
    SubtreesOfPrefixStep(m, cs, i);
  }

  /** The subtree of x is x itself plus the subtrees of its children. */
  lemma SubtreeDecompose(m: MindMap, x: Node)
    requires Valid(m) && Contains(m, x)
    ensures Subtree(m, x) == {x} + SubtreesOf(m, m.children[x])
  {
    forall y ensures y in Subtree(m, x) <==> y in {x} + SubtreesOf(m, m.children[x]) {
      SubtreesOfMember(m, m.children[x], y);
      if Contains(m, y) {
        SubtreeSplit(m, x, y);
      }
    }
  }

  lemma LeafSubtree(m: MindMap, x: Node)
    requires Valid(m) && Contains(m, x) && IsLeaf(m, x)
    ensures Subtree(m, x) == {x}
  {
    forall y | y in Subtree(m, x) ensures y == x {
      if y != x {
        AncestorIsNotLeaf(m, x, y);
      }
    }
  }

  /** The only leaf under a leaf is the leaf itself. */
  lemma LeafLeaves(m: MindMap, x: Node)
    requires Valid(m) && Contains(m, x) && IsLeaf(m, x)
    ensures LeavesOf(m, Subtree(m, x)) == {x}
  {
    LeafSubtree(m, x);
  }

  /** The leaves under an inner node are the leaves under its children. */
  lemma InnerLeaves(m: MindMap, x: Node)
    requires Valid(m) && Contains(m, x) && !IsLeaf(m, x)
    ensures LeavesOf(m, Subtree(m, x)) == LeavesOf(m, SubtreesOf(m, m.children[x]))
  {
    SubtreeDecompose(m, x);
  }

  /** The subtrees of two different children of x share no node. */
  lemma SiblingSubtreesDisjoint(m: MindMap, x: Node, i: nat, j: nat)
    requires Valid(m) && Contains(m, x) && i < |m.children[x]| && j < |m.children[x]| && i != j
    ensures Subtree(m, m.children[x][i]) !! Subtree(m, m.children[x][j])
  {
    var a, b := m.children[x][i], m.children[x][j];
    if i < j {
      assert a != b;
    } else {
      assert a != b;
    }
    assert a in m.children[x] && b in m.children[x];
    assert Contains(m, a) && m.parent[a] == Some(x);
    assert Contains(m, b) && m.parent[b] == Some(x);
    assert m.depth[a] == m.depth[b];
    forall y | y in Subtree(m, a) && y in Subtree(m, b) ensures false {
      LineageUnique(m, a, b, y);
    }
  }

  /** The subtree of one child of x is disjoint from those of the children listed after it. */
  lemma LaterSiblingsDisjoint(m: MindMap, x: Node, i: nat)
    requires Valid(m) && Contains(m, x) && i < |m.children[x]|
    ensures Subtree(m, m.children[x][i]) !! SubtreesOf(m, m.children[x][i + 1..])
  {
    var cs := m.children[x];
    forall y | y in Subtree(m, cs[i]) && y in SubtreesOf(m, cs[i + 1..]) ensures false {
      SubtreesOfMember(m, cs[i + 1..], y);
      var c :| c in cs[i + 1..] && InSubtree(m, c, y);
      var k :| i + 1 <= k < |cs| && cs[k] == c;
      SiblingSubtreesDisjoint(m, x, i, k);
    }
  }

  /** An icon below y comes from a child c of y: it is c's own or below c. */
  lemma BelowFromChild(m: MindMap, y: Node, i: Icon) returns (c: Node)
    requires Valid(m) && Contains(m, y) && i in Below(m, y)
    ensures c in m.children[y] && Contains(m, c) && (i in OwnIcons(m, c) || i in Below(m, c))
  {
    var z: Node :| z < |m.parent| && z != y && InSubtree(m, y, z) && i in m.icons[z];
    c := ChildTowards(m, y, z);
    if z == c {
      assert i in OwnIcons(m, c);
    } else {
      assert i in Below(m, c);
    }
  }

  /** A child's own icons and the icons below it are below its parent. */
  lemma BelowFromParent(m: MindMap, y: Node, c: Node, i: Icon)
    requires Valid(m) && Contains(m, y) && c in m.children[y]
    requires Contains(m, c) && (i in OwnIcons(m, c) || i in Below(m, c))
    ensures i in Below(m, y)
  {
    var z: Node;
    if i in OwnIcons(m, c) {
      z := c;
    } else {
      z :| z < |m.parent| && z != c && InSubtree(m, c, z) && i in m.icons[z];
    }
    ChildSubtreeInside(m, y, c, z);
    assert z < |m.parent| && z != y && InSubtree(m, y, z) && i in m.icons[z];
  }

  /**
   * The icons below y are, for each child c of y, c's own icons together
   * with the icons below c.
   */
  lemma BelowStep(m: MindMap, y: Node)
    requires Valid(m) && Contains(m, y)
    ensures forall i :: i in Below(m, y) <==>
      exists c :: c in m.children[y] && (i in OwnIcons(m, c) || i in Below(m, c))
  {
    forall i | i in Below(m, y)
      ensures exists c :: c in m.children[y] && (i in OwnIcons(m, c) || i in Below(m, c))
    {
      var c := BelowFromChild(m, y, i);
    }
    forall i, c | c in m.children[y] && (i in OwnIcons(m, c) || i in Below(m, c))
      ensures i in Below(m, y)
    {
      BelowFromParent(m, y, c, i);
    }
  }

  lemma {:induction false} LineageSize(m: MindMap, x: Node)
    requires Valid(m) && Contains(m, x)
    ensures |Lineage(m, x)| == m.depth[x] + 1
    decreases m.depth[x]
  {
    if m.parent[x].Some? {
      var p := m.parent[x].value;
      LineageSize(m, p);
      assert x !in Lineage(m, p);
    }
  }

  /** A set of nodes all below n has at most n elements. */
  lemma {:induction false} BoundedSetSize(s: set<Node>, n: nat)
    requires forall y :: y in s ==> y < n
    ensures |s| <= n
  {
    if n > 0 {
      BoundedSetSize(s - {n - 1}, n - 1);
    } else {
      assert s == {};
    }
  }

  /** No node is deeper than the number of nodes: following parent links never revisits a node. */
  lemma DepthBound(m: MindMap, x: Node)
    requires Valid(m) && Contains(m, x)
    ensures m.depth[x] < |m.parent|
  {
    LineageSize(m, x);
    BoundedSetSize(Lineage(m, x), |m.parent|);
  }
}
