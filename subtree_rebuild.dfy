/**
 * Rebuilding the state icons of a whole subtree: gatherLeavesAndSetStyle
 * clears every leaf, then gatherLeavesAndSetParentsStyle runs
 * setStyleRecursive from the parent of every leaf, leaves taken in
 * depth-first order. The theorem at the end says that afterwards every
 * node of the subtree holds exactly the icons carried below it that it
 * does not carry itself.
 */
module SubtreeRebuild {
  import opened MindMaps
  import opened StateIcons

  /** No leaf of s has an entry. */
  ghost predicate LeavesClear(m: MindMap, h: StateMap, s: set<Node>)
    requires Valid(m) && forall y :: y in s ==> Contains(m, y)
  {
    forall y :: y in s && IsLeaf(m, y) ==> y !in h
  }

  ghost predicate AllSettled(m: MindMap, h: StateMap, s: set<Node>)
    requires Valid(m) && forall y :: y in s ==> Contains(m, y)
  {
    forall y :: y in s ==> Settled(m, h, y)
  }

  /** The state after gatherLeavesAndSetParentsStyle(x). */
  ghost function ParentsRestyled(m: MindMap, h: StateMap, x: Node): StateMap
    requires Valid(m) && Contains(m, x)
    decreases |m.parent| - m.depth[x], 1, 0
  {
    DepthBound(m, x);
    if IsLeaf(m, x) then LeafRestyled(m, h, x)
    else
      ParentsRestyledFrom(m, h, x, 0)
  }

  /** gatherLeavesAndSetParentsStyle on a leaf: setStyleRecursive on its parent, if it has one. */
  ghost function LeafRestyled(m: MindMap, h: StateMap, x: Node): StateMap
    requires Valid(m) && Contains(m, x)
  {
    if m.parent[x].Some? then PathRestyled(m, h, m.parent[x].value) else h
  }

  /** The state after the loop of gatherLeavesAndSetParentsStyle(x) has visited children i, i + 1, ... */
  ghost function ParentsRestyledFrom(m: MindMap, h: StateMap, x: Node, i: nat): StateMap
    requires Valid(m) && Contains(m, x) && i <= |m.children[x]|
    decreases |m.parent| - m.depth[x], 0, |m.children[x]| - i
  {
    if i == |m.children[x]| then h
    else
      var c := m.children[x][i];
      assert c in m.children[x];
      DepthBound(m, c);
      ParentsRestyledFrom(m, ParentsRestyled(m, h, c), x, i + 1)
  }

  /** A node of a child's subtree is neither on the path from x upwards nor a leaf ancestor. */
  lemma BelowChildIsDeeper(m: MindMap, x: Node, c: Node, y: Node)
    requires Valid(m) && Contains(m, x) && c in m.children[x] && y in Subtree(m, c)
    ensures y !in Lineage(m, x)
  {
    ChildSubtreeInside(m, x, c, y);
    LineageDepth(m, x, y);
  }

  /** For a leaf x, gatherLeavesAndSetParentsStyle(x) is setStyleRecursive on x's parent. */
  lemma LeafParentsRestyledSettles(m: MindMap, h: StateMap, x: Node)
    requires Valid(m) && Contains(m, x) && IsLeaf(m, x) && x !in h
    ensures AllSettled(m, LeafRestyled(m, h, x), Subtree(m, x))
    ensures forall y :: y in Lineage(m, x) && y != x ==> Settled(m, LeafRestyled(m, h, x), y)
    ensures forall y :: y !in Subtree(m, x) && y !in Lineage(m, x) ==> SameEntry(h, LeafRestyled(m, h, x), y)
  {
    LeafSubtree(m, x);
    var r := LeafRestyled(m, h, x);
    if m.parent[x].Some? {
      var p := m.parent[x].value;
      assert r == PathRestyled(m, h, p);
      PathRestyledFrame(m, h, p);
      PathRestyledSettles(m, h, p);
      OffPathAbove(m, x, p);
      assert Lineage(m, x) == {x} + Lineage(m, p);
      assert SameEntry(h, r, x);
    } else {
      assert r == h;
      assert Lineage(m, x) == {x};
    }
    assert Settled(m, r, x);
  }

  /**
   * gatherLeavesAndSetParentsStyle(x), started with no leaf of x's subtree
   * holding an entry, leaves every node of the subtree settled and every
   * strict ancestor of x settled, and touches nothing else.
   */
  lemma {:induction false} ParentsRestyledSettles(m: MindMap, h: StateMap, x: Node)
    requires Valid(m) && Contains(m, x) && LeavesClear(m, h, Subtree(m, x))
    ensures AllSettled(m, ParentsRestyled(m, h, x), Subtree(m, x))
    ensures forall y :: y in Lineage(m, x) && y != x ==> Settled(m, ParentsRestyled(m, h, x), y)
    ensures forall y :: y !in Subtree(m, x) && y !in Lineage(m, x) ==> SameEntry(h, ParentsRestyled(m, h, x), y)
    decreases |m.parent| - m.depth[x], 1, 0
  {
    DepthBound(m, x);
    if IsLeaf(m, x) {
      LeafParentsRestyledSettles(m, h, x);
    } else {
      var cs := m.children[x];
      assert cs[0..] == cs;
      SubtreeDecompose(m, x);
      ParentsRestyledFromSettles(m, h, x, 0);
      assert x in Lineage(m, x);
    }
  }

  /** The subtree of a child of y lies inside the subtree of y. */
  lemma ChildSubtreeWithin(m: MindMap, y: Node, c: Node)
    requires Valid(m) && Contains(m, y) && c in m.children[y]
    ensures Subtree(m, c) <= Subtree(m, y)
  {
    forall z | z in Subtree(m, c) ensures z in Subtree(m, y) {
      ChildSubtreeInside(m, y, c, z);
    }
  }

  /** A subtree holds the children of each of its nodes. */
  lemma SubtreeClosed(m: MindMap, c: Node, y: Node, z: Node)
    requires Valid(m) && y in Subtree(m, c) && z in m.children[y]
    ensures z in Subtree(m, c)
  {
    assert Contains(m, z) && m.parent[z] == Some(y);
    assert Lineage(m, z) == {z} + Lineage(m, y);
  }

  /**
   * Settled nodes of a child's subtree stay settled when the rest of the
   * loop touches neither that subtree nor anything on the path above x.
   */
  lemma SettledSubtreeKept(m: MindMap, h1: StateMap, r: StateMap, x: Node, c: Node)
    requires Valid(m) && Contains(m, x) && c in m.children[x]
    requires AllSettled(m, h1, Subtree(m, c))
    requires forall y :: y in Subtree(m, c) ==> SameEntry(h1, r, y)
    ensures AllSettled(m, r, Subtree(m, c))
  {
    forall y | y in Subtree(m, c) ensures Settled(m, r, y) {
      forall z | z in m.children[y] ensures SameEntry(h1, r, z) {
        SubtreeClosed(m, c, y, z);
      }
      SettledFrame(m, h1, r, y);
    }
  }

  lemma {:induction false} ParentsRestyledFromSettles(m: MindMap, h: StateMap, x: Node, i: nat)
    requires Valid(m) && Contains(m, x) && i <= |m.children[x]|
    requires LeavesClear(m, h, SubtreesOf(m, m.children[x][i..]))
    ensures AllSettled(m, ParentsRestyledFrom(m, h, x, i), SubtreesOf(m, m.children[x][i..]))
    ensures i < |m.children[x]| ==>
      forall y :: y in Lineage(m, x) ==> Settled(m, ParentsRestyledFrom(m, h, x, i), y)
    ensures forall y :: y !in SubtreesOf(m, m.children[x][i..]) && y !in Lineage(m, x) ==>
      SameEntry(h, ParentsRestyledFrom(m, h, x, i), y)
    decreases |m.parent| - m.depth[x], 0, |m.children[x]| - i
  {
    var cs := m.children[x];
    if i < |cs| {
      var c := cs[i];
      assert c in cs;
      assert Contains(m, c) && m.parent[c] == Some(x);
      DepthBound(m, c);
      var rest := SubtreesOf(m, cs[i + 1..]);
      assert cs[i..][1..] == cs[i + 1..];
      assert SubtreesOf(m, cs[i..]) == Subtree(m, c) + rest;
      LaterSiblingsDisjoint(m, x, i);

      var h1 := ParentsRestyled(m, h, c);
      ParentsRestyledSettles(m, h, c);
      assert Lineage(m, c) == {c} + Lineage(m, x);
      LeavesStayClear(m, h, h1, x, c, rest);
      var r := ParentsRestyledFrom(m, h1, x, i + 1);
      assert r == ParentsRestyledFrom(m, h, x, i);
      ParentsRestyledFromSettles(m, h1, x, i + 1);
      forall y | y in Subtree(m, c) ensures SameEntry(h1, r, y) {
        BelowChildIsDeeper(m, x, c, y);
      }
      SettledSubtreeKept(m, h1, r, x, c);
      if i + 1 == |cs| {
        forall y | y in Lineage(m, x) ensures Settled(m, r, y) {
          assert y in Lineage(m, c) && y != c;
        }
      }
    }
  }

  /** Restyling below one child leaves the leaves under the later children without entries. */
  lemma LeavesStayClear(m: MindMap, h: StateMap, h1: StateMap, x: Node, c: Node, rest: set<Node>)
    requires Valid(m) && Contains(m, x) && c in m.children[x]
    requires forall y :: y in rest ==> Contains(m, y)
    requires rest !! Subtree(m, c) && LeavesClear(m, h, rest)
    requires forall y :: y !in Subtree(m, c) && y !in Lineage(m, c) ==> SameEntry(h, h1, y)
    ensures LeavesClear(m, h1, rest)
  {
    assert Contains(m, c);
    forall y | y in rest && IsLeaf(m, y) ensures y !in h1 {
      if y in Lineage(m, c) {
        if y != c {
          AncestorIsNotLeaf(m, y, c);
        }
      }
    }
  }

  /** The step of the fixpoint: a settled node whose children hold their icons below holds its own. */
  lemma HoldsBelowStep(m: MindMap, h: StateMap, y: Node)
    requires Valid(m) && Contains(m, y) && Settled(m, h, y)
    requires forall c :: c in m.children[y] ==> Contains(m, c) && HookOf(h, c) == Below(m, c) - OwnIcons(m, c)
    ensures HookOf(h, y) == Below(m, y) - OwnIcons(m, y)
  {
    AccumulatedMember(m, h, y);
    BelowStep(m, y);
    forall i ensures i in HookOf(h, y) <==> i in Below(m, y) - OwnIcons(m, y) {
      if i in HookOf(h, y) {
        var c :| c in m.children[y] && (i in OwnIcons(m, c) || i in HookOf(h, c));
        assert i in OwnIcons(m, c) || i in Below(m, c);
      }
      if i in Below(m, y) - OwnIcons(m, y) {
        var c :| c in m.children[y] && (i in OwnIcons(m, c) || i in Below(m, c));
        assert i in OwnIcons(m, c) || i in HookOf(h, c);
      }
    }
  }

  /**
   * When every node of y's subtree is settled, y's entry holds exactly the
   * icons carried by y's strict descendants that y does not carry itself.
   */
  lemma {:induction false} SettledSubtreeHoldsBelow(m: MindMap, h: StateMap, y: Node)
    requires Valid(m) && Contains(m, y) && AllSettled(m, h, Subtree(m, y))
    ensures HookOf(h, y) == Below(m, y) - OwnIcons(m, y)
    decreases |m.parent| - m.depth[y]
  {
    DepthBound(m, y);
    forall c | c in m.children[y] ensures Contains(m, c) && HookOf(h, c) == Below(m, c) - OwnIcons(m, c) {
      assert Contains(m, c) && m.parent[c] == Some(y);
      DepthBound(m, c);
      ChildSubtreeWithin(m, y, c);
      SettledSubtreeHoldsBelow(m, h, c);
    }
    assert y in Lineage(m, y);
    HoldsBelowStep(m, h, y);
  }

  /**
   * The state after the rebuild that add, mapChanged and readingCompleted
   * perform on x: gatherLeavesAndSetStyle(x), which removes the entry of
   * every leaf of x's subtree, then gatherLeavesAndSetParentsStyle(x).
   */
  ghost function Rebuilt(m: MindMap, h: StateMap, x: Node): StateMap
    requires Valid(m) && Contains(m, x)
  {
    ParentsRestyled(m, h - LeavesOf(m, Subtree(m, x)), x)
  }

  /**
   * After the rebuild of x every node y of x's subtree is settled and holds
   * exactly the icons carried below it minus its own; every ancestor of x
   * is settled; all other entries are as before.
   */
  lemma RebuildReachesFixpoint(m: MindMap, h: StateMap, x: Node)
    requires Valid(m) && Contains(m, x)
    ensures forall y :: y in Subtree(m, x) ==>
      Settled(m, Rebuilt(m, h, x), y) && HookOf(Rebuilt(m, h, x), y) == Below(m, y) - OwnIcons(m, y)
    ensures forall y :: y in Lineage(m, x) ==> Settled(m, Rebuilt(m, h, x), y)
    ensures forall y :: y !in Subtree(m, x) && y !in Lineage(m, x) ==> SameEntry(h, Rebuilt(m, h, x), y)
  {
    var h1 := h - LeavesOf(m, Subtree(m, x));
    var r := ParentsRestyled(m, h1, x);
    ParentsRestyledSettles(m, h1, x);
    forall y | y in Subtree(m, x) ensures HookOf(r, y) == Below(m, y) - OwnIcons(m, y) {
      forall z | z in Subtree(m, y) ensures z in Subtree(m, x) {
        LineageTransitive(m, x, y, z);
      }
      SettledSubtreeHoldsBelow(m, r, y);
    }
    assert x in Subtree(m, x);
  }
}
