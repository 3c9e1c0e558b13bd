/**
 * The hook's state icons: for every node, the icons gathered from below it,
 * stored in the node's state-icon slot under the hook's name. A node with
 * no entry shows nothing (the slot holds null).
 */
module StateIcons {
  import opened MindMaps

  type StateMap = map<Node, set<Icon>>

  /** The icons of x's entry; a missing entry contributes nothing. */
  function HookOf(h: StateMap, x: Node): set<Icon> {
    if x in h then h[x] else {}
  }

  /** x's entry is the same in both maps (both missing, or both present and equal). */
  ghost predicate SameEntry(h1: StateMap, h2: StateMap, x: Node) {
    && (x in h1 <==> x in h2)
    && (x in h1 ==> h1[x] == h2[x])
  }

  /**
   * setStateIcon when s is non-empty, removeStateIcons otherwise: an empty
   * set is never stored, and no other node's entry changes.
   */
  function WithStateIcons(h: StateMap, x: Node, s: set<Icon>): (r: StateMap)
    ensures x in r <==> s != {}
    ensures x in r ==> r[x] == s
    ensures forall y :: y != x ==> SameEntry(h, r, y)
  {
    if |s| > 0 then h[x := s] else h - {x}
  }

  /** What the loop over the children cs puts into the icon set: own icons and entry of each. */
  function ChildIcons(m: MindMap, h: StateMap, cs: seq<Node>): set<Icon>
    requires Valid(m) && forall c :: c in cs ==> Contains(m, c)
  {
    if cs == [] then {}
    else
      var last := cs[|cs| - 1];
      ChildIcons(m, h, cs[..|cs| - 1]) + OwnIcons(m, last) + HookOf(h, last)
  }

  /** One more turn of the children loop adds the next child's own icons and entry. */
  lemma ChildIconsStep(m: MindMap, h: StateMap, cs: seq<Node>, k: nat)
    requires Valid(m) && k < |cs| && forall c :: c in cs ==> Contains(m, c)
    ensures Contains(m, cs[k])
    ensures ChildIcons(m, h, cs[..k + 1]) == ChildIcons(m, h, cs[..k]) + OwnIcons(m, cs[k]) + HookOf(h, cs[k])
  {
    assert cs[k] in cs;
    assert cs[..k + 1][..k] == cs[..k];
  }

  lemma {:induction false} ChildIconsMember(m: MindMap, h: StateMap, cs: seq<Node>)
    requires Valid(m) && forall c :: c in cs ==> Contains(m, c)
    ensures forall i :: i in ChildIcons(m, h, cs) <==>
      exists c :: c in cs && (i in OwnIcons(m, c) || i in HookOf(h, c))
  {
    if cs != [] {
      var init, last := cs[..|cs| - 1], cs[|cs| - 1];
      ChildIconsMember(m, h, init);
      forall i ensures i in ChildIcons(m, h, cs) <==>
        exists c :: c in cs && (i in OwnIcons(m, c) || i in HookOf(h, c))
      {
        if exists c :: c in cs && (i in OwnIcons(m, c) || i in HookOf(h, c)) {
          var c :| c in cs && (i in OwnIcons(m, c) || i in HookOf(h, c));
          if c != last {
            assert c in init;
          }
        }
      }
    }
  }

  /** Two runs of the children loop see the same icons when every child looks the same to both. */
  lemma {:induction false} ChildIconsAgree(m1: MindMap, m2: MindMap, h1: StateMap, h2: StateMap, cs: seq<Node>)
    requires Valid(m1) && Valid(m2)
    requires forall c :: c in cs ==> Contains(m1, c) && Contains(m2, c)
    requires forall c :: c in cs ==> OwnIcons(m1, c) == OwnIcons(m2, c) && HookOf(h1, c) == HookOf(h2, c)
    ensures ChildIcons(m1, h1, cs) == ChildIcons(m2, h2, cs)
  {
    if cs != [] {
      ChildIconsAgree(m1, m2, h1, h2, cs[..|cs| - 1]);
    }
  }

  /** The icon set setStyle computes for x. */
  function Accumulated(m: MindMap, h: StateMap, x: Node): (r: set<Icon>)
    requires Valid(m) && Contains(m, x)
    ensures r !! OwnIcons(m, x)
    ensures IsLeaf(m, x) ==> r == {}
  {
    ChildIcons(m, h, m.children[x]) - OwnIcons(m, x)
  }

  /**
   * An icon is accumulated at x exactly when x does not carry it itself and
   * some child of x carries it or has it in its entry.
   */
  lemma AccumulatedMember(m: MindMap, h: StateMap, x: Node)
    requires Valid(m) && Contains(m, x)
    ensures forall i :: i in Accumulated(m, h, x) <==>
      i !in OwnIcons(m, x) && exists c :: c in m.children[x] && (i in OwnIcons(m, c) || i in HookOf(h, c))
  {
    ChildIconsMember(m, h, m.children[x]);
  }

  /**
   * setStyle reads only x's own icons, its children list, and its children's
   * own icons and entries.
   */
  lemma AccumulatedReadsChildren(m1: MindMap, m2: MindMap, h1: StateMap, h2: StateMap, x: Node)
    requires Valid(m1) && Valid(m2) && Contains(m1, x) && Contains(m2, x)
    requires m1.children[x] == m2.children[x] && OwnIcons(m1, x) == OwnIcons(m2, x)
    requires forall c :: c in m1.children[x] ==> OwnIcons(m1, c) == OwnIcons(m2, c) && HookOf(h1, c) == HookOf(h2, c)
    ensures Accumulated(m1, h1, x) == Accumulated(m2, h2, x)
  {
    ChildIconsAgree(m1, m2, h1, h2, m1.children[x]);
  }

  /** The state after setStyle(x). */
  function Restyled(m: MindMap, h: StateMap, x: Node): StateMap
    requires Valid(m) && Contains(m, x)
  {
    WithStateIcons(h, x, Accumulated(m, h, x))
  }

  /**
   * After setStyle(x), x has an entry exactly when something was accumulated,
   * the entry holds none of x's own icons, and no other entry changed.
   */
  lemma RestyledEntries(m: MindMap, h: StateMap, x: Node)
    requires Valid(m) && Contains(m, x)
    ensures x in Restyled(m, h, x) <==> Accumulated(m, h, x) != {}
    ensures x in Restyled(m, h, x) ==> Restyled(m, h, x)[x] == Accumulated(m, h, x) && Restyled(m, h, x)[x] !! OwnIcons(m, x)
    ensures forall y :: y != x ==> SameEntry(h, Restyled(m, h, x), y)
  {
  }

  /** Removing two sets of entries one after the other removes their union. */
  lemma RemoveTwice(h: StateMap, a: set<Node>, b: set<Node>)
    ensures (h - a) - b == h - (a + b)
  {
  }

  /** setStyle on a leaf removes the leaf's entry: a leaf has no children to gather from. */
  lemma LeafRestyleRemoves(m: MindMap, h: StateMap, x: Node)
    requires Valid(m) && Contains(m, x) && IsLeaf(m, x)
    ensures Restyled(m, h, x) == h - {x}
  {
  }

  /** x's entry is what setStyle(x) would store: its accumulated icons, or no entry when there are none. */
  ghost predicate Settled(m: MindMap, h: StateMap, x: Node)
    requires Valid(m) && Contains(m, x)
  {
    && (x in h <==> Accumulated(m, h, x) != {})
    && (x in h ==> h[x] == Accumulated(m, h, x))
  }

  /** A node is settled exactly when setStyle on it changes nothing. */
  lemma SettledIsFixpoint(m: MindMap, h: StateMap, x: Node)
    requires Valid(m) && Contains(m, x)
    ensures Settled(m, h, x) <==> Restyled(m, h, x) == h
  {
    var r := Restyled(m, h, x);
    if Settled(m, h, x) {
      assert forall y :: y in r <==> y in h;
      assert forall y :: y in r ==> r[y] == h[y];
    }
  }

  lemma SameEntriesSameHook(h1: StateMap, h2: StateMap, x: Node)
    requires SameEntry(h1, h2, x)
    ensures HookOf(h1, x) == HookOf(h2, x)
  {
  }

  /** Whether x is settled depends only on x's entry and its children's entries. */
  lemma SettledFrame(m: MindMap, h1: StateMap, h2: StateMap, x: Node)
    requires Valid(m) && Contains(m, x)
    requires SameEntry(h1, h2, x)
    requires forall c :: c in m.children[x] ==> SameEntry(h1, h2, c)
    ensures Settled(m, h1, x) <==> Settled(m, h2, x)
  {
    forall c | c in m.children[x] ensures HookOf(h1, c) == HookOf(h2, c) {
      SameEntriesSameHook(h1, h2, c);
    }
    AccumulatedReadsChildren(m, m, h1, h2, x);
  }

  /** After setStyle(x), x is settled. */
  lemma RestyledSettles(m: MindMap, h: StateMap, x: Node)
    requires Valid(m) && Contains(m, x)
    ensures Settled(m, Restyled(m, h, x), x)
  {
    var r := Restyled(m, h, x);
    forall c | c in m.children[x] ensures HookOf(h, c) == HookOf(r, c) {
      assert c != x by {
        assert Contains(m, c) && m.parent[c] == Some(x);
      }
      SameEntriesSameHook(h, r, c);
    }
    AccumulatedReadsChildren(m, m, h, r, x);
  }

  /** setStyle is idempotent: running it twice on x is the same as once. */
  lemma RestyleIdempotent(m: MindMap, h: StateMap, x: Node)
    requires Valid(m) && Contains(m, x)
    ensures Restyled(m, Restyled(m, h, x), x) == Restyled(m, h, x)
  {
    RestyledSettles(m, h, x);
    SettledIsFixpoint(m, Restyled(m, h, x), x);
  }

  /** The state after setStyleRecursive(x): setStyle on x, then on each ancestor up to the root. */
  ghost function PathRestyled(m: MindMap, h: StateMap, x: Node): StateMap
    requires Valid(m) && Contains(m, x)
    decreases m.depth[x]
  {
    var h' := Restyled(m, h, x);
    if m.parent[x].Some? then PathRestyled(m, h', m.parent[x].value) else h'
  }

  /** A setStyle(x) just before setStyleRecursive(x) makes no difference. */
  lemma RestyleBeforePathRedundant(m: MindMap, h: StateMap, x: Node)
    requires Valid(m) && Contains(m, x)
    ensures PathRestyled(m, Restyled(m, h, x), x) == PathRestyled(m, h, x)
  {
    RestyleIdempotent(m, h, x);
  }

  /** setStyleRecursive(x) changes no entry off the path from x to its root. */
  lemma {:induction false} PathRestyledFrame(m: MindMap, h: StateMap, x: Node)
    requires Valid(m) && Contains(m, x)
    ensures forall y :: y !in Lineage(m, x) ==> SameEntry(h, PathRestyled(m, h, x), y)
    decreases m.depth[x]
  {
    if m.parent[x].Some? {
      PathRestyledFrame(m, Restyled(m, h, x), m.parent[x].value);
    }
  }

  /** Neither x nor any child of x lies on the path above x. */
  lemma OffPathAbove(m: MindMap, x: Node, p: Node)
    requires Valid(m) && Contains(m, x) && m.parent[x] == Some(p)
    ensures Contains(m, p) && x !in Lineage(m, p)
    ensures forall c :: c in m.children[x] ==> c !in Lineage(m, p)
  {
    forall c | c in m.children[x] ensures c !in Lineage(m, p) {
      assert Contains(m, c) && m.depth[c] == m.depth[x] + 1;
    }
  }

  /** After setStyleRecursive(x), x and every ancestor of x are settled. */
  lemma {:induction false} PathRestyledSettles(m: MindMap, h: StateMap, x: Node)
    requires Valid(m) && Contains(m, x)
    ensures forall y :: y in Lineage(m, x) ==> Settled(m, PathRestyled(m, h, x), y)
    decreases m.depth[x]
  {
    var h' := Restyled(m, h, x);
    RestyledSettles(m, h, x);
    if m.parent[x].Some? {
      var p := m.parent[x].value;
      var r := PathRestyled(m, h', p);
      assert r == PathRestyled(m, h, x);
      PathRestyledSettles(m, h', p);
      PathRestyledFrame(m, h', p);
      OffPathAbove(m, x, p);
      SettledFrame(m, h', r, x);
      assert Lineage(m, x) == {x} + Lineage(m, p);
    }
  }
}
