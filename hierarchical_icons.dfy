/**
 * The HierarchicalIcons node hook: keeps, for every node, a state-icon
 * entry holding the icons found below that node, and recomputes it when
 * the map changes.
 */
module HierarchicalIconsHook {
  import opened MindMaps
  import opened StateIcons
  import opened SubtreeRebuild

  /** The property a change event names. */
  datatype Property =
    | Text(value: string)       // a string property such as "icon"
    | LogicalStyleModelClass    // LogicalStyleModel.class
    | MapStyles                 // MapStyle.MAP_STYLES

  /** The properties whose change makes nodeChanged recompute. */
  predicate IsIconProperty(p: Property) {
    p == Text("icon") || p == LogicalStyleModelClass
  }

  class HierarchicalIcons {
    /** Every node's state-icon entry under this hook's name. */
    var hook: StateMap

    /** addAccumulatedIconsToTreeSet: adds the child's own icons and the icons of its entry. */
    method AddAccumulatedIcons(m: MindMap, child: Node, iconSet: set<Icon>) returns (r: set<Icon>)
      requires Valid(m) && Contains(m, child)
      ensures r == iconSet + OwnIcons(m, child) + HookOf(hook, child)
    {
      r := iconSet;
      var own := m.icons[child];
      for k := 0 to |own|
        invariant r == iconSet + set i | i in own[..k]
      {
        assert own[..k + 1] == own[..k] + [own[k]];
        r := r + {own[k]};
      }
      assert own[..|own|] == own;
      if child !in hook {
        return;
      }
      var rest := hook[child];
      while rest != {}
        invariant rest <= hook[child]
        invariant r == iconSet + OwnIcons(m, child) + (hook[child] - rest)
        decreases |rest|
      {
        var i :| i in rest;
        r := r + {i};
        rest := rest - {i};
      }
    }

    /** The children loop of setStyle: each child's own icons and entry, in child order. */
    method CollectChildIcons(m: MindMap, x: Node) returns (iconSet: set<Icon>)
      requires Valid(m) && Contains(m, x)
      ensures iconSet == ChildIcons(m, hook, m.children[x])
    {
      iconSet := {};
      var cs := m.children[x];
      for k := 0 to |cs|
        invariant iconSet == ChildIcons(m, hook, cs[..k])
      {
        ChildIconsStep(m, hook, cs, k);
        iconSet := AddAccumulatedIcons(m, cs[k], iconSet);
      }
      assert cs[..|cs|] == cs;
    }

    /**
     * setStyle: gathers every child's own icons and entry, removes x's own
     * icons, and stores the result as x's entry, or removes the entry when
     * nothing is left.
     */
    method SetStyle(m: MindMap, x: Node)
      requires Valid(m) && Contains(m, x)
      modifies this
      ensures hook == Restyled(m, old(hook), x)
    {
      var iconSet := CollectChildIcons(m, x);
      ghost var gathered := iconSet;
      var own := m.icons[x];
      for k := 0 to |own|
        invariant iconSet == gathered - set i | i in own[..k]
      {
        assert own[..k + 1] == own[..k] + [own[k]];
        iconSet := iconSet - {own[k]};
      }
      assert own[..|own|] == own;
      assert iconSet == Accumulated(m, hook, x);
      if |iconSet| > 0 {
        hook := hook[x := iconSet];
      } else {
        hook := hook - {x};
      }
    }

    /** setStyleRecursive: setStyle on x, then on each ancestor of x up to the root. */
    method SetStyleRecursive(m: MindMap, x: Node)
      requires Valid(m) && Contains(m, x)
      modifies this
      ensures hook == PathRestyled(m, old(hook), x)
      ensures forall y :: y in Lineage(m, x) ==> Settled(m, hook, y)
      ensures forall y :: y !in Lineage(m, x) ==> SameEntry(old(hook), hook, y)
      decreases m.depth[x]
    {
      PathRestyledSettles(m, hook, x);
      PathRestyledFrame(m, hook, x);
      SetStyle(m, x);
      if m.parent[x].Some? {
        SetStyleRecursive(m, m.parent[x].value);
      }
    }

    /** gatherLeavesAndSetStyle: setStyle on every leaf of x's subtree, which removes the leaf's entry. */
    method GatherLeavesAndSetStyle(m: MindMap, x: Node)
      requires Valid(m) && Contains(m, x)
      modifies this
      ensures hook == old(hook) - LeavesOf(m, Subtree(m, x))
      decreases |m.parent| - m.depth[x]
    {
      DepthBound(m, x);
      if IsLeaf(m, x) {
        LeafRestyleRemoves(m, hook, x);
        LeafLeaves(m, x);
        SetStyle(m, x);
        return;
      }
      var cs := m.children[x];
      for i := 0 to |cs|
        invariant hook == old(hook) - LeavesOf(m, SubtreesOf(m, cs[..i]))
      {
        assert cs[i] in cs && Contains(m, cs[i]) && m.parent[cs[i]] == Some(x);
        DepthBound(m, cs[i]);
        LeavesOfPrefixStep(m, cs, i);
        RemoveTwice(old(hook), LeavesOf(m, SubtreesOf(m, cs[..i])), LeavesOf(m, Subtree(m, cs[i])));
        GatherLeavesAndSetStyle(m, cs[i]);
      }
      assert cs[..|cs|] == cs;
      InnerLeaves(m, x);
    }

    /**
     * gatherLeavesAndSetParentsStyle: for every leaf of x's subtree, in
     * depth-first order, setStyleRecursive on the leaf's parent.
     */
    method GatherLeavesAndSetParentsStyle(m: MindMap, x: Node)
      requires Valid(m) && Contains(m, x)
      modifies this
      ensures hook == ParentsRestyled(m, old(hook), x)
      decreases |m.parent| - m.depth[x]
    {
      DepthBound(m, x);
      if IsLeaf(m, x) {
        if m.parent[x].Some? {
          SetStyleRecursive(m, m.parent[x].value);
        }
        return;
      }
      var cs := m.children[x];
      var i := 0;
      while i < |cs|
        invariant i <= |cs|
        invariant ParentsRestyledFrom(m, hook, x, i) == ParentsRestyled(m, old(hook), x)
      {
        assert cs[i] in cs && Contains(m, cs[i]) && m.parent[cs[i]] == Some(x);
        DepthBound(m, cs[i]);
        GatherLeavesAndSetParentsStyle(m, cs[i]);
        i := i + 1;
      }
    }

    /** removeIcons: removes the entry of every node of x's subtree. */
    method RemoveIcons(m: MindMap, x: Node)
      requires Valid(m) && Contains(m, x)
      modifies this
      ensures hook == old(hook) - Subtree(m, x)
      decreases |m.parent| - m.depth[x]
    {
      DepthBound(m, x);
      hook := hook - {x};
      var cs := m.children[x];
      for i := 0 to |cs|
        invariant hook == old(hook) - ({x} + SubtreesOf(m, cs[..i]))
      {
        assert cs[i] in cs && Contains(m, cs[i]) && m.parent[cs[i]] == Some(x);
        DepthBound(m, cs[i]);
        SubtreesOfPrefixStep(m, cs, i);
        RemoveIcons(m, cs[i]);
      }
      assert cs[..|cs|] == cs;
      SubtreeDecompose(m, x);
    }

    /** add: attaching the hook to x rebuilds the entries of x's subtree and of x's ancestors. */
    method Add(m: MindMap, x: Node)
      requires Valid(m) && Contains(m, x)
      modifies this
      ensures hook == Rebuilt(m, old(hook), x)
      ensures forall y :: y in Subtree(m, x) ==> HookOf(hook, y) == Below(m, y) - OwnIcons(m, y)
      ensures forall y :: y in Lineage(m, x) ==> Settled(m, hook, y)
      ensures forall y :: y !in Subtree(m, x) && y !in Lineage(m, x) ==> SameEntry(old(hook), hook, y)
    {
      RebuildReachesFixpoint(m, hook, x);
      GatherLeavesAndSetStyle(m, x);
      GatherLeavesAndSetParentsStyle(m, x);
    }

    /** remove: detaching the hook from x removes the entries of x's subtree. */
    method Remove(m: MindMap, x: Node)
      requires Valid(m) && Contains(m, x)
      modifies this
      ensures hook == old(hook) - Subtree(m, x)
    {
      RemoveIcons(m, x);
    }

    /** onUpdateChildren */
    method OnUpdateChildren(m: MindMap, x: Node)
      requires Valid(m) && Contains(m, x)
      modifies this
      ensures hook == PathRestyled(m, old(hook), x)
    {
      SetStyleRecursive(m, x);
    }

    /**
     * nodeChanged: when x is active and its icons or its logical style
     * changed, setStyle on x and then setStyleRecursive on x; otherwise nothing.
     */
    method NodeChanged(m: MindMap, isActive: Node -> bool, x: Node, property: Property)
      requires Valid(m) && Contains(m, x)
      modifies this
      ensures isActive(x) && IsIconProperty(property) ==>
        hook == PathRestyled(m, Restyled(m, old(hook), x), x) == PathRestyled(m, old(hook), x)
      ensures !(isActive(x) && IsIconProperty(property)) ==> hook == old(hook)
    {
      if !isActive(x) {
        return;
      }
      if !(property == Text("icon") || property == LogicalStyleModelClass) {
        return;
      }
      RestyleBeforePathRedundant(m, hook, x);
      SetStyle(m, x);
      OnUpdateChildren(m, x);
    }

    /** onNodeDeleted: when parent is active, setStyleRecursive on the parent the child left. */
    method OnNodeDeleted(m: MindMap, isActive: Node -> bool, parent: Node, child: Node)
      requires Valid(m) && Contains(m, parent)
      modifies this
      ensures isActive(parent) ==> hook == PathRestyled(m, old(hook), parent)
      ensures !isActive(parent) ==> hook == old(hook)
    {
      if !isActive(parent) {
        return;
      }
      SetStyleRecursive(m, parent);
    }

    /** onNodeInserted: when parent is active, setStyleRecursive on the inserted child. */
    method OnNodeInserted(m: MindMap, isActive: Node -> bool, parent: Node, child: Node)
      requires Valid(m) && Contains(m, child)
      modifies this
      ensures isActive(parent) ==> hook == PathRestyled(m, old(hook), child)
      ensures !isActive(parent) ==> hook == old(hook)
    {
      if !isActive(parent) {
        return;
      }
      SetStyleRecursive(m, child);
    }

    /**
     * onNodeMoved: when the new parent is active, setStyleRecursive on the
     * old parent and then on the moved child.
     */
    method OnNodeMoved(m: MindMap, isActive: Node -> bool, oldParent: Node, newParent: Node, child: Node)
      requires Valid(m) && Contains(m, oldParent) && Contains(m, child)
      modifies this
      ensures isActive(newParent) ==>
        hook == PathRestyled(m, PathRestyled(m, old(hook), oldParent), child)
      ensures !isActive(newParent) ==> hook == old(hook)
    {
      if !isActive(newParent) {
        return;
      }
      SetStyleRecursive(m, oldParent);
      SetStyleRecursive(m, child);
    }

    /**
     * mapChanged: when the event names a map, the map's root is active and
     * the map styles changed, the whole tree under the root is rebuilt.
     */
    method MapChanged(m: MindMap, isActive: Node -> bool, root: Option<Node>, property: Property)
      requires Valid(m) && (root.Some? ==> Contains(m, root.value))
      modifies this
      ensures root.Some? && isActive(root.value) && property == MapStyles ==>
        hook == Rebuilt(m, old(hook), root.value)
      ensures !(root.Some? && isActive(root.value) && property == MapStyles) ==> hook == old(hook)
    {
      if root.None? {
        return;
      }
      var rootNode := root.value;
      if !isActive(rootNode) {
        return;
      }
      if property != MapStyles {
        return;
      }
      GatherLeavesAndSetStyle(m, rootNode);
      GatherLeavesAndSetParentsStyle(m, rootNode);
    }

    /**
     * readingCompleted: when the loaded top node or the root its map records
     * carries this hook, the tree under the top node is rebuilt. The map's
     * root is passed in, since a top node need not hang below it.
     */
    method ReadingCompleted(m: MindMap, hasHook: Node -> bool, top: Node, mapRoot: Node)
      requires Valid(m) && Contains(m, top)
      modifies this
      ensures hasHook(top) || hasHook(mapRoot) ==> hook == Rebuilt(m, old(hook), top)
      ensures !(hasHook(top) || hasHook(mapRoot)) ==> hook == old(hook)
    {
      if !hasHook(top) && !hasHook(mapRoot) {
        return;
      }
      GatherLeavesAndSetStyle(m, top);
      GatherLeavesAndSetParentsStyle(m, top);
    }
  }
}
