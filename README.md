# Hierarchical icons and the script permission builder

This project models two parts of the Freeplane mind-map editor in Dafny and proves properties about them.

**The HierarchicalIcons node hook.**
- Every node of a mind map carries its own icons.
- While the hook is attached, each node also gets a state-icon entry under the hook's name. The entry shows the icons found further down the tree that the node does not already carry.
- The hook recomputes these entries in these cases:
  - when it is attached;
  - when icons or the logical style of a node change;
  - when nodes are inserted, deleted or moved;
  - when the map styles change;
  - when a map has finished loading.
- When the hook is detached, it clears the entries.

**The ScriptProxy builder.**
- A script handle collects the permissions a script will run with, through fluent calls that each return the handle itself: starting applications, network access, reading files and writing files.
- It also collects an optional output stream.

## Structure

- `mind_map.dfy` (`MindMaps`): the mind-map tree.
  - Nodes are numbered, and each has a parent, an ordered list of children, its own icons and a depth. The depth witnesses that the parent links have no cycles.
  - The module defines the ancestors of a node (`Lineage`), its subtree, the leaves of a set of nodes, and `Below`, the set of icons carried by a node's strict descendants.
- `state_icons.dfy` (`StateIcons`): the hook's entries, as a map from node to icon set. A missing key is a node without an entry, i.e. a null `UIIconSet`.
  - It specifies setStyle (`Restyled`) and setStyleRecursive (`PathRestyled`).
  - It defines `Settled`: a node is settled when its entry is exactly what setStyle would store.
- `subtree_rebuild.dfy` (`SubtreeRebuild`): the rebuild of a whole subtree.
  - The rebuild first clears the leaves, then restyles from every leaf's parent upwards.
  - The module proves that the result is the fixpoint: every node `y` of the subtree ends with the entry `Below(y) - own icons of y`.
- `hierarchical_icons.dfy` (`HierarchicalIconsHook`): the hook as a class.
  - The class has a `hook` field, and one method per operation, proved against the functions above.
- `script_proxy.dfy` (`ScriptProxies`): the `ScriptProxy` class, proved against `Grant`, which models a sequence of `permissions.put(k, true)` calls.

## Model

| member | source | states |
|---|---|---|
| HierarchicalIconsHook.HierarchicalIcons.AddAccumulatedIcons | freeplane/src/org/freeplane/features/common/icon/HierarchicalIcons.java:70-81 | The icon set grows by exactly the child's own icons plus the icons of the child's entry; a missing entry adds nothing. |
| HierarchicalIconsHook.HierarchicalIcons.CollectChildIcons | freeplane/src/org/freeplane/features/common/icon/HierarchicalIcons.java:211-216 | The children loop of setStyle yields the union of every child's own icons and entry, and changes nothing. |
| HierarchicalIconsHook.HierarchicalIcons.SetStyle | freeplane/src/org/freeplane/features/common/icon/HierarchicalIcons.java:210-227 | After the two loops, the hook state is `Restyled`: the node's entry becomes the children's own icons and entries minus the node's own icons, or is removed when that set is empty. |
| StateIcons.HookOf | freeplane/src/org/freeplane/features/common/icon/HierarchicalIcons.java:74-77 | The icons a node's entry contributes: its icon set, or nothing when the node has no entry (a null `UIIconSet`). |
| StateIcons.ChildIcons | freeplane/src/org/freeplane/features/common/icon/HierarchicalIcons.java:211-216 | The icon set after the children loop: the own icons and the entry of each child, added in child order. `ChildIconsMember` characterises it. |
| StateIcons.Restyled | freeplane/src/org/freeplane/features/common/icon/HierarchicalIcons.java:210-225 | The hook state after setStyle on a node: the node's entry becomes the accumulated set through `WithStateIcons`. `RestyledEntries` and `AccumulatedMember` state its properties. |
| StateIcons.RestyledEntries | freeplane/src/org/freeplane/features/common/icon/HierarchicalIcons.java:210-225 | The node has an entry exactly when the accumulated set is non-empty, so an empty set is never stored. The entry never contains one of the node's own icons. No other node's entry changes. |
| StateIcons.WithStateIcons | freeplane/src/org/freeplane/features/common/icon/HierarchicalIcons.java:220-225 | Storing a set keeps an entry exactly when the set is non-empty; the entry is the set; every other node's entry is unchanged. |
| StateIcons.Accumulated | freeplane/src/org/freeplane/features/common/icon/HierarchicalIcons.java:211-219 | The set setStyle computes is disjoint from the node's own icons and is empty for a leaf. |
| StateIcons.AccumulatedMember | freeplane/src/org/freeplane/features/common/icon/HierarchicalIcons.java:210-219 | An icon is accumulated at a node if and only if the node does not carry it and some child carries it or has it in its entry. |
| StateIcons.AccumulatedReadsChildren | freeplane/src/org/freeplane/features/common/icon/HierarchicalIcons.java:210-219 | setStyle reads only the node's own icons, its children list, and its children's own icons and entries. |
| StateIcons.ChildIconsStep | freeplane/src/org/freeplane/features/common/icon/HierarchicalIcons.java:213-216 | One turn of the children loop adds the next child's own icons and entry. |
| StateIcons.ChildIconsMember | freeplane/src/org/freeplane/features/common/icon/HierarchicalIcons.java:211-216 | After the children loop, the set holds an icon if and only if some child carries it or has it in its entry. |
| StateIcons.SettledIsFixpoint | freeplane/src/org/freeplane/features/common/icon/HierarchicalIcons.java:210-227 | A node is settled if and only if setStyle on it changes nothing. |
| StateIcons.RestyledSettles | freeplane/src/org/freeplane/features/common/icon/HierarchicalIcons.java:210-227 | After setStyle on a node, that node is settled. |
| StateIcons.RestyleIdempotent | freeplane/src/org/freeplane/features/common/icon/HierarchicalIcons.java:210-227 | Running setStyle twice on a node gives the same state as running it once. |
| StateIcons.SettledFrame | freeplane/src/org/freeplane/features/common/icon/HierarchicalIcons.java:210-219 | Whether a node is settled depends only on its own entry and its children's entries. |
| HierarchicalIconsHook.HierarchicalIcons.SetStyleRecursive | freeplane/src/org/freeplane/features/common/icon/HierarchicalIcons.java:231-236 | The hook state becomes `PathRestyled`. Every node from the start node up to the root is settled. Every entry off that path is unchanged. |
| StateIcons.PathRestyled | freeplane/src/org/freeplane/features/common/icon/HierarchicalIcons.java:231-236 | The hook state after setStyleRecursive: setStyle on the node, then on its parent, and so on up to the root. `PathRestyledFrame` and `PathRestyledSettles` state its properties. |
| StateIcons.PathRestyledFrame | freeplane/src/org/freeplane/features/common/icon/HierarchicalIcons.java:231-236 | setStyleRecursive changes no entry outside the path from the node to its root. |
| StateIcons.PathRestyledSettles | freeplane/src/org/freeplane/features/common/icon/HierarchicalIcons.java:231-236 | After setStyleRecursive, the node and every ancestor are settled. Restyling a parent does not unsettle the child below it. |
| StateIcons.RestyleBeforePathRedundant | freeplane/src/org/freeplane/features/common/icon/HierarchicalIcons.java:144-145 | A setStyle just before setStyleRecursive on the same node changes nothing in the end state. |
| HierarchicalIconsHook.HierarchicalIcons.GatherLeavesAndSetStyle | freeplane/src/org/freeplane/features/common/icon/HierarchicalIcons.java:106-116 | Exactly the entries of the subtree's leaves are removed (a leaf has nothing to accumulate); every other entry is kept. |
| StateIcons.LeafRestyleRemoves | freeplane/src/org/freeplane/features/common/icon/HierarchicalIcons.java:106-109 | setStyle on a leaf removes the leaf's entry and changes nothing else, because a leaf has no children to gather from. |
| HierarchicalIconsHook.HierarchicalIcons.GatherLeavesAndSetParentsStyle | freeplane/src/org/freeplane/features/common/icon/HierarchicalIcons.java:90-102 | The hook state becomes `ParentsRestyled`: setStyleRecursive on the parent of every leaf of the subtree, taken in depth-first child order. |
| SubtreeRebuild.ParentsRestyled | freeplane/src/org/freeplane/features/common/icon/HierarchicalIcons.java:90-102 | The hook state after gatherLeavesAndSetParentsStyle: a leaf gives `LeafRestyled`, and an inner node walks its children in order. `ParentsRestyledSettles` states its properties. |
| SubtreeRebuild.LeafRestyled | freeplane/src/org/freeplane/features/common/icon/HierarchicalIcons.java:91-95 | At a leaf, setStyleRecursive on the leaf's parent, or no change for a leaf without a parent. |
| SubtreeRebuild.ParentsRestyledFrom | freeplane/src/org/freeplane/features/common/icon/HierarchicalIcons.java:97-101 | The remaining turns of the children loop from child `i` on: the walk into child `i`, then the rest. `ParentsRestyledFromSettles` states its properties. |
| SubtreeRebuild.ParentsRestyledSettles | freeplane/src/org/freeplane/features/common/icon/HierarchicalIcons.java:90-102 | If the subtree's leaves have no entries, then after the walk every node of the subtree and every strict ancestor is settled, and no other entry changes. |
| SubtreeRebuild.ParentsRestyledFromSettles | freeplane/src/org/freeplane/features/common/icon/HierarchicalIcons.java:97-101 | If the leaves under the remaining children have no entries, then after the remaining turns of the loop every node under them is settled. When at least one child remained, the node and every ancestor are settled too. No entry outside those subtrees and the path to the root changes. |
| SubtreeRebuild.SettledSubtreeHoldsBelow | freeplane/src/org/freeplane/features/common/icon/HierarchicalIcons.java:210-219 | When every node of a subtree is settled, its root's entry is exactly the icons of its strict descendants minus its own icons. |
| SubtreeRebuild.Rebuilt | freeplane/src/org/freeplane/features/common/icon/HierarchicalIcons.java:63-64 | The hook state after gatherLeavesAndSetStyle followed by gatherLeavesAndSetParentsStyle on a node, the pair that add, mapChanged (lines 131-132) and readingCompleted (lines 188-189) run. `RebuildReachesFixpoint` states the fixpoint it reaches. |
| SubtreeRebuild.RebuildReachesFixpoint | freeplane/src/org/freeplane/features/common/icon/HierarchicalIcons.java:62-65 | gatherLeavesAndSetStyle followed by gatherLeavesAndSetParentsStyle leaves every subtree node `y` with entry `Below(y) - own(y)`. Every ancestor is settled. Every other entry is unchanged. |
| HierarchicalIconsHook.HierarchicalIcons.RemoveIcons | freeplane/src/org/freeplane/features/common/icon/HierarchicalIcons.java:200-208 | The entries of the node and of every descendant are removed; all other entries are kept. |
| HierarchicalIconsHook.HierarchicalIcons.Add | freeplane/src/org/freeplane/features/common/icon/HierarchicalIcons.java:62-66 | Attaching the hook rebuilds the subtree. Every node `y` of the subtree ends with entry `Below(y) - own(y)`. Every ancestor is settled. Every other entry is unchanged. |
| HierarchicalIconsHook.HierarchicalIcons.Remove | freeplane/src/org/freeplane/features/common/icon/HierarchicalIcons.java:193-196 | Detaching the hook removes the entries of the whole subtree and nothing else. |
| HierarchicalIconsHook.HierarchicalIcons.OnUpdateChildren | freeplane/src/org/freeplane/features/common/icon/HierarchicalIcons.java:180-182 | The hook state becomes setStyleRecursive of the node. |
| HierarchicalIconsHook.HierarchicalIcons.NodeChanged | freeplane/src/org/freeplane/features/common/icon/HierarchicalIcons.java:135-146 | If the node is active and the property is "icon" or the logical style class, the state becomes setStyle then setStyleRecursive of the node, which equals setStyleRecursive alone. Otherwise nothing changes. |
| HierarchicalIconsHook.HierarchicalIcons.OnNodeDeleted | freeplane/src/org/freeplane/features/common/icon/HierarchicalIcons.java:148-153 | When the parent is active, the state becomes setStyleRecursive of the parent; otherwise nothing changes. |
| HierarchicalIconsHook.HierarchicalIcons.OnNodeInserted | freeplane/src/org/freeplane/features/common/icon/HierarchicalIcons.java:155-160 | When the parent is active, the state becomes setStyleRecursive of the inserted child; otherwise nothing changes. |
| HierarchicalIconsHook.HierarchicalIcons.OnNodeMoved | freeplane/src/org/freeplane/features/common/icon/HierarchicalIcons.java:162-169 | When the new parent is active, the state becomes setStyleRecursive of the old parent, then of the child; otherwise nothing changes. |
| HierarchicalIconsHook.HierarchicalIcons.MapChanged | freeplane/src/org/freeplane/features/common/icon/HierarchicalIcons.java:118-133 | The whole tree is rebuilt only when the event names a map, its root is active and the property is the map styles. Otherwise nothing changes. |
| HierarchicalIconsHook.HierarchicalIcons.ReadingCompleted | freeplane/src/org/freeplane/features/common/icon/HierarchicalIcons.java:184-190 | The loaded subtree is rebuilt only when the top node or the root its map records carries the hook. The map's root is a parameter and need not be an ancestor of the top node. Otherwise nothing changes. |
| MindMaps.DepthBound | freeplane/src/org/freeplane/features/common/icon/HierarchicalIcons.java:231-236 | A node's depth is below the number of nodes, so the walks up and down the tree terminate. |
| MindMaps.SubtreeDecompose | freeplane/src/org/freeplane/features/common/icon/HierarchicalIcons.java:203-207 | A subtree is its root plus the subtrees of its children, which is how the recursive walks visit it. |
| MindMaps.SiblingSubtreesDisjoint | freeplane/src/org/freeplane/features/common/icon/HierarchicalIcons.java:97-101 | The subtrees of two different children of a node share no node, so the walk over one child does not touch the next. |
| MindMaps.BelowStep | freeplane/src/org/freeplane/features/common/icon/HierarchicalIcons.java:213-216 | An icon is carried below a node if and only if some child carries it or has it below. |
| ScriptProxies.ScriptProxy.constructor | freeplane_plugin_script/src/main/java/org/freeplane/plugin/script/proxy/ScriptProxy.java:28-32 | A new proxy keeps its file and context, has an empty permissions map and no output stream (the default output). |
| ScriptProxies.ScriptProxy.StartingApplications | freeplane_plugin_script/src/main/java/org/freeplane/plugin/script/proxy/ScriptProxy.java:34-38 | Sets only the exec key to true, keeps the output stream, and returns the same proxy. |
| ScriptProxies.ScriptProxy.AccessingNetwork | freeplane_plugin_script/src/main/java/org/freeplane/plugin/script/proxy/ScriptProxy.java:40-44 | Sets only the network key to true, keeps the output stream, and returns the same proxy. |
| ScriptProxies.ScriptProxy.ReadingFiles | freeplane_plugin_script/src/main/java/org/freeplane/plugin/script/proxy/ScriptProxy.java:46-50 | Sets only the read key to true, keeps the output stream, and returns the same proxy. |
| ScriptProxies.ScriptProxy.WritingFiles | freeplane_plugin_script/src/main/java/org/freeplane/plugin/script/proxy/ScriptProxy.java:52-56 | Sets only the write key to true, keeps the output stream, and returns the same proxy. |
| ScriptProxies.ScriptProxy.WithAllPermissions | freeplane_plugin_script/src/main/java/org/freeplane/plugin/script/proxy/ScriptProxy.java:58-65 | Grants all four keys, so every permission is present and true afterwards. Returns the same proxy. |
| ScriptProxies.ScriptProxy.WithOutput | freeplane_plugin_script/src/main/java/org/freeplane/plugin/script/proxy/ScriptProxy.java:69-73 | Replaces only the output stream, leaves the permissions unchanged, and returns the same proxy. |
| ScriptProxies.Grant | freeplane_plugin_script/src/main/java/org/freeplane/plugin/script/proxy/ScriptProxy.java:36 | After granting, the map's keys are the old keys plus the granted ones. Every granted key is true. Every other key keeps its value. |
| ScriptProxies.GrantExtends | freeplane_plugin_script/src/main/java/org/freeplane/plugin/script/proxy/ScriptProxy.java:35-65 | No builder removes a key or turns a permission off. |
| ScriptProxies.GrantIdempotent | freeplane_plugin_script/src/main/java/org/freeplane/plugin/script/proxy/ScriptProxy.java:35-65 | Calling a builder twice equals calling it once. |
| ScriptProxies.GrantCompose | freeplane_plugin_script/src/main/java/org/freeplane/plugin/script/proxy/ScriptProxy.java:59-63 | Two grants in a row equal one grant of both key sets, in either order. |
| ScriptProxies.GrantAllAllowsEverything | freeplane_plugin_script/src/main/java/org/freeplane/plugin/script/proxy/ScriptProxy.java:59-65 | Granting the four keys leaves every permission present and true. |
| ScriptProxies.Request | freeplane_plugin_script/src/main/java/org/freeplane/plugin/script/proxy/ScriptProxy.java:34-56 | Each of the four builders grants exactly its own key, keeps the output stream, and returns the proxy it was called on. |
| ScriptProxies.RequestTwice | freeplane_plugin_script/src/main/java/org/freeplane/plugin/script/proxy/ScriptProxy.java:34-56 | Calling any builder twice in a chain leaves the permissions that one call leaves. No earlier permission is lost, and the output stream is kept. |

## Left out

- Listener registration in the hook's constructor: this is framework wiring with no state of the hook's own.
- The `nodeRefresh` and `delayedNodeRefresh` calls: these are display repaints and change no entry.
- The `0.75f` scale of `UIIconSet`: it is a floating-point display detail, so an entry is modelled as its icon set only.
- The `TreeSet` ordering of icons: its comparator is not part of this model, so entries are mathematical sets.
- `isActive`: it is implemented by the `PersistentNodeHook` superclass, which is not part of this model. It is a parameter of the event handlers.
- `NodeModel.containsExtension`: the extensions a node carries are not part of this model. `ReadingCompleted` takes the answer as a parameter (`hasHook`), along with the root its map records.
- `IconController.getIcons`: it is given as each node's own icon list in the mind map.
- `super.add`, `super.remove` and `createExtension`: the `PersistentNodeHook` superclass and XML persistence are not part of this model.
- The `childrenUnfolded` iterator: it is modelled as the node's children list in order. Unfolding has no effect on the state.
- The per-node storage of entries: entries are one map held by the hook, because the `NodeModel` objects are not part of this model. Aliasing between nodes does not arise in the model.
- `onPreNodeDelete` and `onPreNodeMoved`: they have empty bodies.
- A `null` event property in `nodeChanged` or `mapChanged`: the source would throw on `equals`, and the model has no null property.
- `MapStyle.MAP_STYLES` and the permission key strings of `ScriptingPermissions`: their values are not part of this model. They are distinct datatype constructors, assumed different from each other and from "icon".
- `ScriptProxy.executeOn`: it hands the permissions to `ScriptingEngine` and `ScriptRunner`, which are not part of this model.
- `MenuBuildProcessFactory`: it only wires Swing builder classes whose logic is not part of this model.
