/**
 * The lineage view of components/RecipeBook.tsx: the text-keyed inventory map, the
 * depth-bounded ancestry tree, and the pan/zoom transform of its canvas.
 */
module RecipeBook {
  import opened Wrappers
  import opened Types

  /** The texts of an inventory. */
  function Texts(inventory: seq<ElementData>): set<string> {
    set e | e in inventory :: e.text
  }

  /** `new Map(inventory.map(i => [i.text, i]))`: keyed by text, a later entry wins. */
  function InventoryMap(inventory: seq<ElementData>): (m: map<string, ElementData>)
    ensures m.Keys == Texts(inventory)
    ensures forall t :: t in m ==> m[t] in inventory && m[t].text == t
  {
    if inventory == [] then map[]
    else
      var init := inventory[..|inventory| - 1];
      var last := inventory[|inventory| - 1];
      assert inventory == init + [last];
      InventoryMap(init)[last.text := last]
  }

  /** The entry at position i is the one the map keeps when no later entry has the same text. */
  lemma {:induction false} InventoryMapLastWins(inventory: seq<ElementData>, i: nat)
    requires i < |inventory|
    requires forall j :: i < j < |inventory| ==> inventory[j].text != inventory[i].text
    ensures InventoryMap(inventory)[inventory[i].text] == inventory[i]
  {
    var n := |inventory|;
    if i < n - 1 {
      var init := inventory[..n - 1];
      assert init[i] == inventory[i];
      forall j | i < j < |init| ensures init[j].text != init[i].text {
        assert init[j] == inventory[j];
      }
      InventoryMapLastWins(init, i);
    }
  }

  /** A node of the lineage tree. The random suffix of non-truncated ids is not modelled. */
  datatype TreeNode = TreeNode(name: string, emoji: string, children: seq<TreeNode>, id: string)

  /** The maximal depth from which buildTree still expands parents. */
  const MaxDepth: nat := 12

  /** The node of an optional subtree, if present (`if (parent) node.children.push(parent)`). */
  function Present(t: Option<TreeNode>): (r: seq<TreeNode>)
    ensures |r| <= 1
    ensures t.Some? ==> r == [t.value]
    ensures t.None? ==> r == []
  {
    if t.Some? then [t.value] else []
  }

  /** buildTree: the ancestry of `name`, expanded through the parents while depth <= 12. */
  function BuildTree(m: map<string, ElementData>, name: string, depth: nat): (t: Option<TreeNode>)
    ensures t.None? <==> name !in m
    ensures t.Some? ==>
      && t.value.name == m[name].text && t.value.emoji == m[name].emoji
      && t.value.id == m[name].id && |t.value.children| <= 2
    decreases if depth > MaxDepth then 0 else MaxDepth + 1 - depth
  {
    if name !in m then None
    else
      var item := m[name];
      if depth > MaxDepth then Some(TreeNode(item.text, item.emoji, [], item.id))
      else
        var children :=
          if item.parents.Some? then
            Present(BuildTree(m, item.parents.value.first, depth + 1))
              + Present(BuildTree(m, item.parents.value.second, depth + 1))
          else [];
        Some(TreeNode(item.text, item.emoji, children, item.id))
  }

  /** `treeData`: the tree of the selected item, or nothing when none is selected. */
  function TreeData(inventory: seq<ElementData>, selected: Option<ElementData>): (t: Option<TreeNode>)
    ensures selected.None? ==> t.None?
    ensures selected.Some? ==> (t.Some? <==> selected.value.text in Texts(inventory))
    ensures t.Some? ==> t.value.name == selected.value.text
  {
    if selected.None? then None else BuildTree(InventoryMap(inventory), selected.value.text, 0)
  }

  /** Every path from t down to a leaf has at most h edges. */
  ghost predicate HeightAtMost(t: TreeNode, h: nat)
    decreases t
  {
    t.children == [] || (h > 0 && forall c :: c in t.children ==> HeightAtMost(c, h - 1))
  }

  /** Even on cyclic parent links the tree is finite: at most 13 - depth edges deep. */
  lemma {:induction false} BuildTreeHeight(m: map<string, ElementData>, name: string, depth: nat)
    requires depth <= MaxDepth + 1
    requires name in m
    ensures HeightAtMost(BuildTree(m, name, depth).value, MaxDepth + 1 - depth)
    decreases MaxDepth + 1 - depth
  {
    var item := m[name];
    if depth <= MaxDepth && item.parents.Some? {
      var p := item.parents.value;
      if p.first in m { BuildTreeHeight(m, p.first, depth + 1); }
      if p.second in m { BuildTreeHeight(m, p.second, depth + 1); }
    }
  }

  /** The tree of a selected item is at most 13 edges deep. */
  lemma TreeDataHeight(inventory: seq<ElementData>, selected: ElementData)
    requires TreeData(inventory, Some(selected)).Some?
    ensures HeightAtMost(TreeData(inventory, Some(selected)).value, 13)
  {
    BuildTreeHeight(InventoryMap(inventory), selected.text, 0);
  }

  /** The names of a list of nodes. */
  function Names(nodes: seq<TreeNode>): seq<string> {
    seq(|nodes|, i requires 0 <= i < |nodes| => nodes[i].name)
  }

  /** The parent texts found in the inventory map, in order. */
  function InMap(texts: seq<string>, m: map<string, ElementData>): seq<string> {
    if texts == [] then []
    else (if texts[0] in m then [texts[0]] else []) + InMap(texts[1..], m)
  }

  /**
   * The children of a node are its parents present in the inventory, in the order
   * parent[0], parent[1]; an item without parents, or one past depth 12, is a leaf.
   */
  lemma ChildrenAreParents(inventory: seq<ElementData>, name: string, depth: nat)
    requires name in InventoryMap(inventory)
    ensures var m := InventoryMap(inventory);
      var t := BuildTree(m, name, depth).value;
      var item := m[name];
      && t.name == name
      && (depth > MaxDepth || item.parents.None? ==> t.children == [])
      && (depth <= MaxDepth && item.parents.Some? ==>
            Names(t.children) == InMap([item.parents.value.first, item.parents.value.second], m))
  {
    var m := InventoryMap(inventory);
    var item := m[name];
    if depth <= MaxDepth && item.parents.Some? {
      var p := item.parents.value;
      var t := BuildTree(m, name, depth).value;
      assert [p.first, p.second][1..] == [p.second];
      assert [p.second][1..] == [];
      assert InMap([p.second], m) == (if p.second in m then [p.second] else []) + InMap([], m);
      assert InMap([p.first, p.second], m) == (if p.first in m then [p.first] else []) + InMap([p.second], m);
      if p.first in m && p.second in m {
        assert Names(t.children) == [p.first, p.second];
      } else if p.first in m {
        assert Names(t.children) == [p.first];
      } else if p.second in m {
        assert Names(t.children) == [p.second];
      }
    }
  }

  /**
   * Every node's name, emoji and id are those of the map entry under its name; with the
   * inventory map that entry is an inventory item with that text.
   */
  ghost predicate NodesFrom(t: TreeNode, m: map<string, ElementData>)
    decreases t
  {
    && t.name in m && m[t.name].text == t.name && m[t.name].emoji == t.emoji && m[t.name].id == t.id
    && (forall c :: c in t.children ==> NodesFrom(c, m))
  }

  /** Each entry of the map is stored under its own text. */
  ghost predicate KeyedByText(m: map<string, ElementData>) {
    forall k :: k in m ==> m[k].text == k
  }

  lemma {:induction false} BuildTreeNodesFrom(m: map<string, ElementData>, name: string, depth: nat)
    requires KeyedByText(m)
    requires name in m
    ensures NodesFrom(BuildTree(m, name, depth).value, m)
    decreases if depth > MaxDepth then 0 else MaxDepth + 1 - depth
  {
    var item := m[name];
    var t := BuildTree(m, name, depth).value;
    assert t.name == item.text == name && t.emoji == item.emoji && t.id == item.id;
    if depth <= MaxDepth && item.parents.Some? {
      var p := item.parents.value;
      var c1 := BuildTree(m, p.first, depth + 1);
      var c2 := BuildTree(m, p.second, depth + 1);
      if c1.Some? { BuildTreeNodesFrom(m, p.first, depth + 1); }
      if c2.Some? { BuildTreeNodesFrom(m, p.second, depth + 1); }
      assert t.children == Present(c1) + Present(c2);
      PresentNodesFrom(c1, c2, m);
    } else {
      assert t.children == [];
    }
  }

  /** The children built from two optional subtrees whose nodes come from m. */
  lemma PresentNodesFrom(c1: Option<TreeNode>, c2: Option<TreeNode>, m: map<string, ElementData>)
    requires c1.Some? ==> NodesFrom(c1.value, m)
    requires c2.Some? ==> NodesFrom(c2.value, m)
    ensures forall c :: c in Present(c1) + Present(c2) ==> NodesFrom(c, m)
  {
    forall c | c in Present(c1) + Present(c2) ensures NodesFrom(c, m) {
      if c in Present(c1) {
        assert c == c1.value;
      } else {
        assert c == c2.value;
      }
    }
  }

  /** Every node of the tree of an inventory text shows an inventory item. */
  lemma BuildTreeFromInventory(inventory: seq<ElementData>, name: string, depth: nat)
    requires name in Texts(inventory)
    ensures NodesFrom(BuildTree(InventoryMap(inventory), name, depth).value, InventoryMap(inventory))
    ensures forall k :: k in InventoryMap(inventory) ==> InventoryMap(inventory)[k] in inventory
  {
    BuildTreeNodesFrom(InventoryMap(inventory), name, depth);
  }

  // ---------------------------------------------------------------------------
  // Canvas transform
  // ---------------------------------------------------------------------------

  datatype Transform = Transform(x: real, y: real, scale: real)

  /** `Math.min(Math.max(0.2, s), 3)`. */
  function ClampScale(s: real): (r: real)
    ensures 0.2 <= r <= 3.0
    ensures 0.2 <= s <= 3.0 ==> r == s
    ensures s < 0.2 ==> r == 0.2
    ensures s > 3.0 ==> r == 3.0
  {
    if s < 0.2 then 0.2 else if s > 3.0 then 3.0 else s
  }

  /** handleWheel: the scale moves by -deltaY * 0.001, clamped; the offset is kept. */
  function HandleWheel(t: Transform, deltaY: real): (r: Transform)
    ensures 0.2 <= r.scale <= 3.0
    ensures r.x == t.x && r.y == t.y
    ensures 0.2 <= t.scale - deltaY * 0.001 <= 3.0 ==> r.scale == t.scale - deltaY * 0.001
  {
    t.(scale := ClampScale(t.scale + -deltaY * 0.001))
  }

  /** adjustZoom: the zoom buttons move the scale by delta (+0.2 or -0.2), clamped. */
  function AdjustZoom(t: Transform, delta: real): (r: Transform)
    ensures 0.2 <= r.scale <= 3.0
    ensures r.x == t.x && r.y == t.y
    ensures 0.2 <= t.scale + delta <= 3.0 ==> r.scale == t.scale + delta
  {
    t.(scale := ClampScale(t.scale + delta))
  }

  /** resetView: with the container mounted, centre horizontally, 100 px down, scale 1; else nothing. */
  function ResetView(t: Transform, containerWidth: Option<real>): (r: Transform)
    ensures containerWidth.Some? ==> r == Transform(containerWidth.value / 2.0, 100.0, 1.0)
    ensures containerWidth.None? ==> r == t
  {
    if containerWidth.Some? then Transform(containerWidth.value / 2.0, 100.0, 1.0) else t
  }

  /** Zooming in from a valid scale never lowers it, and zooming out never raises it. */
  lemma ZoomMonotone(t: Transform, delta: real)
    requires 0.2 <= t.scale <= 3.0
    ensures delta >= 0.0 ==> AdjustZoom(t, delta).scale >= t.scale
    ensures delta <= 0.0 ==> AdjustZoom(t, delta).scale <= t.scale
    ensures AdjustZoom(AdjustZoom(t, delta), 0.0) == AdjustZoom(t, delta)
  {
  }
}
