/**
 * The library list of components/Sidebar.tsx: a case-insensitive search over the
 * inventory, shown either in discovery order or sorted by text.
 */
module Sidebar {
  import opened Types
  import opened Text

  /** `item.text.toLowerCase().includes(search.toLowerCase())`. */
  predicate Matches(item: ElementData, search: string) {
    Contains(Lower(item.text), Lower(search))
  }

  /** `inventory.filter(...)`: the matching items, in inventory order. */
  function FilterInventory(inventory: seq<ElementData>, search: string): (r: seq<ElementData>)
    ensures |r| <= |inventory|
    ensures forall x :: x in r <==> x in inventory && Matches(x, search)
  {
    if inventory == [] then []
    else
      var rest := FilterInventory(inventory[1..], search);
      assert forall x :: x in inventory <==> x == inventory[0] || x in inventory[1..];
      if Matches(inventory[0], search) then [inventory[0]] + rest else rest
  }

  /** The filter keeps one item exactly when it matches. */
  lemma FilterSingle(x: ElementData, search: string)
    ensures FilterInventory([x], search) == if Matches(x, search) then [x] else []
  {
    assert [x][1..] == [];
  }

  /** The filter of a concatenation is the concatenation of the filters: the order is kept. */
  lemma {:induction false} FilterAppend(a: seq<ElementData>, b: seq<ElementData>, search: string)
    ensures FilterInventory(a + b, search) == FilterInventory(a, search) + FilterInventory(b, search)
  {
    if a == [] {
      assert a + b == b;
    } else {
      assert (a + b)[0] == a[0];
      assert (a + b)[1..] == a[1..] + b;
      FilterAppend(a[1..], b, search);
    }
  }

  /** An empty search shows the whole inventory. */
  lemma {:induction false} EmptySearch(inventory: seq<ElementData>)
    ensures FilterInventory(inventory, "") == inventory
  {
    if inventory != [] {
      EmptySearch(inventory[1..]);
      assert Lower("") == "";
      ContainsEmpty(Lower(inventory[0].text));
    }
  }

  /** The items are in ascending order of text. */
  predicate SortedByText(s: seq<ElementData>) {
    forall i, j :: 0 <= i < j < |s| ==> LexLe(s[i].text, s[j].text)
  }

  /** Inserts x before the first item whose text is not below it. */
  function Insert(x: ElementData, s: seq<ElementData>): (r: seq<ElementData>)
    ensures multiset(r) == multiset(s) + multiset{x}
  {
    if s == [] then [x]
    else if LexLe(x.text, s[0].text) then [x] + s
    else
      assert s == [s[0]] + s[1..];
      [s[0]] + Insert(x, s[1..])
  }

  /** Every item of a sorted list is at or above its first item. */
  lemma HeadIsLeast(s: seq<ElementData>, y: ElementData)
    requires SortedByText(s) && s != [] && y in s
    ensures LexLe(s[0].text, y.text)
  {
    var k :| 0 <= k < |s| && s[k] == y;
    if k == 0 {
      LexLeTotal(y.text, y.text);
    }
  }

  /** Inserting into a sorted list keeps it sorted. */
  lemma {:induction false} InsertSorted(x: ElementData, s: seq<ElementData>)
    requires SortedByText(s)
    ensures SortedByText(Insert(x, s))
  {
    if s == [] {
    } else if LexLe(x.text, s[0].text) {
      var r := Insert(x, s);
      forall i, j | 0 <= i < j < |r| ensures LexLe(r[i].text, r[j].text) {
        if i == 0 && j > 1 {
          LexLeTransitive(x.text, s[0].text, s[j - 1].text);
        }
      }
    } else {
      LexLeTotal(x.text, s[0].text);
      var rest := Insert(x, s[1..]);
      InsertSorted(x, s[1..]);
      var r := Insert(x, s);
      assert r == [s[0]] + rest;
      forall i, j | 0 <= i < j < |r| ensures LexLe(r[i].text, r[j].text) {
        if i == 0 {
          var y := r[j];
          assert y in multiset(rest);
          if y != x {
            assert y in multiset(s[1..]);
            assert y in s;
            HeadIsLeast(s, y);
          }
        } else {
          assert r[i] == rest[i - 1] && r[j] == rest[j - 1];
        }
      }
    }
  }

  /** `sort((a, b) => a.text.localeCompare(b.text))` on the filtered copy. */
  function SortByText(s: seq<ElementData>): (r: seq<ElementData>)
    ensures SortedByText(r)
    ensures multiset(r) == multiset(s)
  {
    if s == [] then []
    else
      assert s == [s[0]] + s[1..];
      InsertSorted(s[0], SortByText(s[1..]));
      Insert(s[0], SortByText(s[1..]))
  }

  /** The items with text t, in their order. */
  function WithText(s: seq<ElementData>, t: string): seq<ElementData> {
    if s == [] then [] else (if s[0].text == t then [s[0]] else []) + WithText(s[1..], t)
  }

  /** Insertion puts x before every item of equal text, so among equal texts x comes first. */
  lemma {:induction false} InsertWithText(x: ElementData, s: seq<ElementData>, t: string)
    ensures WithText(Insert(x, s), t) == (if x.text == t then [x] else []) + WithText(s, t)
  {
    if s != [] && !LexLe(x.text, s[0].text) {
      InsertWithText(x, s[1..], t);
      var r := Insert(x, s);
      assert r[1..] == Insert(x, s[1..]);
      if x.text == t && s[0].text == t {
        LexLeTotal(x.text, x.text);
        assert false;
      }
    } else if s != [] {
      assert (([x] + s)[1..]) == s;
    }
  }

  /** The sort is stable: the items of any one text keep their relative order. */
  lemma {:induction false} SortByTextStable(s: seq<ElementData>, t: string)
    ensures WithText(SortByText(s), t) == WithText(s, t)
  {
    if s != [] {
      SortByTextStable(s[1..], t);
      InsertWithText(s[0], SortByText(s[1..]), t);
    }
  }

  datatype SortMode = Time | Alpha

  /** The sort mode a new sidebar starts in. */
  const DefaultSortMode: SortMode := Time

  /** The sort button: time and alphabetical alternate. */
  function ToggleSortMode(m: SortMode): (r: SortMode)
    ensures r != m
    ensures m == Time <==> r == Alpha
  {
    if m == Time then Alpha else Time
  }

  /** Pressing the sort button twice restores the mode. */
  lemma ToggleSortModeTwice(m: SortMode)
    ensures ToggleSortMode(ToggleSortMode(m)) == m
  {
  }

  /**
   * `filteredInventory`: in time mode the matching items in discovery order; in
   * alphabetical mode the same items, sorted by text.
   */
  function FilteredInventory(inventory: seq<ElementData>, search: string, mode: SortMode): (r: seq<ElementData>)
    ensures mode == Time ==> r == FilterInventory(inventory, search)
    ensures mode == Alpha ==> SortedByText(r) && multiset(r) == multiset(FilterInventory(inventory, search))
    ensures forall x :: x in r <==> x in inventory && Matches(x, search)
  {
    var result := FilterInventory(inventory, search);
    if mode == Alpha then
      var sorted := SortByText(result);
      assert forall x :: x in sorted <==> x in multiset(result);
      sorted
    else result
  }
}
