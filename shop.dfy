/** The shop catalogue of components/ShopModal.tsx and the enable rules of its buttons. */
module Shop {
  import opened Types

  /** SHOP_ITEMS, in catalogue order. */
  const ShopItems: seq<ShopItem> := [
    ShopItem(Runes, Background, "Mystic Runes", "ᚯ", "Ancient symbols float from the abyss."),
    ShopItem(Nebula, Background, "Deep Nebula", "🌌", "Cosmic gas clouds pulse in the background."),
    ShopItem(Binary, Background, "The Matrix", "💻", "Digital rain for the cyberpunk soul."),
    ShopItem(Bubbles, Background, "Zen Bubbles", "🫧", "Calming bubbles drifting upwards."),
    ShopItem(FireworkBoom, Upgrade, "Mega Boom", "💥", "Fireworks are 50% bigger and brighter!"),
    ShopItem(FireworkColor, Upgrade, "Rainbow Spark", "🌈", "Fireworks emit way more particles.")
  ]

  /** The shop's tabs: the gameplay upgrades, or one decoration category. */
  datatype Tab = Gameplay | CategoryTab(category: DecorationCategory)

  /** The catalogue entries shown on a tab, in catalogue order. */
  function ItemsOnTab(items: seq<ShopItem>, tab: Tab): (r: seq<ShopItem>)
    ensures |r| <= |items|
    ensures forall x :: x in r <==> x in items && tab == CategoryTab(x.category)
  {
    if items == [] then []
    else
      var rest := ItemsOnTab(items[1..], tab);
      if tab == CategoryTab(items[0].category) then [items[0]] + rest else rest
  }

  /** `filteredItems`. */
  function FilteredItems(tab: Tab): seq<ShopItem> {
    ItemsOnTab(ShopItems, tab)
  }

  /** The ids of a list of catalogue entries. */
  function Ids(items: seq<ShopItem>): set<ShopItemId> {
    set x | x in items :: x.id
  }

  /** Six entries with distinct ids, covering every shop id. */
  lemma CatalogueIds()
    ensures |ShopItems| == 6
    ensures forall i, j :: 0 <= i < j < |ShopItems| ==> ShopItems[i].id != ShopItems[j].id
    ensures forall id: ShopItemId :: id in Ids(ShopItems)
  {
    forall id: ShopItemId ensures id in Ids(ShopItems) {
      match id
      case Runes => assert ShopItems[0] in ShopItems;
      case Nebula => assert ShopItems[1] in ShopItems;
      case Binary => assert ShopItems[2] in ShopItems;
      case Bubbles => assert ShopItems[3] in ShopItems;
      case FireworkBoom => assert ShopItems[4] in ShopItems;
      case FireworkColor => assert ShopItems[5] in ShopItems;
    }
  }

  /** Filtering keeps a list whose entries all belong to the tab. */
  lemma {:induction false} ItemsOnTabAll(items: seq<ShopItem>, tab: Tab)
    requires forall i :: 0 <= i < |items| ==> tab == CategoryTab(items[i].category)
    ensures ItemsOnTab(items, tab) == items
  {
    if items != [] {
      ItemsOnTabAll(items[1..], tab);
      assert items == [items[0]] + items[1..];
    }
  }

  /** Filtering drops a list none of whose entries belongs to the tab. */
  lemma {:induction false} ItemsOnTabNone(items: seq<ShopItem>, tab: Tab)
    requires forall i :: 0 <= i < |items| ==> tab != CategoryTab(items[i].category)
    ensures ItemsOnTab(items, tab) == []
  {
    if items != [] {
      ItemsOnTabNone(items[1..], tab);
    }
  }

  /** Filtering a concatenation filters each part. */
  lemma {:induction false} ItemsOnTabAppend(a: seq<ShopItem>, b: seq<ShopItem>, tab: Tab)
    ensures ItemsOnTab(a + b, tab) == ItemsOnTab(a, tab) + ItemsOnTab(b, tab)
  {
    if a != [] {
      assert (a + b)[1..] == a[1..] + b;
      ItemsOnTabAppend(a[1..], b, tab);
    } else {
      assert a + b == b;
    }
  }

  /** The categories of the catalogue entries, in order. */
  lemma CatalogueCategories()
    ensures forall i :: 0 <= i < 4 ==> ShopItems[i].category == Background
    ensures forall i :: 4 <= i < 6 ==> ShopItems[i].category == Upgrade
  {
  }

  /** A list whose first k entries belong to the tab and whose others do not filters to its first k. */
  lemma ItemsOnTabPrefix(items: seq<ShopItem>, k: nat, tab: Tab)
    requires k <= |items|
    requires forall i :: 0 <= i < k ==> tab == CategoryTab(items[i].category)
    requires forall i :: k <= i < |items| ==> tab != CategoryTab(items[i].category)
    ensures ItemsOnTab(items, tab) == items[..k]
  {
    var front, back := items[..k], items[k..];
    assert items == front + back;
    ItemsOnTabAppend(front, back, tab);
    ItemsOnTabAll(front, tab);
    ItemsOnTabNone(back, tab);
  }

  /** A list whose first k entries do not belong to the tab and whose others do filters to its rest. */
  lemma ItemsOnTabSuffix(items: seq<ShopItem>, k: nat, tab: Tab)
    requires k <= |items|
    requires forall i :: 0 <= i < k ==> tab != CategoryTab(items[i].category)
    requires forall i :: k <= i < |items| ==> tab == CategoryTab(items[i].category)
    ensures ItemsOnTab(items, tab) == items[k..]
  {
    var front, back := items[..k], items[k..];
    assert items == front + back;
    ItemsOnTabAppend(front, back, tab);
    ItemsOnTabNone(front, tab);
    ItemsOnTabAll(back, tab);
  }

  /** The background tab lists the first four entries, in catalogue order. */
  lemma BackgroundTab()
    ensures FilteredItems(CategoryTab(Background)) == ShopItems[..4]
  {
    CatalogueCategories();
    ItemsOnTabPrefix(ShopItems, 4, CategoryTab(Background));
  }

  /** The effects tab lists the last two entries, in catalogue order. */
  lemma UpgradeTab()
    ensures FilteredItems(CategoryTab(Upgrade)) == ShopItems[4..]
  {
    CatalogueCategories();
    ItemsOnTabSuffix(ShopItems, 4, CategoryTab(Upgrade));
  }

  /** The gameplay tab lists no catalogue entry. */
  lemma GameplayTab()
    ensures FilteredItems(Gameplay) == []
  {
    ItemsOnTabNone(ShopItems, Gameplay);
  }

  /** The "Upgrade" button of the combo-limit card is enabled (ShopModal.tsx:109). */
  predicate ComboUpgradeEnabled(score: int, nextComboCost: int) {
    !(score < nextComboCost)
  }

  /** The "Summon" button is enabled (ShopModal.tsx:134). */
  predicate SummonEnabled(score: int, nextPetCost: int, isSummoningPet: bool) {
    !(score < nextPetCost || isSummoningPet)
  }

  datatype ToggleLabel = Enable | Disable

  /** The button a decoration card shows: Buy (enabled or not) for items not owned, else a toggle. */
  datatype ItemButton = BuyButton(enabled: bool) | ToggleButton(caption: ToggleLabel)

  /** The button of one card on a decoration tab (ShopModal.tsx:160-215). */
  function ItemButtonFor(item: ShopItem, unlocked: set<ShopItemId>, active: set<ShopItemId>,
                         score: int, nextDecorationCost: int): (b: ItemButton)
    ensures b.BuyButton? <==> item.id !in unlocked
    ensures b.BuyButton? ==> (b.enabled <==> score >= nextDecorationCost)
    ensures b.ToggleButton? ==> (b.caption == Disable <==> item.id in active)
  {
    if item.id !in unlocked then BuyButton(score >= nextDecorationCost)
    else ToggleButton(if item.id in active then Disable else Enable)
  }
}
