/**
 * The saved session of App.tsx (the SaveData record under the key ikc_save_data_v5)
 * and how a stored record is read back with its `||` defaults. JSON and the browser
 * storage are abstracted: a record is stored and read back as a value, and a JS Set
 * is stored as the set it lists.
 */
module SaveData {
  import opened Wrappers
  import opened Types

  /** The persistent part of a session: the eleven fields the save effect writes. */
  datatype Snapshot = Snapshot(
    inventory: seq<ElementData>,
    score: int,
    visitedRecipes: set<string>,
    baseMultiplier: real,
    language: string,
    topic: string,
    customItemCount: int,
    unlockedItems: set<ShopItemId>,
    activeItems: set<ShopItemId>,
    pets: seq<PetData>,
    maxCombo: int)

  /** A parsed record: any field may be missing (None) in what the storage holds. */
  datatype SaveRecord = SaveRecord(
    inventory: Option<seq<ElementData>>,
    score: Option<int>,
    visitedRecipes: Option<set<string>>,
    baseMultiplier: Option<real>,
    language: Option<string>,
    topic: Option<string>,
    customItemCount: Option<int>,
    unlockedItems: Option<set<ShopItemId>>,
    activeItems: Option<set<ShopItemId>>,
    pets: Option<seq<PetData>>,
    maxCombo: Option<int>)

  /** What the storage key holds: nothing (or ""), text JSON.parse rejects, or a parsed record. */
  datatype StoredSession = NoRecord | Corrupt | Parsed(record: SaveRecord)

  /** The record the save effect writes. */
  function SaveOf(s: Snapshot): (r: SaveRecord)
    ensures r.inventory == Some(s.inventory) && r.score == Some(s.score)
    ensures r.visitedRecipes == Some(s.visitedRecipes) && r.baseMultiplier == Some(s.baseMultiplier)
    ensures r.language == Some(s.language) && r.topic == Some(s.topic)
    ensures r.customItemCount == Some(s.customItemCount) && r.unlockedItems == Some(s.unlockedItems)
    ensures r.activeItems == Some(s.activeItems) && r.pets == Some(s.pets) && r.maxCombo == Some(s.maxCombo)
  {
    SaveRecord(Some(s.inventory), Some(s.score), Some(s.visitedRecipes), Some(s.baseMultiplier),
      Some(s.language), Some(s.topic), Some(s.customItemCount), Some(s.unlockedItems),
      Some(s.activeItems), Some(s.pets), Some(s.maxCombo))
  }

  /** `x || d` on a number: a missing or zero value reads as the default. */
  function IntOr(x: Option<int>, d: int): (r: int)
    ensures x.Some? && x.value != 0 ==> r == x.value
    ensures x.None? || x.value == 0 ==> r == d
  {
    if x.Some? && x.value != 0 then x.value else d
  }

  function RealOr(x: Option<real>, d: real): (r: real)
    ensures x.Some? && x.value != 0.0 ==> r == x.value
    ensures x.None? || x.value == 0.0 ==> r == d
  {
    if x.Some? && x.value != 0.0 then x.value else d
  }

  /** `x || d` on a string: a missing or empty value reads as the default. */
  function StringOr(x: Option<string>, d: string): (r: string)
    ensures x.Some? && x.value != "" ==> r == x.value
    ensures x.None? || x.value == "" ==> r == d
  {
    if x.Some? && x.value != "" then x.value else d
  }

  /**
   * The load effect: a record with a non-empty inventory is restored with the `||`
   * defaults (score 0, multiplier 1, English, no topic, count 0, no items, no pets,
   * combo limit 10); anything else leaves the game in setup (None).
   */
  function Load(stored: StoredSession): (s: Option<Snapshot>)
    ensures s.Some? <==> stored.Parsed? && stored.record.inventory.Some? && stored.record.inventory.value != []
    ensures s.Some? ==> s.value.inventory == stored.record.inventory.value && s.value.language != ""
  {
    match stored
    case NoRecord => None
    case Corrupt => None
    case Parsed(d) =>
      if d.inventory.Some? && d.inventory.value != [] then
        Some(Snapshot(
          d.inventory.value,
          IntOr(d.score, 0),
          d.visitedRecipes.GetOr({}),
          RealOr(d.baseMultiplier, 1.0),
          StringOr(d.language, "English"),
          StringOr(d.topic, ""),
          IntOr(d.customItemCount, 0),
          d.unlockedItems.GetOr({}),
          d.activeItems.GetOr({}),
          d.pets.GetOr([]),
          IntOr(d.maxCombo, 10)))
      else None
  }

  /** What loading changes in a saved snapshot: only `||` defaults on falsy values. */
  function Normalized(s: Snapshot): Snapshot {
    s.(baseMultiplier := if s.baseMultiplier == 0.0 then 1.0 else s.baseMultiplier,
       language := if s.language == "" then "English" else s.language,
       maxCombo := if s.maxCombo == 0 then 10 else s.maxCombo)
  }

  /** Loading what save wrote restores the session; a zero score or count stays zero. */
  lemma SaveLoadRoundTrip(s: Snapshot)
    requires s.inventory != []
    ensures Load(Parsed(SaveOf(s))) == Some(Normalized(s))
  {
  }

  /** A session whose multiplier, language and combo limit are set round-trips exactly. */
  lemma SaveLoadExact(s: Snapshot)
    requires s.inventory != [] && s.baseMultiplier >= 1.0 && s.language != "" && s.maxCombo >= 10
    ensures Load(Parsed(SaveOf(s))) == Some(s)
  {
    SaveLoadRoundTrip(s);
  }

  /** No record, a corrupt record, or a record without inventory leaves the game in setup. */
  lemma FreshSession(d: SaveRecord)
    ensures Load(NoRecord).None? && Load(Corrupt).None?
    ensures d.inventory.None? ==> Load(Parsed(d)).None?
    ensures d.inventory == Some([]) ==> Load(Parsed(d)).None?
  {
  }

  /** A record holding only an inventory loads with every default. */
  lemma DefaultsOnLoad(inventory: seq<ElementData>)
    requires inventory != []
    ensures Load(Parsed(SaveRecord(Some(inventory), None, None, None, None, None, None, None, None, None, None)))
      == Some(Snapshot(inventory, 0, {}, 1.0, "English", "", 0, {}, {}, [], 10))
  {
  }
}
