/**
 * The crafting economy of App.tsx. The React state of the App component is the
 * datatype State; each handler is a step function on it, and the class Game holds the
 * state in fields and performs the handlers in place, each method proved to take the
 * state where its step function says.
 *
 * The combo timer counts tenths of a second (MAX_COMBO_TIME = 10 s is 100), prices and
 * multipliers are exact reals, and Math.round(x) is Floor(x + 1/2).
 */
module App {
  import opened Wrappers
  import opened Types
  import opened Text
  import opened Economy
  import opened Oracle
  import opened SaveData
  import Shop

  /** MAX_COMBO_TIME, in tenths of a second. */
  const MaxComboTime: int := 100

  /** The combo limit of a new game, and what resetGame restores. */
  const StartMaxCombo: int := 10

  /** `Math.round` for the non-negative values it is applied to. */
  function Round(x: real): (n: int)
    ensures x - 0.5 < n as real <= x + 0.5
  {
    (x + 0.5).Floor
  }

  function Min(a: int, b: int): int {
    if a <= b then a else b
  }

  // ---------------------------------------------------------------------------
  // The component state
  // ---------------------------------------------------------------------------

  datatype State = State(
    gameState: GameState,
    inventory: seq<ElementData>,
    boardElements: seq<BoardElement>,
    score: int,
    visitedRecipes: set<string>,
    baseMultiplier: real,
    language: string,
    topic: string,
    customItemCount: int,
    unlockedItems: set<ShopItemId>,
    activeItems: set<ShopItemId>,
    pets: seq<PetData>,
    maxCombo: int,
    comboMultiplier: int,
    comboTimeLeft: int,
    isRecipeBookOpen: bool,
    storage: StoredSession)

  /** The bounds the handlers keep. */
  predicate Valid(s: State) {
    && s.score >= 0 && s.baseMultiplier >= 1.0 && s.customItemCount >= 0
    && s.maxCombo >= StartMaxCombo && s.comboMultiplier >= 1
    && 0 <= s.comboTimeLeft <= MaxComboTime
  }

  /** The combo multiplier does not exceed the combo limit. */
  predicate ComboWithinCap(s: State) {
    s.comboMultiplier <= s.maxCombo
  }

  /** The eleven persisted fields. */
  function SnapshotOf(s: State): Snapshot {
    Snapshot(s.inventory, s.score, s.visitedRecipes, s.baseMultiplier, s.language, s.topic,
      s.customItemCount, s.unlockedItems, s.activeItems, s.pets, s.maxCombo)
  }

  /** What the save effect leaves in the storage: the record of the state while playing with a non-empty inventory. */
  function SavedStorage(s: State): (r: StoredSession)
    ensures s.gameState == Playing && s.inventory != [] ==> r == Parsed(SaveOf(SnapshotOf(s)))
    ensures !(s.gameState == Playing && s.inventory != []) ==> r == s.storage
  {
    if s.gameState == Playing && s.inventory != [] then Parsed(SaveOf(SnapshotOf(s))) else s.storage
  }

  /** The state after the save effect. */
  function Saved(s: State): State {
    s.(storage := SavedStorage(s))
  }

  /** After the save effect, reloading the page restores the persisted fields. */
  lemma ReloadRestores(s: State)
    requires Valid(s) && s.gameState == Playing && s.inventory != [] && s.language != ""
    ensures Load(Saved(s).storage) == Some(SnapshotOf(s))
  {
    SaveLoadExact(SnapshotOf(s));
  }

  /** The stored record is that of the session whenever the save effect would write one. */
  predicate InSync(s: State) {
    s.gameState == Playing && s.inventory != [] ==> s.storage == Parsed(SaveOf(SnapshotOf(s)))
  }

  /** Mounting: the initial state, then the load effect, then the save effect. */
  function Initial(stored: StoredSession): (s: State)
    ensures s.boardElements == [] && s.comboMultiplier == 1 && s.comboTimeLeft == 0 && !s.isRecipeBookOpen
    ensures Load(stored).None? ==>
      && s.gameState == Setup && Valid(s) && s.storage == stored
      && s.inventory == [] && s.score == 0 && s.maxCombo == StartMaxCombo
    ensures Load(stored).Some? ==>
      && s.gameState == Playing && SnapshotOf(s) == Load(stored).value
      && s.storage == Parsed(SaveOf(Load(stored).value))
  {
    var blank := State(Setup, [], [], 0, {}, 1.0, "English", "", 0, {}, {}, [], StartMaxCombo, 1, 0, false, stored);
    match Load(stored)
    case None => blank
    case Some(d) =>
      Saved(blank.(gameState := Playing, inventory := d.inventory, score := d.score,
        visitedRecipes := d.visitedRecipes, baseMultiplier := d.baseMultiplier, language := d.language,
        topic := d.topic, customItemCount := d.customItemCount, unlockedItems := d.unlockedItems,
        activeItems := d.activeItems, pets := d.pets, maxCombo := d.maxCombo))
  }

  // ---------------------------------------------------------------------------
  // Board and inventory helpers
  // ---------------------------------------------------------------------------

  /** `prev.filter(el => el.instanceId !== id)`. */
  function RemoveInstance(board: seq<BoardElement>, id: string): (r: seq<BoardElement>)
    ensures |r| <= |board|
    ensures forall e :: e in r <==> e in board && e.instanceId != id
  {
    if board == [] then []
    else
      var rest := RemoveInstance(board[1..], id);
      assert forall e :: e in board <==> e == board[0] || e in board[1..];
      if board[0].instanceId != id then [board[0]] + rest else rest
  }

  /** The filter distributes over concatenation, so the tokens kept stay in board order. */
  lemma {:induction false} RemoveInstanceAppend(a: seq<BoardElement>, b: seq<BoardElement>, id: string)
    ensures RemoveInstance(a + b, id) == RemoveInstance(a, id) + RemoveInstance(b, id)
    ensures RemoveInstance([], id) == []
    ensures forall e :: RemoveInstance([e], id) == if e.instanceId != id then [e] else []
    decreases |a|
  {
    if a != [] {
      assert (a + b)[1..] == a[1..] + b;
      RemoveInstanceAppend(a[1..], b, id);
    } else {
      assert a + b == b;
    }
    forall e ensures RemoveInstance([e], id) == if e.instanceId != id then [e] else [] {
      assert [e][1..] == [];
    }
  }

  /** The target shows "Crafting..." while the oracle is asked. */
  function MarkCrafting(board: seq<BoardElement>, id: string): seq<BoardElement> {
    seq(|board|, i requires 0 <= i < |board| =>
      if board[i].instanceId == id then board[i].(isLoading := true, text := "Crafting...") else board[i])
  }

  /** `{ ...el, ...newElementData, isLoading: false }` on the target. */
  function ApplyCraft(board: seq<BoardElement>, id: string, d: ElementData): seq<BoardElement> {
    seq(|board|, i requires 0 <= i < |board| =>
      if board[i].instanceId == id
      then board[i].(id := d.id, text := d.text, emoji := d.emoji, parents := d.parents, isLoading := false)
      else board[i])
  }

  /** `{ ...el, isLoading: false, text: target.text, emoji: target.emoji }` on the target. */
  function RestoreTarget(board: seq<BoardElement>, id: string, text: string, emoji: string): seq<BoardElement> {
    seq(|board|, i requires 0 <= i < |board| =>
      if board[i].instanceId == id then board[i].(isLoading := false, text := text, emoji := emoji) else board[i])
  }

  /** Some inventory item has exactly this text. */
  predicate HasText(inventory: seq<ElementData>, text: string) {
    exists e :: e in inventory && e.text == text
  }

  /** Some inventory item has this text up to letter case. */
  predicate HasTextIgnoringCase(inventory: seq<ElementData>, text: string) {
    exists e :: e in inventory && Lower(e.text) == Lower(text)
  }

  /** The inventory update of a craft: the element is appended unless its text is present. */
  function AddIfNew(inventory: seq<ElementData>, e: ElementData): (r: seq<ElementData>)
    ensures HasText(r, e.text)
    ensures HasText(inventory, e.text) ==> r == inventory
    ensures !HasText(inventory, e.text) ==> r == inventory + [e]
  {
    if HasText(inventory, e.text) then inventory
    else
      assert e in inventory + [e];
      inventory + [e]
  }

  /** The inventory update of a custom creation: the comparison ignores letter case. */
  function AddIfNewIgnoringCase(inventory: seq<ElementData>, e: ElementData): (r: seq<ElementData>)
    ensures HasTextIgnoringCase(r, e.text)
    ensures HasTextIgnoringCase(inventory, e.text) ==> r == inventory
    ensures !HasTextIgnoringCase(inventory, e.text) ==> r == inventory + [e]
  {
    if HasTextIgnoringCase(inventory, e.text) then inventory
    else
      assert e in inventory + [e];
      inventory + [e]
  }

  /** Adding twice adds once. */
  lemma AddIfNewIdempotent(inventory: seq<ElementData>, e: ElementData)
    ensures AddIfNew(AddIfNew(inventory, e), e) == AddIfNew(inventory, e)
    ensures AddIfNewIgnoringCase(AddIfNewIgnoringCase(inventory, e), e) == AddIfNewIgnoringCase(inventory, e)
  {
  }

  /** The board element addToBoard places for an element at a (random) position. */
  function NewBoardElement(d: ElementData, instanceId: string, x: int, y: int): BoardElement {
    BoardElement(d.id, d.text, d.emoji, d.parents, instanceId, x, y, false, false)
  }

  // ---------------------------------------------------------------------------
  // Session handlers
  // ---------------------------------------------------------------------------

  /** handleSetupComplete. */
  function SetupCompleteStep(s: State, elements: seq<ElementData>, detectedLanguage: string, inputTopic: string): (r: State)
    ensures r.gameState == Playing && r.inventory == elements
    ensures r.language == detectedLanguage && r.topic == inputTopic
    ensures Valid(s) ==> Valid(r)
  {
    Saved(s.(inventory := elements, language := detectedLanguage, topic := inputTopic, gameState := Playing))
  }

  /** addToBoard: the element is appended to the board; nothing persisted changes. */
  function AddToBoardStep(s: State, d: ElementData, instanceId: string, x: int, y: int): (r: State)
    ensures r.boardElements == s.boardElements + [NewBoardElement(d, instanceId, x, y)]
    ensures r.(boardElements := s.boardElements) == s
  {
    s.(boardElements := s.boardElements + [NewBoardElement(d, instanceId, x, y)])
  }

  /** clearBoard. */
  function ClearBoardStep(s: State): (r: State)
    ensures r.boardElements == [] && r.(boardElements := s.boardElements) == s
  {
    s.(boardElements := [])
  }

  /** resetGame: back to setup; the score, recipes, multiplier and cosmetics stay. */
  function ResetGameStep(s: State): (r: State)
    ensures Valid(s) ==> Valid(r)
  {
    s.(boardElements := [], inventory := [], topic := "", customItemCount := 0, pets := [],
       maxCombo := StartMaxCombo, gameState := Setup)
  }

  /**
   * resetGame clears board, inventory, topic, creations and pets, sets the combo limit to
   * 10 and keeps everything else; the stored record is not rewritten.
   */
  lemma ResetGameKeeps(s: State)
    ensures var r := ResetGameStep(s);
      && r.boardElements == [] && r.inventory == [] && r.topic == "" && r.customItemCount == 0
      && r.pets == [] && r.maxCombo == StartMaxCombo && r.gameState == Setup
      && r.score == s.score && r.visitedRecipes == s.visitedRecipes && r.baseMultiplier == s.baseMultiplier
      && r.unlockedItems == s.unlockedItems && r.activeItems == s.activeItems
      && r.comboMultiplier == s.comboMultiplier && r.comboTimeLeft == s.comboTimeLeft
      && r.storage == s.storage && Saved(r) == r
  {
  }

  /** resetGame does not lower the combo multiplier to the new limit. */
  lemma ResetBreaksComboCap()
    ensures var s := State(Playing, [], [], 0, {}, 1.0, "English", "", 0, {}, {}, [], 12, 12, 50, false, NoRecord);
      Valid(s) && ComboWithinCap(s) && !ComboWithinCap(ResetGameStep(s))
  {
  }

  /**
   * The session handlers keep the stored record in step with the session: each either
   * changes none of the saved fields or its changes reach the save effect.
   */
  lemma SessionStepsKeepInSync(s: State, stored: StoredSession, elements: seq<ElementData>,
                               language: string, topic: string, d: ElementData, instanceId: string, x: int, y: int)
    requires InSync(s)
    ensures InSync(Initial(stored))
    ensures InSync(SetupCompleteStep(s, elements, language, topic))
    ensures InSync(AddToBoardStep(s, d, instanceId, x, y)) && InSync(ClearBoardStep(s))
    ensures InSync(ResetGameStep(s)) && InSync(TickStep(s))
  {
    assert SnapshotOf(AddToBoardStep(s, d, instanceId, x, y)) == SnapshotOf(s);
    assert SnapshotOf(ClearBoardStep(s)) == SnapshotOf(s);
    assert SnapshotOf(TickStep(s)) == SnapshotOf(s);
  }

  // ---------------------------------------------------------------------------
  // Purchases (the costs are what the shop passes: the current prices)
  // ---------------------------------------------------------------------------

  /** The price of the next custom item. */
  function CustomCostOf(s: State): int {
    CustomItemCost(s.customItemCount)
  }

  /**
   * handleCreateCustomItem. `cost` is the price the render computed (CustomCostOf) and
   * `generated` is how the awaited generateSingleElement ended: an element, nothing, or a
   * thrown error. The cost is deducted first and refunded on a throw (both score changes
   * reach the save effect, so the record ends up written); the board gets the element and
   * the count grows even when a case-insensitive duplicate is not re-added to the inventory.
   */
  function CreateCustomItemStep(s: State, input: string, cost: int, generated: Outcome<Option<ElementData>>,
                                instanceId: string, x: int, y: int): (r: State)
    ensures Valid(s) ==> Valid(r)
  {
    if Blank(input) || !(s.score >= cost) then s
    else CustomOutcomeStep(s.(score := s.score - cost), cost, generated, instanceId, x, y)
  }

  /** What follows the awaited generation, once the cost is deducted. */
  function CustomOutcomeStep(charged: State, cost: int, generated: Outcome<Option<ElementData>>,
                             instanceId: string, x: int, y: int): (r: State)
    ensures Valid(charged) && charged.score + cost >= 0 ==> Valid(r)
  {
    match generated
    case Thrown(_) => Saved(charged.(score := charged.score + cost))
    case Returned(None) => Saved(charged)
    case Returned(Some(e)) =>
      Saved(charged.(inventory := AddIfNewIgnoringCase(charged.inventory, e),
                     boardElements := charged.boardElements + [NewBoardElement(e, instanceId, x, y)],
                     customItemCount := charged.customItemCount + 1))
  }

  /** A blank name or a score below the price leaves the state unchanged. */
  lemma CustomItemRejected(s: State, input: string, cost: int, generated: Outcome<Option<ElementData>>,
                           instanceId: string, x: int, y: int)
    requires Blank(input) || s.score < cost
    ensures CreateCustomItemStep(s, input, cost, generated, instanceId, x, y) == s
  {
  }

  /**
   * An accepted custom creation: a throw refunds the cost (and saves), nothing keeps the
   * cost deducted, and an element is paid for, counted, shown on the board and added to
   * the inventory unless its text is already there up to case.
   */
  lemma CustomItemOutcomes(s: State, input: string, cost: int, generated: Outcome<Option<ElementData>>,
                           instanceId: string, x: int, y: int)
    requires !Blank(input) && s.score >= cost
    ensures generated.Thrown? ==> CreateCustomItemStep(s, input, cost, generated, instanceId, x, y) == Saved(s)
    ensures generated == Returned(None) ==>
      CreateCustomItemStep(s, input, cost, generated, instanceId, x, y) == Saved(s.(score := s.score - cost))
    ensures generated.Returned? && generated.value.Some? ==>
      var e := generated.value.value; var r := CreateCustomItemStep(s, input, cost, generated, instanceId, x, y);
      && r.score == s.score - cost
      && r.customItemCount == s.customItemCount + 1
      && HasTextIgnoringCase(r.inventory, e.text)
      && (HasTextIgnoringCase(s.inventory, e.text) ==> r.inventory == s.inventory)
      && (!HasTextIgnoringCase(s.inventory, e.text) ==> r.inventory == s.inventory + [e])
      && r.boardElements == s.boardElements + [NewBoardElement(e, instanceId, x, y)]
  {
    var charged := s.(score := s.score - cost);
    if generated.Thrown? {
      assert charged.(score := charged.score + cost) == s;
    }
  }

  /** Each custom item created raises the price of the next one. */
  lemma CustomPriceRises(s: State, input: string, e: ElementData, instanceId: string, x: int, y: int)
    requires Valid(s)
    ensures var r := CreateCustomItemStep(s, input, CustomCostOf(s), Returned(Some(e)), instanceId, x, y);
      r != s ==> CustomCostOf(r) > CustomCostOf(s)
  {
    PricesStrictlyIncreasing(s.customItemCount, s.customItemCount + 1);
  }

  /** With the modelled service the creation always yields an element, never null or an error. */
  function GeneratedCustom(itemName: string, call: Outcome<Option<string>>): (g: Outcome<Option<ElementData>>)
    ensures g.Returned? && g.value.Some? && g.value.value.text == itemName
  {
    Returned(Some(GenerateSingleElement(itemName, call)))
  }

  /** handleBuyDecoration: buys and equips a decoration not yet owned. */
  function BuyDecorationStep(s: State, id: ShopItemId, cost: int): (r: State)
    ensures Valid(s) ==> Valid(r)
  {
    if s.score >= cost && id !in s.unlockedItems then
      Saved(s.(score := s.score - cost, unlockedItems := s.unlockedItems + {id},
               activeItems := s.activeItems + {id}))
    else s
  }

  /** The price of the next decoration. */
  function DecorationCostOf(s: State): int {
    DecorationCost(|s.unlockedItems|)
  }

  /**
   * A decoration purchase is a no-op when the score is short or the item is owned;
   * otherwise it debits exactly the cost, owns and equips the item, and raises the price
   * of the next decoration.
   */
  lemma BuyDecorationEffect(s: State, id: ShopItemId)
    ensures var cost := DecorationCostOf(s); var r := BuyDecorationStep(s, id, cost);
      && (s.score < cost || id in s.unlockedItems ==> r == s)
      && (s.score >= cost && id !in s.unlockedItems ==>
          && r.score == s.score - cost
          && r.unlockedItems == s.unlockedItems + {id} && r.activeItems == s.activeItems + {id}
          && DecorationCostOf(r) > DecorationCostOf(s)
          && r.(storage := s.storage, score := s.score, unlockedItems := s.unlockedItems,
                activeItems := s.activeItems) == s)
  {
    var cost := DecorationCostOf(s);
    if s.score >= cost && id !in s.unlockedItems {
      assert |s.unlockedItems + {id}| == |s.unlockedItems| + 1;
      PricesStrictlyIncreasing(|s.unlockedItems|, |s.unlockedItems| + 1);
    }
  }

  /** The active set after toggling id. */
  function Toggled(active: set<ShopItemId>, id: ShopItemId): (r: set<ShopItemId>)
    ensures id in r <==> id !in active
    ensures forall j :: j != id ==> (j in r <==> j in active)
  {
    if id in active then active - {id} else active + {id}
  }

  /** handleToggleDecoration. */
  function ToggleDecorationStep(s: State, id: ShopItemId): (r: State)
    ensures r.activeItems == Toggled(s.activeItems, id)
    ensures r.(storage := s.storage, activeItems := s.activeItems) == s
  {
    Saved(s.(activeItems := Toggled(s.activeItems, id)))
  }

  /** Toggling the same decoration twice restores the state (the stored record aside). */
  lemma ToggleTwice(s: State, id: ShopItemId)
    ensures ToggleDecorationStep(ToggleDecorationStep(s, id), id).(storage := s.storage) == s
  {
    assert Toggled(Toggled(s.activeItems, id), id) == s.activeItems;
  }

  /** handleUpgradeCombo: one more combo step for the price. */
  function UpgradeComboStep(s: State, cost: int): (r: State)
    ensures Valid(s) ==> Valid(r)
    ensures ComboWithinCap(s) ==> ComboWithinCap(r)
  {
    if s.score >= cost then Saved(s.(score := s.score - cost, maxCombo := s.maxCombo + 1)) else s
  }

  /** The upgrade is a no-op when the score is short, else it debits exactly the cost and raises the price. */
  lemma UpgradeComboEffect(s: State)
    requires Valid(s)
    ensures var cost := ComboUpgradeCost(s.maxCombo); var r := UpgradeComboStep(s, cost);
      && (s.score < cost ==> r == s)
      && (s.score >= cost ==>
          && r.score == s.score - cost && r.maxCombo == s.maxCombo + 1
          && ComboUpgradeCost(r.maxCombo) > cost
          && r.(storage := s.storage, score := s.score, maxCombo := s.maxCombo) == s)
  {
    PricesStrictlyIncreasing(s.maxCombo - 10, s.maxCombo + 1 - 10);
  }

  /** The concepts shown to the pet oracle: the board texts, or the last five inventory texts. */
  function SummonContext(board: seq<BoardElement>, inventory: seq<ElementData>): (c: seq<string>)
    ensures board != [] ==> |c| == |board| && forall i :: 0 <= i < |board| ==> c[i] == board[i].text
    ensures board == [] ==>
      && |c| == Min(5, |inventory|)
      && forall i :: 0 <= i < |c| ==> c[i] == inventory[|inventory| - |c| + i].text
  {
    if board != [] then seq(|board|, i requires 0 <= i < |board| => board[i].text)
    else
      var tail := if |inventory| <= 5 then inventory else inventory[|inventory| - 5..];
      seq(|tail|, i requires 0 <= i < |tail| => tail[i].text)
  }

  /**
   * handleSummonPet once the awaited generatePetFromContext has returned `newPet` (it never
   * throws, see Oracle.GeneratePet): a summon the score allows debits the cost and adds
   * the pet.
   */
  function SummonPetStep(s: State, cost: int, newPet: PetData): (r: State)
    ensures Valid(s) ==> Valid(r)
  {
    if s.score >= cost then Saved(s.(score := s.score - cost, pets := s.pets + [newPet])) else s
  }

  /**
   * A summon is a no-op when the score is short; otherwise it debits exactly the cost,
   * appends the generated pet, and raises the price of the next pet.
   */
  lemma SummonPetEffect(s: State, pet: PetData)
    ensures var cost := PetCost(|s.pets|); var r := SummonPetStep(s, cost, pet);
      && (s.score < cost ==> r == s)
      && (s.score >= cost ==>
          && r.score == s.score - cost
          && r.pets == s.pets + [pet]
          && PetCost(|r.pets|) > cost
          && r.(storage := s.storage, score := s.score, pets := s.pets) == s)
  {
    PricesStrictlyIncreasing(|s.pets|, |s.pets| + 1);
  }

  /**
   * The shop enables exactly the purchases the handlers accept: the upgrade button is
   * enabled iff the upgrade goes through, and the summon button iff no summon is running
   * and the summon goes through.
   */
  lemma ShopGatingMatchesHandlers(s: State, newPet: PetData, isSummoningPet: bool)
    ensures var cost := ComboUpgradeCost(s.maxCombo);
      Shop.ComboUpgradeEnabled(s.score, cost) <==> UpgradeComboStep(s, cost).maxCombo == s.maxCombo + 1
    ensures var cost := PetCost(|s.pets|);
      (Shop.SummonEnabled(s.score, cost, isSummoningPet)
       <==> !isSummoningPet && |SummonPetStep(s, cost, newPet).pets| == |s.pets| + 1)
  {
  }

  // ---------------------------------------------------------------------------
  // Crafting
  // ---------------------------------------------------------------------------

  /** The recipe key: the two texts sorted and joined with `|` (no language). */
  function RecipeKey(a: string, b: string): string {
    PairKey(a, b)
  }

  /** The points of a first-time recipe: 100 for a new element, 10 otherwise, times both multipliers after the step. */
  function CraftPoints(isNewElement: bool, baseMultiplier: real, comboMultiplier: int, maxCombo: int): int {
    var basePoints := if isNewElement then 100 else 10;
    Round(basePoints as real * (baseMultiplier * 1.1) * Min(maxCombo, comboMultiplier + 1) as real)
  }

  /** The element a combination result becomes, with the two ingredients as parents. */
  function CraftedElement(c: CraftingResult, sourceText: string, targetText: string): (e: ElementData)
    ensures e.text == c.result && e.emoji == c.emoji && e.id == IdOf(c.result)
    ensures e.parents == Some(Parents(sourceText, targetText))
  {
    ElementData(IdOf(c.result), c.result, c.emoji, Some(Parents(sourceText, targetText)))
  }

  /** The synchronous part of attemptCraft: the source leaves the board, the target shows it is loading. */
  function CraftStartStep(s: State, source: BoardElement, target: BoardElement): State {
    s.(boardElements := MarkCrafting(RemoveInstance(s.boardElements, source.instanceId), target.instanceId))
  }

  /** The scoring of a successful craft: only a recipe not seen before scores. */
  function Award(s: State, recipeKey: string, isNewElement: bool): State {
    if recipeKey in s.visitedRecipes then s
    else
      s.(visitedRecipes := s.visitedRecipes + {recipeKey},
         baseMultiplier := s.baseMultiplier * 1.1,
         comboMultiplier := Min(s.maxCombo, s.comboMultiplier + 1),
         comboTimeLeft := MaxComboTime,
         score := s.score + CraftPoints(isNewElement, s.baseMultiplier, s.comboMultiplier, s.maxCombo))
  }

  /** The rest of attemptCraft once combineElements has answered `result`. */
  function CraftFinishStep(s: State, source: BoardElement, target: BoardElement, result: Option<CraftingResult>): (r: State)
    ensures Valid(s) ==> Valid(r)
    ensures ComboWithinCap(s) ==> ComboWithinCap(r)
  {
    match result
    case Some(c) =>
      var d := CraftedElement(c, source.text, target.text);
      var scored := Award(s, RecipeKey(source.text, target.text), !HasText(s.inventory, d.text));
      Saved(scored.(inventory := AddIfNew(s.inventory, d),
                    boardElements := ApplyCraft(s.boardElements, target.instanceId, d)))
    case None =>
      s.(boardElements := RestoreTarget(s.boardElements, target.instanceId, target.text, target.emoji))
  }

  /** attemptCraft as a whole. */
  function AttemptCraftStep(s: State, source: BoardElement, target: BoardElement, result: Option<CraftingResult>): (r: State)
    ensures Valid(s) ==> Valid(r)
    ensures ComboWithinCap(s) ==> ComboWithinCap(r)
  {
    CraftFinishStep(CraftStartStep(s, source, target), source, target, result)
  }

  /** A first-time points award is at least 11, and exactly 220 for a new element at multiplier 1 and combo 1. */
  lemma CraftPointsBounds(isNewElement: bool, baseMultiplier: real, comboMultiplier: int, maxCombo: int)
    requires baseMultiplier >= 1.0 && comboMultiplier >= 1 && maxCombo >= 1
    ensures CraftPoints(isNewElement, baseMultiplier, comboMultiplier, maxCombo) >= 11
    ensures CraftPoints(true, 1.0, 1, 10) == 220
  {
    var basePoints: real := if isNewElement then 100.0 else 10.0;
    var m := baseMultiplier * 1.1;
    var c := Min(maxCombo, comboMultiplier + 1) as real;
    assert m >= 1.1;
    assert c >= 1.0;
    assert basePoints * m >= 11.0;
    assert basePoints * m * c >= basePoints * m;
  }

  /**
   * A successful first-time craft: the recipe is recorded, the multiplier grows by 1.1,
   * the combo rises by one up to the limit, the timer restarts at 10 s, and the score
   * grows by the rounded points of 100 (new element) or 10.
   */
  lemma FirstCraftAward(s: State, source: BoardElement, target: BoardElement, c: CraftingResult)
    requires RecipeKey(source.text, target.text) !in s.visitedRecipes
    ensures var r := AttemptCraftStep(s, source, target, Some(c));
      var isNew := !HasText(s.inventory, c.result);
      && r.visitedRecipes == s.visitedRecipes + {RecipeKey(source.text, target.text)}
      && r.baseMultiplier == s.baseMultiplier * 1.1
      && r.comboMultiplier == Min(s.maxCombo, s.comboMultiplier + 1)
      && r.comboTimeLeft == MaxComboTime
      && r.score == s.score + CraftPoints(isNew, s.baseMultiplier, s.comboMultiplier, s.maxCombo)
  {
  }

  /** The opening craft of a fresh session that discovers a new element scores 220. */
  lemma FirstCraftExample(s: State, source: BoardElement, target: BoardElement, c: CraftingResult)
    requires s.score == 0 && s.baseMultiplier == 1.0 && s.comboMultiplier == 1 && s.maxCombo == 10
    requires s.visitedRecipes == {} && s.inventory == []
    ensures AttemptCraftStep(s, source, target, Some(c)).score == 220
  {
    FirstCraftAward(s, source, target, c);
    CraftPointsBounds(true, 1.0, 1, 10);
  }

  /**
   * A pair scores at most once: once its recipe key is recorded, crafting it again (in
   * either order, with any result) leaves score, multiplier, combo and timer unchanged.
   */
  lemma CraftScoresOnce(s: State, source: BoardElement, target: BoardElement,
                        c: CraftingResult, result2: Option<CraftingResult>)
    ensures var r := AttemptCraftStep(s, source, target, Some(c));
      && RecipeKey(source.text, target.text) in r.visitedRecipes
      && RecipeKey(target.text, source.text) in r.visitedRecipes
    ensures var r := AttemptCraftStep(s, source, target, Some(c));
      forall src: BoardElement, tgt: BoardElement ::
        RecipeKey(src.text, tgt.text) == RecipeKey(source.text, target.text) ==>
        var r2 := AttemptCraftStep(r, src, tgt, result2);
        && r2.score == r.score && r2.baseMultiplier == r.baseMultiplier
        && r2.comboMultiplier == r.comboMultiplier && r2.comboTimeLeft == r.comboTimeLeft
        && r2.visitedRecipes == r.visitedRecipes
  {
    PairKeySymmetric(source.text, target.text);
  }

  /** A null craft leaves score, inventory, recipes, multipliers, timer and storage unchanged. */
  lemma NullCraftKeeps(s: State, source: BoardElement, target: BoardElement)
    ensures var r := AttemptCraftStep(s, source, target, None);
      r.(boardElements := s.boardElements) == s
  {
  }

  /** The inventory gains the result exactly when no item has the same text (case-sensitive). */
  lemma CraftInventory(s: State, source: BoardElement, target: BoardElement, c: CraftingResult)
    ensures var r := AttemptCraftStep(s, source, target, Some(c));
      && HasText(r.inventory, c.result)
      && (HasText(s.inventory, c.result) ==> r.inventory == s.inventory)
      && (!HasText(s.inventory, c.result) ==> r.inventory == s.inventory + [CraftedElement(c, source.text, target.text)])
  {
  }

  /**
   * The board after a successful craft: the source is gone; every other element keeps its
   * place, instance id and position; the target takes the result's id, text, emoji and
   * the parents [source, target], and stops loading.
   */
  lemma CraftBoardSuccess(s: State, source: BoardElement, target: BoardElement, c: CraftingResult)
    requires source.instanceId != target.instanceId
    ensures var b0 := RemoveInstance(s.boardElements, source.instanceId);
      var b := AttemptCraftStep(s, source, target, Some(c)).boardElements;
      var d := CraftedElement(c, source.text, target.text);
      && (forall e :: e in b ==> e.instanceId != source.instanceId)
      && |b| == |b0|
      && (forall i :: 0 <= i < |b| ==>
            && b[i].instanceId == b0[i].instanceId && b[i].x == b0[i].x && b[i].y == b0[i].y
            && (b0[i].instanceId == target.instanceId ==>
                  b[i] == b0[i].(id := d.id, text := d.text, emoji := d.emoji, parents := d.parents, isLoading := false))
            && (b0[i].instanceId != target.instanceId ==> b[i] == b0[i]))
  {
    var b0 := RemoveInstance(s.boardElements, source.instanceId);
    var b := AttemptCraftStep(s, source, target, Some(c)).boardElements;
    forall e | e in b ensures e.instanceId != source.instanceId {
      var i :| 0 <= i < |b| && b[i] == e;
      assert b0[i] in b0;
    }
  }

  /**
   * After a null craft the target's text and emoji are restored and it stops loading; the
   * source stays removed. When the target was the only element with its instance id and
   * was not loading, the board is exactly the old board without the source.
   */
  lemma CraftBoardNull(s: State, source: BoardElement, target: BoardElement)
    ensures var b0 := RemoveInstance(s.boardElements, source.instanceId);
      var b := AttemptCraftStep(s, source, target, None).boardElements;
      && |b| == |b0|
      && (forall i :: 0 <= i < |b| && b0[i].instanceId == target.instanceId ==>
            b[i] == b0[i].(isLoading := false, text := target.text, emoji := target.emoji))
      && (forall i :: 0 <= i < |b| && b0[i].instanceId != target.instanceId ==> b[i] == b0[i])
    ensures var b0 := RemoveInstance(s.boardElements, source.instanceId);
      (forall e :: e in b0 && e.instanceId == target.instanceId ==> e == target) && !target.isLoading ==>
      AttemptCraftStep(s, source, target, None).boardElements == b0
  {
    var b0 := RemoveInstance(s.boardElements, source.instanceId);
    var b := AttemptCraftStep(s, source, target, None).boardElements;
    if (forall e :: e in b0 && e.instanceId == target.instanceId ==> e == target) && !target.isLoading {
      forall i | 0 <= i < |b| ensures b[i] == b0[i] {
        if b0[i].instanceId == target.instanceId {
          assert b0[i] in b0;
        }
      }
    }
  }

  // ---------------------------------------------------------------------------
  // The combo timer
  // ---------------------------------------------------------------------------

  /**
   * One firing of the combo effect: nothing while the recipe book is open; once the timer
   * is at 0 the combo falls back to 1; otherwise the 100 ms interval takes a tenth off.
   */
  function TickStep(s: State): (r: State)
    ensures Valid(s) ==> Valid(r)
    ensures ComboWithinCap(s) ==> ComboWithinCap(r)
  {
    if s.isRecipeBookOpen then s
    else if s.comboTimeLeft <= 0 then
      s.(comboMultiplier := if s.comboMultiplier > 1 then 1 else s.comboMultiplier)
    else s.(comboTimeLeft := if s.comboTimeLeft - 1 < 0 then 0 else s.comboTimeLeft - 1)
  }

  /**
   * A tick changes only the combo and the timer; the timer drops by one tenth while it
   * is positive; the combo is never partly decremented: it changes only to 1, only with
   * the timer at 0 and the recipe book closed.
   */
  lemma TickEffect(s: State)
    requires Valid(s)
    ensures var r := TickStep(s);
      && r.(comboMultiplier := s.comboMultiplier, comboTimeLeft := s.comboTimeLeft) == s
      && (r.comboMultiplier == s.comboMultiplier || r.comboMultiplier == 1)
      && (r.comboMultiplier != s.comboMultiplier ==> s.comboTimeLeft == 0 && !s.isRecipeBookOpen)
      && (s.isRecipeBookOpen ==> r == s)
      && (!s.isRecipeBookOpen && s.comboTimeLeft > 0 ==> r.comboTimeLeft == s.comboTimeLeft - 1)
  {
  }

  /** n ticks in a row. */
  function Ticks(s: State, n: nat): State
    decreases n
  {
    if n == 0 then s else Ticks(TickStep(s), n - 1)
  }

  /** With the recipe book closed, the combo is back at 1 after timer + 1 ticks. */
  lemma {:induction false} ComboExpires(s: State, n: nat)
    requires Valid(s) && !s.isRecipeBookOpen && n > s.comboTimeLeft
    ensures Ticks(s, n).comboTimeLeft == 0 && Ticks(s, n).comboMultiplier == 1
    ensures Ticks(s, n).score == s.score && Ticks(s, n).maxCombo == s.maxCombo
    decreases n
  {
    var t := TickStep(s);
    if n > 1 {
      ComboExpires(t, n - 1);
    }
  }

  /** While the recipe book is open the timer does not run. */
  lemma {:induction false} TicksPausedByRecipeBook(s: State, n: nat)
    requires s.isRecipeBookOpen
    ensures Ticks(s, n) == s
    decreases n
  {
    if n > 0 {
      TicksPausedByRecipeBook(s, n - 1);
    }
  }

  // ---------------------------------------------------------------------------
  // The drop target (handleMouseUp)
  // ---------------------------------------------------------------------------

  /** The squared distance of two board elements. */
  function Dist2(a: BoardElement, b: BoardElement): int {
    (a.x - b.x) * (a.x - b.x) + (a.y - b.y) * (a.y - b.y)
  }

  /** An element may receive the dragged one: another instance, not loading, closer than 50 px. */
  predicate CanReceive(el: BoardElement, dragged: BoardElement) {
    el.instanceId != dragged.instanceId && !el.isLoading && Dist2(el, dragged) < 2500
  }

  /** The index of the first element that may receive the dragged one. */
  function FirstReceiver(board: seq<BoardElement>, dragged: BoardElement): (r: Option<nat>)
    ensures r.Some? ==> r.value < |board| && CanReceive(board[r.value], dragged)
    ensures r.Some? ==> forall j :: 0 <= j < r.value ==> !CanReceive(board[j], dragged)
    ensures r.None? <==> forall j :: 0 <= j < |board| ==> !CanReceive(board[j], dragged)
  {
    if board == [] then None
    else if CanReceive(board[0], dragged) then Some(0)
    else match FirstReceiver(board[1..], dragged)
      case None => None
      case Some(i) => Some(i + 1)
  }

  /** The index of the first element with the instance id. */
  function FindInstance(board: seq<BoardElement>, id: string): (r: Option<nat>)
    ensures r.Some? ==> r.value < |board| && board[r.value].instanceId == id
    ensures r.Some? ==> forall j :: 0 <= j < r.value ==> board[j].instanceId != id
    ensures r.None? <==> forall j :: 0 <= j < |board| ==> board[j].instanceId != id
  {
    if board == [] then None
    else if board[0].instanceId == id then Some(0)
    else match FindInstance(board[1..], id)
      case None => None
      case Some(i) => Some(i + 1)
  }

  /** The board with the dragged element released. */
  function Released(board: seq<BoardElement>, id: string): (r: seq<BoardElement>)
    ensures |r| == |board|
    ensures forall i :: 0 <= i < |board| ==>
      && r[i].instanceId == board[i].instanceId
      && r[i].x == board[i].x && r[i].y == board[i].y && r[i].isLoading == board[i].isLoading
    ensures forall i :: 0 <= i < |board| ==>
      && r[i].isDragging == (board[i].isDragging && board[i].instanceId != id)
      && r[i].(isDragging := board[i].isDragging) == board[i]
  {
    seq(|board|, i requires 0 <= i < |board| =>
      if board[i].instanceId == id then board[i].(isDragging := false) else board[i])
  }

  /**
   * handleMouseUp: the dragged element and the element it is dropped on, if any. The
   * target is never the dragged element nor a loading one, lies within 50 px, and is the
   * first such element on the board.
   */
  function DropTarget(board: seq<BoardElement>, draggingId: string): (r: Option<(BoardElement, BoardElement)>)
    ensures r.Some? ==>
      && r.value.0.instanceId == draggingId
      && r.value.1.instanceId != draggingId && !r.value.1.isLoading
      && Dist2(r.value.1, r.value.0) < 2500
    ensures r.Some? ==> exists t ::
      && 0 <= t < |board| && Released(board, draggingId)[t] == r.value.1
      && forall j :: 0 <= j < t ==> !CanReceive(Released(board, draggingId)[j], r.value.0)
    ensures (forall j :: 0 <= j < |board| ==> board[j].instanceId != draggingId) ==> r.None?
    ensures r.Some? ==> exists d :: FirstWithId(board, draggingId, d) && r.value.0 == Released(board, draggingId)[d]
    ensures forall d, j :: FirstWithId(board, draggingId, d) && 0 <= j < |board| && CanReceive(board[j], board[d]) ==> r.Some?
  {
    var current := Released(board, draggingId);
    match FindInstance(current, draggingId)
    case None => None
    case Some(d) =>
      ReleasedFirstWithId(board, draggingId, d);
      match FirstReceiver(current, current[d])
      case None => None
      case Some(t) => Some((current[d], current[t]))
  }

  /** d is the first position of the board holding the instance id. */
  predicate FirstWithId(board: seq<BoardElement>, id: string, d: int) {
    0 <= d < |board| && board[d].instanceId == id && forall k :: 0 <= k < d ==> board[k].instanceId != id
  }

  /**
   * The first token with the id on the released board sits where it sat before, and it
   * may be received by exactly the tokens that could receive it before.
   */
  lemma ReleasedFirstWithId(board: seq<BoardElement>, id: string, d: nat)
    requires FindInstance(Released(board, id), id) == Some(d)
    ensures FirstWithId(board, id, d)
    ensures forall d' :: FirstWithId(board, id, d') ==> d' == d
    ensures forall j :: 0 <= j < |board| ==>
      CanReceive(Released(board, id)[j], Released(board, id)[d]) == CanReceive(board[j], board[d])
  {
    ReleasedCanReceive(board, id, d);
  }

  /** Releasing changes no token's eligibility to receive a given token. */
  lemma ReleasedCanReceive(board: seq<BoardElement>, id: string, d: nat)
    requires d < |board|
    ensures forall j :: 0 <= j < |board| ==>
      CanReceive(Released(board, id)[j], Released(board, id)[d]) == CanReceive(board[j], board[d])
  {
  }

  /** A custom creation keeps the stored record in step with the session. */
  lemma CustomItemKeepsInSync(s: State, input: string, cost: int, generated: Outcome<Option<ElementData>>,
                              instanceId: string, x: int, y: int)
    requires InSync(s)
    ensures InSync(CreateCustomItemStep(s, input, cost, generated, instanceId, x, y))
  {
  }

  /** The shop purchases keep the stored record in step with the session. */
  lemma PurchasesKeepInSync(s: State, id: ShopItemId, cost: int, pet: PetData)
    requires InSync(s)
    ensures InSync(BuyDecorationStep(s, id, cost)) && InSync(ToggleDecorationStep(s, id))
    ensures InSync(UpgradeComboStep(s, cost)) && InSync(SummonPetStep(s, cost, pet))
  {
  }

  /** A craft keeps the stored record in step with the session, whatever the oracle answers. */
  lemma CraftKeepsInSync(s: State, source: BoardElement, target: BoardElement, result: Option<CraftingResult>)
    requires InSync(s)
    ensures InSync(AttemptCraftStep(s, source, target, result))
  {
    var started := CraftStartStep(s, source, target);
    assert SnapshotOf(started) == SnapshotOf(s);
    if result.None? {
      assert SnapshotOf(AttemptCraftStep(s, source, target, result)) == SnapshotOf(s);
    }
  }

  /** Releasing the dragged element changes no element's eligibility as a drop target. */
  lemma {:induction false} ReleaseKeepsReceiver(board: seq<BoardElement>, id: string, dragged: BoardElement)
    ensures FirstReceiver(Released(board, id), dragged) == FirstReceiver(board, dragged)
  {
    if board != [] {
      var r := Released(board, id);
      assert r[1..] == Released(board[1..], id);
      assert CanReceive(r[0], dragged) == CanReceive(board[0], dragged);
      ReleaseKeepsReceiver(board[1..], id, dragged);
    }
  }

  // ---------------------------------------------------------------------------
  // The component, with its state in fields
  // ---------------------------------------------------------------------------

  /**
   * The App component with its state hooks as fields. Each setter is one `useState`
   * setter; the handlers change the state only through them and through the save effect.
   */
  class Game {
    var gameState: GameState
    var inventory: seq<ElementData>
    var boardElements: seq<BoardElement>
    var score: int
    var visitedRecipes: set<string>
    var baseMultiplier: real
    var language: string
    var topic: string
    var customItemCount: int
    var unlockedItems: set<ShopItemId>
    var activeItems: set<ShopItemId>
    var pets: seq<PetData>
    var maxCombo: int
    var comboMultiplier: int
    var comboTimeLeft: int
    var isRecipeBookOpen: bool
    var storage: StoredSession

    /** The component state held in the fields. */
    function Current(): State
      reads this
    {
      State(gameState, inventory, boardElements, score, visitedRecipes, baseMultiplier, language,
        topic, customItemCount, unlockedItems, activeItems, pets, maxCombo, comboMultiplier,
        comboTimeLeft, isRecipeBookOpen, storage)
    }

    method SetGameState(v: GameState)
      modifies this
      ensures Current() == old(Current()).(gameState := v)
    {
      gameState := v;
    }

    method SetInventory(v: seq<ElementData>)
      modifies this
      ensures Current() == old(Current()).(inventory := v)
    {
      inventory := v;
    }

    method SetBoardElements(v: seq<BoardElement>)
      modifies this
      ensures Current() == old(Current()).(boardElements := v)
    {
      boardElements := v;
    }

    method SetScore(v: int)
      modifies this
      ensures Current() == old(Current()).(score := v)
    {
      score := v;
    }

    method SetVisitedRecipes(v: set<string>)
      modifies this
      ensures Current() == old(Current()).(visitedRecipes := v)
    {
      visitedRecipes := v;
    }

    method SetBaseMultiplier(v: real)
      modifies this
      ensures Current() == old(Current()).(baseMultiplier := v)
    {
      baseMultiplier := v;
    }

    method SetLanguage(v: string)
      modifies this
      ensures Current() == old(Current()).(language := v)
    {
      language := v;
    }

    method SetTopic(v: string)
      modifies this
      ensures Current() == old(Current()).(topic := v)
    {
      topic := v;
    }

    method SetCustomItemCount(v: int)
      modifies this
      ensures Current() == old(Current()).(customItemCount := v)
    {
      customItemCount := v;
    }

    method SetUnlockedItems(v: set<ShopItemId>)
      modifies this
      ensures Current() == old(Current()).(unlockedItems := v)
    {
      unlockedItems := v;
    }

    method SetActiveItems(v: set<ShopItemId>)
      modifies this
      ensures Current() == old(Current()).(activeItems := v)
    {
      activeItems := v;
    }

    method SetPets(v: seq<PetData>)
      modifies this
      ensures Current() == old(Current()).(pets := v)
    {
      pets := v;
    }

    method SetMaxCombo(v: int)
      modifies this
      ensures Current() == old(Current()).(maxCombo := v)
    {
      maxCombo := v;
    }

    method SetComboMultiplier(v: int)
      modifies this
      ensures Current() == old(Current()).(comboMultiplier := v)
    {
      comboMultiplier := v;
    }

    method SetComboTimeLeft(v: int)
      modifies this
      ensures Current() == old(Current()).(comboTimeLeft := v)
    {
      comboTimeLeft := v;
    }

    method SetIsRecipeBookOpen(v: bool)
      modifies this
      ensures Current() == old(Current()).(isRecipeBookOpen := v)
    {
      isRecipeBookOpen := v;
    }

    /** The save effect: rewrites the stored record while playing with a non-empty inventory. */
    method Persist()
      modifies this
      ensures Current() == Saved(old(Current()))
    {
      storage := SavedStorage(Current());
    }

    /** The first render: initial state, load effect, save effect. */
    constructor Mount(stored: StoredSession)
      ensures Current() == Initial(stored)
    {
      gameState, inventory, boardElements, score := Setup, [], [], 0;
      visitedRecipes, baseMultiplier, language, topic := {}, 1.0, "English", "";
      customItemCount, unlockedItems, activeItems := 0, {}, {};
      pets, maxCombo, comboMultiplier, comboTimeLeft := [], StartMaxCombo, 1, 0;
      isRecipeBookOpen, storage := false, stored;
      var loaded := Load(stored);
      if loaded.Some? {
        var d := loaded.value;
        inventory, score, visitedRecipes, baseMultiplier := d.inventory, d.score, d.visitedRecipes, d.baseMultiplier;
        language, topic, customItemCount := d.language, d.topic, d.customItemCount;
        unlockedItems, activeItems, pets, maxCombo := d.unlockedItems, d.activeItems, d.pets, d.maxCombo;
        gameState := Playing;
        storage := Parsed(SaveOf(d));
      }
    }

    /** handleSetupComplete. */
    method SetupComplete(elements: seq<ElementData>, detectedLanguage: string, inputTopic: string)
      modifies this
      ensures Current() == SetupCompleteStep(old(Current()), elements, detectedLanguage, inputTopic)
    {
      SetInventory(elements);
      SetLanguage(detectedLanguage);
      SetTopic(inputTopic);
      SetGameState(Playing);
      Persist();
    }

    /** addToBoard; instanceId and the position are the random choices of the source. */
    method AddToBoard(d: ElementData, instanceId: string, x: int, y: int)
      modifies this
      ensures Current() == AddToBoardStep(old(Current()), d, instanceId, x, y)
    {
      SetBoardElements(boardElements + [NewBoardElement(d, instanceId, x, y)]);
    }

    method ClearBoard()
      modifies this
      ensures Current() == ClearBoardStep(old(Current()))
    {
      SetBoardElements([]);
    }

    method ResetGame()
      modifies this
      ensures Current() == ResetGameStep(old(Current()))
    {
      SetBoardElements([]);
      SetInventory([]);
      SetTopic("");
      SetCustomItemCount(0);
      SetPets([]);
      SetMaxCombo(StartMaxCombo);
      SetGameState(Setup);
    }

    /** handleCreateCustomItem, given how the awaited generateSingleElement ended. */
    method CreateCustomItem(input: string, cost: int, generated: Outcome<Option<ElementData>>,
                            instanceId: string, x: int, y: int)
      modifies this
      ensures Current() == CreateCustomItemStep(old(Current()), input, cost, generated, instanceId, x, y)
    {
      if Blank(input) || !(score >= cost) {
        return;
      }
      FinishCustomItem(cost, generated, instanceId, x, y);
    }

    /** The part of handleCreateCustomItem after the await. */
    method FinishCustomItem(cost: int, generated: Outcome<Option<ElementData>>, instanceId: string, x: int, y: int)
      modifies this
      ensures Current() == CustomOutcomeStep(old(Current()).(score := old(score) - cost), cost, generated, instanceId, x, y)
    {
      SetScore(score - cost);
      match generated {
        case Thrown(_) =>
          SetScore(score + cost);
        case Returned(None) =>
        case Returned(Some(e)) =>
          AddCustomElement(e, instanceId, x, y);
      }
      Persist();
    }

    /** The created element joins the inventory (unless present up to case) and the board. */
    method AddCustomElement(e: ElementData, instanceId: string, x: int, y: int)
      modifies this
      ensures Current() == old(Current()).(inventory := AddIfNewIgnoringCase(old(inventory), e),
                                           boardElements := old(boardElements) + [NewBoardElement(e, instanceId, x, y)],
                                           customItemCount := old(customItemCount) + 1)
    {
      SetInventory(AddIfNewIgnoringCase(inventory, e));
      AddToBoard(e, instanceId, x, y);
      SetCustomItemCount(customItemCount + 1);
    }

    /** handleBuyDecoration: buys and equips the decoration. */
    method BuyDecoration(id: ShopItemId, cost: int)
      modifies this
      ensures Current() == BuyDecorationStep(old(Current()), id, cost)
    {
      if score >= cost && id !in unlockedItems {
        SetScore(score - cost);
        SetUnlockedItems(unlockedItems + {id});
        SetActiveItems(activeItems + {id});
        Persist();
      }
    }

    method ToggleDecoration(id: ShopItemId)
      modifies this
      ensures Current() == ToggleDecorationStep(old(Current()), id)
    {
      SetActiveItems(if id in activeItems then activeItems - {id} else activeItems + {id});
      Persist();
    }

    method UpgradeCombo(cost: int)
      modifies this
      ensures Current() == UpgradeComboStep(old(Current()), cost)
    {
      if score >= cost {
        SetScore(score - cost);
        SetMaxCombo(maxCombo + 1);
        Persist();
      }
    }

    /** handleSummonPet, given the pet the awaited service call produced. */
    method SummonPet(cost: int, newPet: PetData)
      modifies this
      ensures Current() == SummonPetStep(old(Current()), cost, newPet)
    {
      if score >= cost {
        SetScore(score - cost);
        SetPets(pets + [newPet]);
        Persist();
      }
    }

    /** The synchronous part of attemptCraft. */
    method StartCraft(source: BoardElement, target: BoardElement)
      modifies this
      ensures Current() == CraftStartStep(old(Current()), source, target)
    {
      SetBoardElements(MarkCrafting(RemoveInstance(boardElements, source.instanceId), target.instanceId));
    }

    /** The rest of attemptCraft, once combineElements has answered. */
    method FinishCraft(source: BoardElement, target: BoardElement, result: Option<CraftingResult>)
      modifies this
      ensures Current() == CraftFinishStep(old(Current()), source, target, result)
    {
      match result {
        case Some(c) =>
          var d := CraftedElement(c, source.text, target.text);
          var isNewElement := !HasText(inventory, d.text);
          var oldInventory := inventory;
          ScoreCraft(RecipeKey(source.text, target.text), isNewElement);
          SetInventory(AddIfNew(oldInventory, d));
          SetBoardElements(ApplyCraft(boardElements, target.instanceId, d));
          Persist();
        case None =>
          SetBoardElements(RestoreTarget(boardElements, target.instanceId, target.text, target.emoji));
      }
    }

    /** The scoring of a successful craft: only a recipe not seen before scores. */
    method ScoreCraft(recipeKey: string, isNewElement: bool)
      modifies this
      ensures Current() == Award(old(Current()), recipeKey, isNewElement)
    {
      var isFirstTimeRecipe := recipeKey !in visitedRecipes;
      if isFirstTimeRecipe {
        var finalPoints := CraftPoints(isNewElement, baseMultiplier, comboMultiplier, maxCombo);
        SetVisitedRecipes(visitedRecipes + {recipeKey});
        SetBaseMultiplier(baseMultiplier * 1.1);
        SetComboMultiplier(Min(maxCombo, comboMultiplier + 1));
        SetComboTimeLeft(MaxComboTime);
        SetScore(score + finalPoints);
      }
    }

    /**
     * attemptCraft: the source leaves the board, combineElements answers through the
     * cache (attempt(j) is the outcome of the j-th service call), then the result is applied.
     */
    method AttemptCraft(source: BoardElement, target: BoardElement, cache: CombinationCache,
                        attempt: nat -> CallOutcome<Option<string>>)
      returns (result: Option<CraftingResult>)
      requires cache.Valid()
      modifies this, cache
      ensures cache.Valid()
      ensures result == CombineResult(old(cache.entries), CacheKey(source.text, target.text, old(language)), attempt)
      ensures var key := CacheKey(source.text, target.text, old(language));
        if key in old(cache.Cache()) || result.None? then
          cache.entries == old(cache.entries) && cache.stored == old(cache.stored)
        else
          cache.entries == old(cache.entries) + [(key, result.value)] && cache.stored == Entries(cache.entries)
      ensures Current() == AttemptCraftStep(old(Current()), source, target, result)
    {
      StartCraft(source, target);
      var delays, calls;
      result, delays, calls := cache.CombineElements(source.text, target.text, language, attempt);
      FinishCraft(source, target, result);
    }

    /** One firing of the combo effect or of its 100 ms interval. */
    method Tick()
      modifies this
      ensures Current() == TickStep(old(Current()))
    {
      if isRecipeBookOpen {
        return;
      }
      if comboTimeLeft <= 0 {
        if comboMultiplier > 1 {
          SetComboMultiplier(1);
        }
        return;
      }
      SetComboTimeLeft(if comboTimeLeft - 1 < 0 then 0 else comboTimeLeft - 1);
    }

    method OpenRecipeBook()
      modifies this
      ensures Current() == old(Current()).(isRecipeBookOpen := true)
    {
      SetIsRecipeBookOpen(true);
    }

    method CloseRecipeBook()
      modifies this
      ensures Current() == old(Current()).(isRecipeBookOpen := false)
    {
      SetIsRecipeBookOpen(false);
    }
  }
}
