# Infinite Knowledge Craft: the crafting economy in Dafny

Infinite Knowledge Craft is a browser game. The player drags concept tokens onto each
other on a crafting board. A generative service says what the two concepts combine into.
First-time recipes earn points, boosted by a growing base multiplier and a time-limited
combo. Points buy custom concepts, decorations, combo-limit upgrades and companion pets.

This project models the game's core and proves properties of it:

- `app.dfy` (module `App`) models the App component's state and handlers.
  - `State` holds the seventeen pieces of component state: the React state and the stored session record.
  - Each handler is a step function on `State`: `AttemptCraftStep`, `TickStep`, `BuyDecorationStep` and so on.
  - The class `Game` holds the same state in fields and performs each handler in place, through one setter method per `useState` setter. Each method is proved to reach the state its step function gives.
  - The lemmas prove what the handlers promise. A pair scores once. The combo stays within its bounds. Purchases debit exactly their price and raise the next price. The stored record stays in step with the session. The drop target is never the dragged or a loading token.
- `economy.dfy` models the four price formulas with exact reals, and proves each grows strictly.
- `save_data.dfy` models the saved session record and loading it back with the `||` defaults.
- `oracle.dfy` models the generative-service client:
  - the retry loop with exponential backoff, as a method with a `while` loop;
  - the reply parsers and their fallbacks;
  - concept extraction;
  - the persistent combination cache, as a class `CombinationCache`.
- `recipe_book.dfy` models the recipe-book lineage tree and the pan/zoom transform.
- `sidebar.dfy` models the library search and sort.
- `shop.dfy` models the shop catalogue, its tabs and its buttons.
- `text.dfy` models the JavaScript string operations used:
  - `trim`, `split` and `toLowerCase`;
  - `includes` and `startsWith`;
  - the default sort order;
  - the sorted-pair key;
  - the id derivation `toLowerCase().replace(/\s/g, '-')`.
- `types.dfy` and `wrappers.dfy` hold the records of `types.ts` and an `Option` type.

The service is not called. Every service call is an input instead:

- `CombineElements` and `CallWithRetry` take `attempt(j)`, the outcome of the j-th call: `Ok(reply)`, `Quota` or `Other`.
- Custom creation takes how the awaited `generateSingleElement` ended. `GeneratedCustom` shows that the real service always yields an element.
- A summon takes the pet that `generatePetFromContext` produced. `GeneratePet` models that function.

Browser storage becomes a value: `StoredSession` for the game's record, `StoredCache` for the cache. JSON encoding is abstracted: a record is written and read back as a value.

Other modelling choices:

- Positions are whole pixels.
- The drop distance test `Math.hypot(dx, dy) < 50` is `dx² + dy² < 2500`.
- The combo timer counts tenths of a second, so `MAX_COMBO_TIME` (10 s) is 100.
- Prices and multipliers are exact reals, and `Math.round(x)` is `Floor(x + 1/2)`.

What the code does, where it may surprise a reader (the model follows the code):

- **Retry waits.** The retry loop waits only twice, 1000 ms then 2000 ms, before the third quota error is rethrown. The comment at `services/geminiService.ts:62` promises 1 s, 2 s, 4 s. See `Oracle.DefaultBackoff`.
- **Combination errors.** `combineElements` swallows every error, exhausted retries included, and returns null. See `Oracle.CombineResult`.
- **Null crafts.** A null craft leaves the source token off the board. Only the target is restored. See `App.CraftBoardNull`.
- **Recipe key and cache key.** The recipe key omits the language; the cache key includes it. A recipe scored in one language is therefore not scored again in another. See `App.CraftScoresOnce` and `Oracle.CacheKeyProperties`.
- **Combo after a reset.** `resetGame` sets the combo limit back to 10 but does not lower the combo multiplier. The multiplier can then exceed the limit until the timer runs out. `App.ResetBreaksComboCap` exhibits such a state. So `ComboWithinCap` is proved preserved by crafts, ticks and upgrades, but not by a reset.
- **Reset and the inventory.** `resetGame` empties the inventory, and it does not rewrite the stored record, because the game is then in setup.
- **Duplicate tests.** Crafting compares inventory texts case-sensitively (`AddIfNew`). Custom creation ignores case (`AddIfNewIgnoringCase`).
- **A custom creation that throws.** The cost is refunded. Both score changes reach the save effect, so the record is still rewritten (`CustomItemOutcomes`). The null and throw branches of the handler cannot happen with the real `generateSingleElement`, which never fails (`GeneratedCustom`).

## Model

| member | source | states |
|---|---|---|
| Economy.Pow | App.tsx:98-110 | `Math.pow` with a natural exponent is at least 1 for a rate of at least 1 |
| Economy.Power | App.tsx:106-107 | `Math.pow` with an integer exponent is positive and agrees with `Pow` on natural exponents |
| Economy.Price | App.tsx:98-110 | `Math.floor(base * Math.pow(rate, level))` is non-negative and at least `base` from level 0 on |
| Economy.PriceStep | App.tsx:98-110 | one more level raises a price by at least one point when base·(rate−1) ≥ 1 |
| Economy.PriceIncreasing | App.tsx:98-110 | a price is strictly increasing in its level |
| Economy.PricesStrictlyIncreasing | App.tsx:98-110 | the custom-item, decoration, combo-upgrade and pet prices each grow strictly with their counter |
| Economy.PriceExamples | App.tsx:98-110 | opening prices 1000, 2000, 5000, 5000; custom price 3375 after three creations; 3600, 7500, 7000 one level on; the exact pet price 9800 at two pets, where the program floors a double just below it to 9799 |
| SaveData.SaveOf | App.tsx:139-156 | the save record holds each of the eleven persisted fields |
| SaveData.IntOr | App.tsx:121-130 | the or-default on a number: a missing or zero value reads as the default, any other is kept |
| SaveData.RealOr | App.tsx:123 | the or-default on the multiplier: a missing or zero value reads as the default |
| SaveData.StringOr | App.tsx:124-125 | the or-default on a string: a missing or empty value reads as the default |
| SaveData.Load | App.tsx:114-137 | a record is restored exactly when it parses and has a non-empty inventory; the inventory is kept and the language is never empty |
| SaveData.SaveLoadRoundTrip | App.tsx:114-156 | loading what save wrote restores the session, up to the or-defaults on falsy values |
| SaveData.SaveLoadExact | App.tsx:114-156 | a session with multiplier ≥ 1, a language and combo limit ≥ 10 is restored exactly |
| SaveData.FreshSession | App.tsx:115-136 | no record, a corrupt record, or a record without inventory leaves the game in setup |
| SaveData.DefaultsOnLoad | App.tsx:120-130 | a record holding only an inventory loads with score 0, multiplier 1, English, no topic, no items, no pets, combo limit 10 |
| Text.Lower | components/Sidebar.tsx:18 | `toLowerCase` keeps the length and lowers each character |
| Text.ContainsIff | components/Sidebar.tsx:18 | `includes` holds exactly when the substring occurs at some position |
| Text.ContainsEmpty | components/Sidebar.tsx:18 | every string includes the empty string |
| Text.Trim | services/geminiService.ts:154 | `trim` gives the infix of the input that only whitespace precedes and follows, with no whitespace at either of its ends, empty exactly when the input is all whitespace |
| Text.BlankIffTrimEmpty | App.tsx:289 | `!s.trim()` holds exactly when every character is whitespace |
| Text.Split | services/geminiService.ts:215 | `split` gives at least one piece, none holding the separator, which joined by the separator give the input back; the whole string when the separator is absent |
| Text.Field | services/geminiService.ts:215 | a destructured field is its trimmed piece, or "" when the piece is missing |
| Text.FirstPictographic | services/geminiService.ts:218 | the regular-expression match finds the first pictographic character, and none exactly when there is none |
| Text.LexLeTotal | components/Sidebar.tsx:23 | any two strings are ordered one way or the other |
| Text.LexLeAntisymmetric | components/Sidebar.tsx:23 | two strings ordered both ways are equal |
| Text.LexLeTransitive | components/Sidebar.tsx:23 | the string order is transitive |
| Text.PairKey | App.tsx:444 | the sorted pair joined by a bar: the smaller text under the string order, a bar, then the other |
| Text.PairKeySymmetric | App.tsx:444 | the pair key does not depend on the order of the two texts |
| Text.IdOf | services/geminiService.ts:120 | the id has the text's length, lowers each letter, turns whitespace into `-` and holds no whitespace |
| Sidebar.FilterInventory | components/Sidebar.tsx:17-19 | an item is shown exactly when it is in the inventory and matches the search, case-insensitively |
| Sidebar.FilterSingle | components/Sidebar.tsx:17-19 | one item is kept exactly when it matches |
| Sidebar.FilterAppend | components/Sidebar.tsx:17-19 | the filter of a concatenation is the concatenation of the filters, so discovery order is kept |
| Sidebar.EmptySearch | components/Sidebar.tsx:17-19 | an empty search shows the whole inventory |
| Sidebar.Insert | components/Sidebar.tsx:23 | inserting adds exactly one copy of the item |
| Sidebar.HeadIsLeast | components/Sidebar.tsx:23 | the first item of a sorted list is at or below every item |
| Sidebar.InsertSorted | components/Sidebar.tsx:23 | inserting into a sorted list keeps it sorted |
| Sidebar.SortByText | components/Sidebar.tsx:22-23 | the sort result is sorted by text and a permutation of its input |
| Sidebar.InsertWithText | components/Sidebar.tsx:22-23 | an inserted item comes before every item of equal text, and the other items of that text keep their order |
| Sidebar.SortByTextStable | components/Sidebar.tsx:22-23 | the sort is stable: the items of each text keep their relative order, as `Array.prototype.sort` guarantees |
| Sidebar.ToggleSortMode | components/Sidebar.tsx:37 | the sort button switches time to alphabetical and back |
| Sidebar.ToggleSortModeTwice | components/Sidebar.tsx:37 | pressing the sort button twice restores the mode |
| Sidebar.FilteredInventory | components/Sidebar.tsx:15-28 | time mode shows the matching items in discovery order; alphabetical mode shows a sorted permutation of them; either way exactly the matching items |
| Shop.ItemsOnTab | components/ShopModal.tsx:46 | an entry is on a tab exactly when it is in the catalogue and its category is the tab |
| Shop.CatalogueIds | components/ShopModal.tsx:27-37 | the catalogue has six entries with distinct ids covering every shop id |
| Shop.ItemsOnTabAll | components/ShopModal.tsx:46 | filtering keeps a list whose entries all belong to the tab |
| Shop.ItemsOnTabNone | components/ShopModal.tsx:46 | filtering drops a list none of whose entries belongs to the tab |
| Shop.ItemsOnTabAppend | components/ShopModal.tsx:46 | filtering a concatenation filters each part, keeping catalogue order |
| Shop.CatalogueCategories | components/ShopModal.tsx:27-37 | the first four entries are backgrounds, the last two upgrades |
| Shop.ItemsOnTabPrefix | components/ShopModal.tsx:46 | a list with its first k entries on the tab and the rest off filters to its first k |
| Shop.ItemsOnTabSuffix | components/ShopModal.tsx:46 | a list with its first k entries off the tab and the rest on filters to the rest |
| Shop.BackgroundTab | components/ShopModal.tsx:27-46 | the background tab lists the four backgrounds in catalogue order |
| Shop.UpgradeTab | components/ShopModal.tsx:27-46 | the effects tab lists the two upgrades in catalogue order |
| Shop.GameplayTab | components/ShopModal.tsx:44-46 | the gameplay tab lists no catalogue entry |
| Shop.ItemButtonFor | components/ShopModal.tsx:160-215 | a card shows Buy exactly for items not owned, enabled exactly when the score covers the price; owned items show Disable exactly when active |
| RecipeBook.InventoryMap | components/RecipeBook.tsx:27-29 | the map's keys are the inventory texts and each maps to an inventory item with that text |
| RecipeBook.InventoryMapLastWins | components/RecipeBook.tsx:27-29 | for duplicate texts the later inventory entry wins |
| RecipeBook.Present | components/RecipeBook.tsx:48-49 | a found parent becomes one child, a missing one none |
| RecipeBook.BuildTree | components/RecipeBook.tsx:32-52 | the tree is null exactly when the name is not in the map; its root shows that entry and has at most two children |
| RecipeBook.TreeData | components/RecipeBook.tsx:54-57 | no selection gives no tree; a selected item has a tree exactly when its text is in the inventory, rooted at that text |
| RecipeBook.BuildTreeHeight | components/RecipeBook.tsx:35-36 | even on cyclic parent links the tree from depth d is at most 13 − d edges deep |
| RecipeBook.TreeDataHeight | components/RecipeBook.tsx:35-57 | the tree of a selected item is at most 13 edges deep |
| RecipeBook.ChildrenAreParents | components/RecipeBook.tsx:45-50 | children are the parents found in the inventory, in the order parent[0], parent[1]; parentless items and nodes past depth 12 are leaves |
| RecipeBook.BuildTreeNodesFrom | components/RecipeBook.tsx:37-50 | every node's name, emoji and id are those of the map entry under its name |
| RecipeBook.PresentNodesFrom | components/RecipeBook.tsx:45-50 | children built from two subtrees of map entries are map entries |
| RecipeBook.BuildTreeFromInventory | components/RecipeBook.tsx:27-57 | every node of a tree over the inventory shows an inventory item |
| RecipeBook.ClampScale | components/RecipeBook.tsx:80 | `Math.min(Math.max(0.2, s), 3)` lies in [0.2, 3], is s inside it, and the nearer bound outside it |
| RecipeBook.HandleWheel | components/RecipeBook.tsx:74-93 | the wheel keeps the offset, keeps the scale in [0.2, 3] and moves it by −deltaY·0.001 when that stays in range |
| RecipeBook.AdjustZoom | components/RecipeBook.tsx:117-119 | the zoom buttons keep the offset and the scale in [0.2, 3], and move it by delta when that stays in range |
| RecipeBook.ResetView | components/RecipeBook.tsx:121-129 | with the container mounted the view is centred, 100 px down at scale 1; otherwise it is unchanged |
| RecipeBook.ZoomMonotone | components/RecipeBook.tsx:117-119 | zooming in never lowers a valid scale, zooming out never raises it, and a zero step changes nothing |
| Oracle.Pow2 | services/geminiService.ts:62 | `Math.pow(2, i)` is at least 1 |
| Oracle.CallWithRetry | services/geminiService.ts:44-71 | the counted loop with `continue` computes exactly the outcome, the delays and the call count of the retry run |
| Oracle.RetryFromShape | services/geminiService.ts:49-69 | from attempt i on: 1 to retries − i calls; every call but the last failed on quota and was followed by baseDelay·2^j; the last call decides the outcome |
| Oracle.RetryContract | services/geminiService.ts:44-71 | at most `retries` calls; the first success is returned; a non-quota error ends the loop; with no attempts allowed it throws "Max retries exceeded" |
| Oracle.DefaultBackoff | services/geminiService.ts:44-71 | with the defaults, three quota failures wait 1000 ms then 2000 ms and rethrow |
| Oracle.CacheKey | services/geminiService.ts:180 | the cache key ends with a bar and the language, is two longer than its three texts, and before that is the pair key in either order of the items |
| Oracle.CacheKeyProperties | services/geminiService.ts:180 | the cache key is order-independent, and different languages give different keys |
| Oracle.ColorOr | services/geminiService.ts:227-228 | a colour starts with `#` and is either the field or the default |
| Oracle.NameAndEmoji | services/geminiService.ts:217-225 | the emoji is never empty, and a present emoji field is kept along with the name |
| Oracle.StripQuotes | services/geminiService.ts:230 | one optional leading and one optional trailing quote go, each exactly when present, and nothing else |
| Oracle.StripTrailingDot | services/geminiService.ts:230 | one trailing dot goes exactly when present, and nothing else |
| Oracle.ParseCombinationNull | services/geminiService.ts:208-232 | a reply gives null exactly when it is empty, holds "NULL", holds "nothing" in any case, or leaves an empty name |
| Oracle.ParsedCombinationShape | services/geminiService.ts:215-239 | a parsed result has a non-empty name and emoji, exactly two colours starting with `#`, is not new, and came from a reply holding no "NULL" |
| Oracle.ParsedFieldsKept | services/geminiService.ts:215-239 | a present emoji field is kept; each colour field is kept when it starts with `#`, else it is #60A5FA or #A78BFA |
| Oracle.MapOf | services/geminiService.ts:19 | the map of the entries has exactly their keys |
| Oracle.IndexOfKey | services/geminiService.ts:241 | the lookup finds the position of a key, and nothing exactly when the key is absent |
| Oracle.MapSet | services/geminiService.ts:241 | `Map.set` keeps the keys distinct and adds the key; a new key goes last, an existing key has its entry replaced where it stands and every other entry stays |
| Oracle.MapSetValues | services/geminiService.ts:241 | after `Map.set` the key maps to the new value and every other key keeps its value |
| Oracle.MapOfUnique | services/geminiService.ts:13-25 | with distinct keys, the map sends each entry's key to that entry's value |
| Oracle.FromPairs | services/geminiService.ts:19 | `new Map(pairs)` has distinct keys |
| Oracle.LoadEntries | services/geminiService.ts:13-26 | the loaded cache has distinct keys, and anything but an array of pairs gives an empty cache |
| Oracle.FromPairsUnique | services/geminiService.ts:19 | pairs with distinct keys are read back as written |
| Oracle.CacheRoundTrip | services/geminiService.ts:13-39 | loading what saveCache wrote yields the same entries, hence the same key-to-result map |
| Oracle.AppendFreshKey | services/geminiService.ts:241 | a new key goes last and keeps the keys distinct |
| Oracle.CombineResult | services/geminiService.ts:179-250 | a cached key answers with the stored value; a miss whose retry run returns a reply answers the parsed reply; a miss whose retry run throws answers null |
| Oracle.QuotaExhaustedMiss | services/geminiService.ts:179-250 | a miss whose every call fails on quota answers null after waiting 1000 ms and 2000 ms |
| Oracle.CombinationCache.Load | services/geminiService.ts:13-28 | the cache starts as the entries loaded from the slot |
| Oracle.CombinationCache.SaveCache | services/geminiService.ts:30-39 | the slot receives the entries in order |
| Oracle.CombinationCache.CombineElements | services/geminiService.ts:179-250 | a hit makes no service call, waits for nothing and changes nothing; a miss makes the calls and waits of the retry run and answers the parsed reply; only a non-null result is appended under its key and persisted |
| Oracle.CachedEntryAnswers | services/geminiService.ts:182-184 | a stored result answers its key afterwards, and the other entries keep theirs |
| Oracle.SingleEmoji | services/geminiService.ts:154-158 | the emoji of a custom concept is never empty |
| Oracle.GenerateSingleElement | services/geminiService.ts:136-174 | generateSingleElement never fails: the concept keeps the text, takes its id and has no parents |
| Oracle.SingleEmojiCases | services/geminiService.ts:154-172 | a sparkle on error or an empty reply, else the first pictographic character of the trimmed reply, else the whole reply |
| Oracle.Inspiration | services/geminiService.ts:287 | at most five concepts inspire a pet, all from the context; five or all of them |
| Oracle.PetFromText | services/geminiService.ts:310-320 | a pet has a name, emoji and description, and a colour starting with `#` |
| Oracle.GeneratePet | services/geminiService.ts:285-331 | generatePetFromContext never fails: the id and clock are kept, every field is set, and an error gives the Void Mite |
| Oracle.PetFieldsKept | services/geminiService.ts:311-318 | present fields are kept; the colour is kept exactly when it starts with `#` |
| Oracle.ExtractConcepts | services/geminiService.ts:104-131 | a failure propagates; otherwise concepts map one to one and in order with derived ids, and the language defaults to English |
| App.Round | App.tsx:472 | `Math.round(x)` is within one half of x |
| App.SavedStorage | App.tsx:139-156 | the save effect writes the record exactly while playing with a non-empty inventory, and otherwise leaves the storage |
| App.ReloadRestores | App.tsx:114-156 | after the save effect, reloading restores the eleven persisted fields |
| App.Initial | App.tsx:39-74 | the first render starts with an empty board, combo 1 and a stopped timer; an unusable record leaves setup; a usable one restores its snapshot and is written back |
| App.RemoveInstance | App.tsx:446 | the filter keeps exactly the tokens of other instances |
| App.RemoveInstanceAppend | App.tsx:446 | the filter distributes over concatenation and keeps a single token exactly when it is another instance, so the kept tokens stay in board order |
| App.AddIfNew | App.tsx:494-497 | the crafted element is in the inventory afterwards, appended exactly when no item has its text |
| App.AddIfNewIgnoringCase | App.tsx:300-303 | the created element is in the inventory afterwards up to case, appended exactly when no item has its text up to case |
| App.AddIfNewIdempotent | App.tsx:300-303 | adding twice adds once, with either comparison |
| App.SetupCompleteStep | App.tsx:250-255 | setup completion plays with the given inventory, language and topic, and keeps the bounds |
| App.AddToBoardStep | App.tsx:257-266 | the token is appended to the board and nothing else changes |
| App.ClearBoardStep | App.tsx:268 | the board empties and nothing else changes |
| App.ResetGameStep | App.tsx:270-278 | resetGame keeps the bounds |
| App.ResetGameKeeps | App.tsx:270-278 | resetGame clears board, inventory, topic, creations and pets and sets the combo limit to 10; score, recipes, multiplier, cosmetics and the stored record stay |
| App.ResetBreaksComboCap | App.tsx:270-278 | a state within the combo cap whose reset leaves the combo above the new limit |
| App.SessionStepsKeepInSync | App.tsx:139-156 | mounting, setup, board changes, reset and ticks keep the stored record that of the session |
| App.CreateCustomItemStep | App.tsx:287-316 | custom creation keeps the bounds |
| App.CustomOutcomeStep | App.tsx:295-315 | the step after the awaited generation keeps the bounds once the charge is covered |
| App.CustomItemRejected | App.tsx:289 | a blank name or a short score leaves the state unchanged |
| App.CustomItemOutcomes | App.tsx:295-315 | a throw refunds the cost; nothing keeps it deducted; an element costs exactly the price, is counted, goes on the board, and joins the inventory unless already there up to case |
| App.CustomPriceRises | App.tsx:98 | each custom item created raises the price of the next |
| App.GeneratedCustom | App.tsx:297 | with the modelled service the creation always yields an element with the entered name |
| App.BuyDecorationStep | App.tsx:318-327 | a decoration purchase keeps the bounds |
| App.BuyDecorationEffect | App.tsx:318-327 | a short score or an owned item is a no-op; otherwise exactly the price is debited, the item is owned and equipped, nothing else changes, and the next decoration costs more |
| App.Toggled | App.tsx:329-336 | toggling flips the item's membership and leaves every other item's |
| App.ToggleDecorationStep | App.tsx:329-336 | only the active set changes, by the toggle |
| App.ToggleTwice | App.tsx:329-336 | toggling twice restores the state |
| App.UpgradeComboStep | App.tsx:338-346 | the upgrade keeps the bounds and the combo cap |
| App.UpgradeComboEffect | App.tsx:338-346 | a short score is a no-op; otherwise exactly the price is debited, the limit grows by one, nothing else changes, and the next upgrade costs more |
| App.SummonContext | App.tsx:353-355 | the pet context is the board texts, or the last five inventory texts when the board is empty |
| App.SummonPetStep | App.tsx:348-370 | a summon keeps the bounds |
| App.SummonPetEffect | App.tsx:348-370 | a short score is a no-op; otherwise exactly the price is debited, the pet is appended, nothing else changes, and the next pet costs more |
| App.ShopGatingMatchesHandlers | components/ShopModal.tsx:107-134 | the upgrade button is enabled exactly when the upgrade goes through; the summon button exactly when no summon runs and the summon goes through |
| App.CraftedElement | App.tsx:453-458 | the crafted element has the result's text and emoji, the derived id, and the two ingredient texts as parents |
| App.CraftFinishStep | App.tsx:452-513 | the rest of a craft keeps the bounds and the combo cap |
| App.AttemptCraftStep | App.tsx:443-514 | a craft keeps score, multiplier, combo and timer within their bounds and the combo within its cap |
| App.CraftPointsBounds | App.tsx:465-472 | a first-time award is at least 11 points, and 220 for a new element at multiplier 1 and combo 1 |
| App.FirstCraftAward | App.tsx:460-473 | a first-time craft records the recipe, multiplies by 1.1, raises the combo up to the limit, restarts the timer, and adds the rounded points of 100 or 10 |
| App.FirstCraftExample | App.tsx:460-473 | the opening craft of a fresh session that discovers a new element scores 220 |
| App.CraftScoresOnce | App.tsx:444-492 | a recipe key is recorded in both orders, and crafting the pair again leaves score, multiplier, combo, timer and recipes unchanged |
| App.NullCraftKeeps | App.tsx:505-512 | a null craft changes nothing but the board |
| App.CraftInventory | App.tsx:494-497 | the inventory gains the result exactly when no item has the same text, case-sensitively |
| App.CraftBoardSuccess | App.tsx:446-504 | the source is gone; every token keeps its place, instance and position; the target takes the result's id, text, emoji and parents and stops loading |
| App.CraftBoardNull | App.tsx:446-448 | after a null craft the source stays removed and the target gets back its text and emoji and stops loading |
| App.TickStep | App.tsx:160-170 | a tick keeps the bounds and the combo cap |
| App.TickEffect | App.tsx:160-170 | a tick changes only combo and timer; the timer drops by a tenth while positive; the combo only falls back to 1, with the timer at 0 and the book closed |
| App.ComboExpires | App.tsx:160-170 | with the book closed the combo is back at 1 after timer + 1 ticks, with score and limit unchanged |
| App.TicksPausedByRecipeBook | App.tsx:161 | while the recipe book is open the timer does not run |
| App.FirstReceiver | App.tsx:423-427 | `find` gives the first token that may receive the dragged one, and none exactly when there is none |
| App.FindInstance | App.tsx:420 | `find` gives the first token of the instance, and none exactly when there is none |
| App.Released | App.tsx:416-419 | releasing clears `isDragging` on the tokens with the dragged id and changes nothing else |
| App.DropTarget | App.tsx:411-427 | the dragged token is the released first token with the id; the target is never the dragged or a loading token, lies within 50 px, and is the first such token; a target is found whenever some token can receive the dragged one; a dragged id not on the board gives none |
| App.ReleasedFirstWithId | App.tsx:416-421 | the first token with the id sits where it sat before releasing, and releasing changes no token's eligibility to receive it |
| App.CustomItemKeepsInSync | App.tsx:139-156 | a custom creation keeps the stored record that of the session |
| App.PurchasesKeepInSync | App.tsx:139-156 | the shop purchases keep the stored record that of the session |
| App.CraftKeepsInSync | App.tsx:139-156 | a craft keeps the stored record that of the session, whatever the service answers |
| App.ReleaseKeepsReceiver | App.tsx:416-427 | releasing the dragged token changes no token's eligibility as a drop target |
| App.Game.Persist | App.tsx:139-156 | the save effect leaves the state as `Saved` gives it |
| App.Game.Mount | App.tsx:39-137 | the first render reaches `Initial` of the stored record |
| App.Game.SetupComplete | App.tsx:250-255 | handleSetupComplete reaches `SetupCompleteStep` |
| App.Game.AddToBoard | App.tsx:257-266 | addToBoard reaches `AddToBoardStep` |
| App.Game.ClearBoard | App.tsx:268 | clearBoard reaches `ClearBoardStep` |
| App.Game.ResetGame | App.tsx:270-278 | resetGame reaches `ResetGameStep` |
| App.Game.CreateCustomItem | App.tsx:287-316 | handleCreateCustomItem reaches `CreateCustomItemStep` |
| App.Game.FinishCustomItem | App.tsx:295-315 | the part after the guard reaches `CustomOutcomeStep` of the charged state |
| App.Game.AddCustomElement | App.tsx:299-305 | the element joins the inventory unless present up to case, goes on the board, and is counted |
| App.Game.BuyDecoration | App.tsx:318-327 | handleBuyDecoration reaches `BuyDecorationStep` |
| App.Game.ToggleDecoration | App.tsx:329-336 | handleToggleDecoration reaches `ToggleDecorationStep` |
| App.Game.UpgradeCombo | App.tsx:338-346 | handleUpgradeCombo reaches `UpgradeComboStep` |
| App.Game.SummonPet | App.tsx:348-370 | handleSummonPet reaches `SummonPetStep` |
| App.Game.StartCraft | App.tsx:446-448 | the synchronous part of attemptCraft reaches `CraftStartStep` |
| App.Game.FinishCraft | App.tsx:452-513 | the rest of attemptCraft reaches `CraftFinishStep` |
| App.Game.ScoreCraft | App.tsx:460-473 | the scoring reaches `Award`: only a recipe not seen before scores |
| App.Game.AttemptCraft | App.tsx:443-514 | attemptCraft answers what `combineElements` answers for the pair and language, keeps the cache valid, leaves the cache and its slot as they were on a hit or a null answer, appends and persists the new entry otherwise, and reaches `AttemptCraftStep` |
| App.Game.Tick | App.tsx:160-170 | one firing of the combo effect reaches `TickStep` |
| App.Game.OpenRecipeBook | App.tsx:671 | the recipe-book button opens the book and changes nothing else |
| App.Game.CloseRecipeBook | App.tsx:530 | closing the book changes nothing else |

## Left out

- Rendering is left out because it is user interface only: JSX, CSS, floating texts, fireworks, bump flags and `setTimeout` cleanups. So are the Fireworks, PetLayer, DecorationLayer, SetupModal and ElementCard components.
- `explainConcept` and the right-click explanation popup are left out. They are a network call whose text only reaches the screen.
- The service SDK, the prompts, JSON encoding and browser storage are left out as foreign I/O. Call outcomes and stored values are parameters instead.
- Mouse-drag coordinate tracking (`handleMouseDown`, `handleMouseMove`) is left out as DOM events. Only the release and the choice of drop target are modelled.
- Random ids, random positions and the random shuffle are parameters: `instanceId`, `x`, `y`, the inspiration order, and the pet id and clock.
- The hard reset is left out. It asks `confirm`, removes the storage key and reloads the page.
- The `isCreatingCustom` and `isSummoningPet` flags and overlapping async handlers are left out: the model is sequential. Stale closures over old state are therefore not modelled. The summon flag appears only as an input of the button predicate.
- App.Game.SummonPet: models the handler after the awaited call returns. A summon whose call throws cannot happen, because `generatePetFromContext` never throws.
- App.CreateCustomItemStep: takes the price the render computed as a parameter. Callers pass `CustomCostOf`, as the form does.
- App.TickStep: counts whole tenths of a second. JavaScript's `prev - 0.1` drift in floating point is not modelled.
- Economy.Price: uses exact reals. JavaScript's double rounding in `Math.pow`, `* 1.1` and `Math.round` is not modelled. It changes whole prices: the pet price at two pets is 9800 here and 9799 in the program, and 13720 against 13719 at three pets.
- Economy.PriceExamples: the pet price 9800 at two pets is the exact value; the program computes `5000 * Math.pow(1.4, 2)` just below 9800 in double arithmetic and floors it to 9799. The other examples agree with double arithmetic.
- Text.Lower: lowers only the letters A-Z. Full Unicode case mapping is not modelled.
- Text.IsPictographic: stands for the `\p{Emoji_Presentation}|\p{Extended_Pictographic}` test by whole Unicode blocks, an approximation of the property tables. A reply's emoji is taken to be one code point.
- Text.LexLe: compares code points and stands in for both orders the code uses. The default `sort()` of the pair key compares UTF-16 code units instead; the two differ when a character beyond U+FFFF meets one from U+E000 to U+FFFF, so for such a pair the program's key lists the texts the other way round. For `localeCompare` in the alphabetical library order it is only an approximation.
- RecipeBook.BuildTree: a node expanded at depth 12 or less is given the item's id. The random five-character suffix the component appends there is not modelled.
- The library filter is a pure function of the inventory, so the inventory sequence itself is never reordered. Sorting works on the filtered copy.
