/**
 * The oracle client of services/geminiService.ts: the retry policy, the parsers of
 * the service's plain-text replies with their fallbacks, the concept extraction
 * mapping, and the persistent combination cache.
 *
 * The generative service is not modelled: each call's outcome is an input.
 */
module Oracle {
  import opened Wrappers
  import opened Types
  import opened Text

  // ---------------------------------------------------------------------------
  // Retry with exponential backoff (callGeminiWithRetry)
  // ---------------------------------------------------------------------------

  /** What one call of the wrapped operation does: returns a value, fails on quota, fails otherwise. */
  datatype CallOutcome<T> = Ok(value: T) | Quota | Other

  /** The error a failed retry loop throws. */
  datatype Failure = QuotaExceeded | OtherError | MaxRetriesExceeded

  /** How an awaited oracle operation ends: it returns a value or throws. */
  datatype Outcome<T> = Returned(value: T) | Thrown(failure: Failure)

  /** A run of the retry loop: its outcome, the delays it sleeps (ms), and how many calls it makes. */
  datatype RetryRun<T> = RetryRun(outcome: Outcome<T>, delays: seq<int>, calls: nat)

  function Pow2(i: nat): (p: nat)
    ensures p >= 1
  {
    if i == 0 then 1 else 2 * Pow2(i - 1)
  }

  /**
   * The retry loop from attempt i on; attempt(j) is the outcome of the j-th call.
   * A quota failure waits baseDelay * 2^i and tries again only while i < retries - 1.
   */
  function RetryFrom<T>(attempt: nat -> CallOutcome<T>, retries: int, baseDelay: int, i: nat): RetryRun<T>
    decreases if i < retries then retries - i else 0
  {
    if i >= retries then RetryRun(Thrown(MaxRetriesExceeded), [], 0)
    else match attempt(i)
      case Ok(v) => RetryRun(Returned(v), [], 1)
      case Other => RetryRun(Thrown(OtherError), [], 1)
      case Quota =>
        if i < retries - 1 then
          var rest := RetryFrom(attempt, retries, baseDelay, i + 1);
          RetryRun(rest.outcome, [baseDelay * Pow2(i)] + rest.delays, rest.calls + 1)
        else RetryRun(Thrown(QuotaExceeded), [], 1)
  }

  /** The whole retry loop. */
  function Retry<T>(attempt: nat -> CallOutcome<T>, retries: int, baseDelay: int): RetryRun<T> {
    RetryFrom(attempt, retries, baseDelay, 0)
  }

  /** callGeminiWithRetry: the counted loop with `continue` on a quota failure. */
  method CallWithRetry<T>(attempt: nat -> CallOutcome<T>, retries: int, baseDelay: int) returns (run: RetryRun<T>)
    ensures run == Retry(attempt, retries, baseDelay)
  {
    var delays: seq<int> := [];
    var i: nat := 0;
    while i < retries
      invariant i > 0 ==> i < retries
      invariant |delays| == i
      invariant var rest := RetryFrom(attempt, retries, baseDelay, i);
        Retry(attempt, retries, baseDelay) == RetryRun(rest.outcome, delays + rest.delays, rest.calls + i)
      decreases retries - i
    {
      var call := attempt(i);
      match call {
        case Ok(v) =>
          return RetryRun(Returned(v), delays, i + 1);
        case Other =>
          return RetryRun(Thrown(OtherError), delays, i + 1);
        case Quota =>
          if i < retries - 1 {
            ghost var rest := RetryFrom(attempt, retries, baseDelay, i + 1);
            assert delays + ([baseDelay * Pow2(i)] + rest.delays) == (delays + [baseDelay * Pow2(i)]) + rest.delays;
            delays := delays + [baseDelay * Pow2(i)];
            i := i + 1;
            continue;
          }
          return RetryRun(Thrown(QuotaExceeded), delays, i + 1);
      }
    }
    run := RetryRun(Thrown(MaxRetriesExceeded), delays, i);
  }

  /**
   * From attempt i < retries on, the loop makes between 1 and retries - i calls; every
   * call but the last failed on quota and was followed by the delay baseDelay * 2^j;
   * the last call decides the outcome.
   */
  lemma {:induction false} RetryFromShape<T>(attempt: nat -> CallOutcome<T>, retries: int, baseDelay: int, i: nat)
    requires i < retries
    ensures var r := RetryFrom(attempt, retries, baseDelay, i);
      && 1 <= r.calls && i + r.calls <= retries
      && |r.delays| == r.calls - 1
      && (forall k :: i <= k < i + |r.delays| ==> attempt(k).Quota? && r.delays[k - i] == baseDelay * Pow2(k))
      && (match attempt(i + r.calls - 1)
          case Ok(v) => r.outcome == Returned(v)
          case Other => r.outcome == Thrown(OtherError)
          case Quota => i + r.calls == retries && r.outcome == Thrown(QuotaExceeded))
    decreases retries - i
  {
    if attempt(i).Quota? && i < retries - 1 {
      RetryFromShape(attempt, retries, baseDelay, i + 1);
      var rest := RetryFrom(attempt, retries, baseDelay, i + 1);
      var r := RetryFrom(attempt, retries, baseDelay, i);
      assert r.delays == [baseDelay * Pow2(i)] + rest.delays;
    }
  }

  /**
   * The retry loop calls the operation at most `retries` times and returns the first
   * success; a non-quota error ends it at once; with no attempts allowed it throws
   * "Max retries exceeded".
   */
  lemma RetryContract<T>(attempt: nat -> CallOutcome<T>, retries: int, baseDelay: int)
    ensures var r := Retry(attempt, retries, baseDelay);
      && (retries <= 0 ==> r == RetryRun(Thrown(MaxRetriesExceeded), [], 0))
      && (retries > 0 ==>
          && 1 <= r.calls <= retries
          && |r.delays| == r.calls - 1
          && (forall j :: 0 <= j < |r.delays| ==> attempt(j).Quota? && r.delays[j] == baseDelay * Pow2(j))
          && (r.outcome.Returned? <==> attempt(r.calls - 1).Ok?)
          && (r.outcome.Returned? ==> attempt(r.calls - 1) == Ok(r.outcome.value))
          && r.outcome != Thrown(MaxRetriesExceeded))
  {
    if retries > 0 {
      RetryFromShape(attempt, retries, baseDelay, 0);
    }
  }

  /** With the defaults (3 attempts, 1000 ms), three quota failures wait 1000 ms then 2000 ms and rethrow. */
  lemma DefaultBackoff<T>(attempt: nat -> CallOutcome<T>)
    requires attempt(0).Quota? && attempt(1).Quota? && attempt(2).Quota?
    ensures Retry(attempt, 3, 1000) == RetryRun(Thrown(QuotaExceeded), [1000, 2000], 3)
  {
    assert Pow2(1) == 2;
  }

  // ---------------------------------------------------------------------------
  // Keys
  // ---------------------------------------------------------------------------

  /** The cache key: the sorted pair joined with `|`, then `|` and the language. */
  function CacheKey(item1: string, item2: string, language: string): (k: string)
    ensures |k| == |item1| + |item2| + |language| + 2
    ensures k[|k| - |language|..] == language && k[|k| - |language| - 1] == '|'
    ensures k[..|k| - |language| - 1] == PairKey(item1, item2) == PairKey(item2, item1)
  {
    PairKeySymmetric(item1, item2);
    var k := PairKey(item1, item2) + "|" + language;
    assert k[..|k| - |language| - 1] == PairKey(item1, item2);
    k
  }

  /** The key does not depend on the order of the two items, and tells languages apart. */
  lemma CacheKeyProperties(item1: string, item2: string, l1: string, l2: string)
    ensures CacheKey(item1, item2, l1) == CacheKey(item2, item1, l1)
    ensures l1 != l2 ==> CacheKey(item1, item2, l1) != CacheKey(item1, item2, l2)
  {
    PairKeySymmetric(item1, item2);
    var p := PairKey(item1, item2) + "|";
    if CacheKey(item1, item2, l1) == CacheKey(item1, item2, l2) {
      assert (p + l1)[|p|..] == l1;
      assert (p + l2)[|p|..] == l2;
    }
  }

  // ---------------------------------------------------------------------------
  // Parsing a combination reply `Result|Emoji|Hex1|Hex2`
  // ---------------------------------------------------------------------------

  const Sparkle: string := "✨"
  const DefaultColor1: string := "#60A5FA"
  const DefaultColor2: string := "#A78BFA"

  /** The reply text after `?.trim()`; an absent text reads as "". */
  function ReplyText(reply: Option<string>): string {
    if reply.Some? then Trim(reply.value) else ""
  }

  /** The reply is taken as "no combination" (a null marker). */
  predicate SaysNothing(text: string) {
    text == "" || Contains(text, "NULL") || Contains(Lower(text), "nothing")
  }

  /** A colour field is kept when it starts with `#`, else the default replaces it. */
  function ColorOr(field: string, default: string): (c: string)
    requires StartsWith(default, "#")
    ensures StartsWith(c, "#")
    ensures c == field || c == default
  {
    if field != "" && StartsWith(field, "#") then field else default
  }

  /**
   * The name and emoji from the first two fields: an empty emoji field is recovered
   * from the first pictographic character of the name, which is then cut from it;
   * failing that the emoji is a sparkle.
   */
  function NameAndEmoji(result: string, emoji: string): (ne: (string, string))
    ensures ne.1 != ""
    ensures emoji != "" ==> ne == (result, emoji)
  {
    if emoji != "" then (result, emoji)
    else match FirstPictographic(result)
      case Some(i) => (Trim(RemoveAt(result, i)), [result[i]])
      case None => (result, Sparkle)
  }

  predicate IsQuote(c: char) {
    c == '"' || c == '\''
  }

  /**
   * `replace(/^["']|["']$/g, '')`: r is what lies between one optional leading quote and
   * one optional trailing quote; each goes exactly when it is there.
   */
  function StripQuotes(s: string): (r: string)
    ensures var a := if s != [] && IsQuote(s[0]) then 1 else 0;
      && a + |r| <= |s| && r == s[a..a + |r|]
      && (|s| > a && IsQuote(s[|s| - 1]) ==> a + |r| == |s| - 1)
      && (!(|s| > a && IsQuote(s[|s| - 1])) ==> a + |r| == |s|)
  {
    var t := if s != [] && IsQuote(s[0]) then s[1..] else s;
    if t != [] && IsQuote(t[|t| - 1]) then t[..|t| - 1] else t
  }

  /** `replace(/\.$/, '')`: a prefix of s, one shorter exactly when s ends with a dot. */
  function StripTrailingDot(s: string): (r: string)
    ensures |r| <= |s| && r == s[..|r|]
    ensures |r| == |s| - 1 <==> s != [] && s[|s| - 1] == '.'
    ensures |r| != |s| - 1 ==> r == s
  {
    if s != [] && s[|s| - 1] == '.' then s[..|s| - 1] else s
  }

  /** The result name: quotes stripped first, then the trailing dot. */
  function CleanName(name: string): string {
    StripTrailingDot(StripQuotes(name))
  }

  /** The name and emoji of a non-null reply text, before the name is cleaned. */
  function NameField(text: string): (string, string) {
    var fields := Split(text, '|');
    NameAndEmoji(Field(fields, 0), Field(fields, 1))
  }

  /** The cleaned result name of a non-null reply text. */
  function ResultName(text: string): string {
    CleanName(NameField(text).0)
  }

  /** The two colours of a reply text, each defaulted when it does not start with `#`. */
  function Colors(text: string): seq<string> {
    var fields := Split(text, '|');
    [ColorOr(Field(fields, 2), DefaultColor1), ColorOr(Field(fields, 3), DefaultColor2)]
  }

  /** The reply handling of combineElements. */
  function ParseCombination(reply: Option<string>): Option<CraftingResult> {
    var text := ReplyText(reply);
    if SaysNothing(text) then None
    else
      var name := ResultName(text);
      var emoji := NameField(text).1;
      if name == "" then None
      else Some(CraftingResult(name, if emoji == "" then Sparkle else emoji, false, Colors(text)))
  }

  /**
   * A reply yields no combination exactly when it is empty, holds "NULL", holds "nothing"
   * in any case, or leaves an empty name.
   */
  lemma ParseCombinationNull(reply: Option<string>)
    ensures ParseCombination(reply).None? <==>
      var text := ReplyText(reply); SaysNothing(text) || ResultName(text) == ""
  {
  }

  /**
   * A parsed combination has a non-empty name and emoji, exactly two colours that start
   * with `#`, is not marked new, and comes from a reply that held no null marker.
   */
  lemma ParsedCombinationShape(reply: Option<string>)
    requires ParseCombination(reply).Some?
    ensures var c := ParseCombination(reply).value;
      && c.result != "" && c.emoji != "" && !c.isNew
      && |c.colors| == 2 && StartsWith(c.colors[0], "#") && StartsWith(c.colors[1], "#")
      && !Contains(ReplyText(reply), "NULL")
  {
  }

  /** The emoji field, when present, is kept; the colour fields are kept when they start with `#`. */
  lemma ParsedFieldsKept(reply: Option<string>)
    requires ParseCombination(reply).Some?
    ensures var fields := Split(ReplyText(reply), '|');
      var c := ParseCombination(reply).value;
      && (Field(fields, 1) != "" ==> c.emoji == Field(fields, 1))
      && (StartsWith(Field(fields, 2), "#") ==> c.colors[0] == Field(fields, 2))
      && (!StartsWith(Field(fields, 2), "#") ==> c.colors[0] == DefaultColor1)
      && (StartsWith(Field(fields, 3), "#") ==> c.colors[1] == Field(fields, 3))
      && (!StartsWith(Field(fields, 3), "#") ==> c.colors[1] == DefaultColor2)
  {
  }

  // ---------------------------------------------------------------------------
  // The combination cache (combinationCache, loadCache, saveCache, combineElements)
  // ---------------------------------------------------------------------------

  /** What the storage slot of the cache holds, as JSON.parse reads it. */
  datatype StoredCache =
    | NothingStored                              // no item, or an empty string
    | Unreadable                                 // JSON.parse or `new Map` throws
    | NotAnArray                                 // parsed, but not an array
    | Entries(pairs: seq<(string, CraftingResult)>)

  /** The keys of a list of entries. */
  function Keys(es: seq<(string, CraftingResult)>): set<string> {
    set e | e in es :: e.0
  }

  predicate UniqueKeys(es: seq<(string, CraftingResult)>) {
    forall i, j :: 0 <= i < j < |es| ==> es[i].0 != es[j].0
  }

  /** The key to result map of a list of entries; a later entry wins. */
  function MapOf(es: seq<(string, CraftingResult)>): (m: map<string, CraftingResult>)
    ensures m.Keys == Keys(es)
  {
    if es == [] then map[]
    else
      var last := es[|es| - 1];
      assert es == es[..|es| - 1] + [last];
      MapOf(es[..|es| - 1])[last.0 := last.1]
  }

  /** The position of key k among the entries, if any. */
  function IndexOfKey(es: seq<(string, CraftingResult)>, k: string): (r: Option<nat>)
    ensures r.Some? ==> r.value < |es| && es[r.value].0 == k
    ensures r.None? <==> k !in Keys(es)
  {
    if es == [] then None
    else if es[0].0 == k then Some(0)
    else match IndexOfKey(es[1..], k)
      case None => assert Keys(es) == {es[0].0} + Keys(es[1..]); None
      case Some(i) => Some(i + 1)
  }

  /** r is es with the entry under key k, wherever it stands, replaced by (k, v). */
  predicate ReplacedInPlace(es: seq<(string, CraftingResult)>, r: seq<(string, CraftingResult)>,
                            k: string, v: CraftingResult) {
    |r| == |es| && forall j :: 0 <= j < |es| ==> r[j] == (if es[j].0 == k then (k, v) else es[j])
  }

  /** `Map.prototype.set` on the entries: an existing key keeps its place, a new one goes last. */
  function MapSet(es: seq<(string, CraftingResult)>, k: string, v: CraftingResult): (r: seq<(string, CraftingResult)>)
    requires UniqueKeys(es)
    ensures UniqueKeys(r)
    ensures Keys(r) == Keys(es) + {k}
    ensures k !in Keys(es) ==> r == es + [(k, v)]
    ensures k in Keys(es) ==> ReplacedInPlace(es, r, k, v)
  {
    match IndexOfKey(es, k)
    case Some(i) =>
      SetExisting(es, i, v);
      es[i := (k, v)]
    case None =>
      AppendFreshKey(es, k, v);
      es + [(k, v)]
  }

  /** Overwriting the entry at the key's position keeps the keys distinct and in place. */
  lemma SetExisting(es: seq<(string, CraftingResult)>, i: nat, v: CraftingResult)
    requires UniqueKeys(es) && i < |es|
    ensures UniqueKeys(es[i := (es[i].0, v)])
    ensures Keys(es[i := (es[i].0, v)]) == Keys(es)
    ensures ReplacedInPlace(es, es[i := (es[i].0, v)], es[i].0, v)
  {
    var k := es[i].0;
    var r := es[i := (k, v)];
    forall e | e in r ensures e.0 in Keys(es) {
      var j :| 0 <= j < |r| && r[j] == e;
      assert es[j] in es;
    }
    forall e | e in es ensures e.0 in Keys(r) {
      var j :| 0 <= j < |es| && es[j] == e;
      assert r[j] in r;
    }
    forall j | 0 <= j < |es| ensures r[j] == (if es[j].0 == k then (k, v) else es[j]) {
      if j != i { UniqueOrder(es, i, j); }
    }
  }

  /** After `set`, k maps to v and every other key keeps its value. */
  lemma MapSetValues(es: seq<(string, CraftingResult)>, k: string, v: CraftingResult)
    requires UniqueKeys(es)
    ensures MapOf(MapSet(es, k, v)) == MapOf(es)[k := v]
  {
    var r := MapSet(es, k, v);
    if k in Keys(es) {
      ReplacedValues(es, r, k, v);
    } else {
      assert r[..|es|] == es;
    }
  }

  /** Replacing every entry under k in place changes the map at k only, if k is there at all. */
  lemma {:induction false} ReplacedValues(es: seq<(string, CraftingResult)>, r: seq<(string, CraftingResult)>,
                                          k: string, v: CraftingResult)
    requires ReplacedInPlace(es, r, k, v)
    ensures MapOf(r) == if k in MapOf(es) then MapOf(es)[k := v] else MapOf(es)
  {
    if es != [] {
      var n := |es|;
      var es', r' := es[..n - 1], r[..n - 1];
      assert es == es' + [es[n - 1]];
      assert ReplacedInPlace(es', r', k, v) by {
        forall j | 0 <= j < n - 1 ensures r'[j] == (if es'[j].0 == k then (k, v) else es'[j]) {
          assert r'[j] == r[j] && es'[j] == es[j];
        }
      }
      ReplacedValues(es', r', k, v);
      var last := es[n - 1];
      assert r[n - 1] == (if last.0 == k then (k, v) else last);
      assert MapOf(r) == MapOf(r')[r[n - 1].0 := r[n - 1].1];
      UpdateStep(MapOf(es'), MapOf(r'), k, v, last.0, last.1);
    }
  }

  /** One more entry (l0, l1), replaced in r when l0 is k, keeps the replacement relation of the maps. */
  lemma UpdateStep(me: map<string, CraftingResult>, mr: map<string, CraftingResult>, k: string,
                   v: CraftingResult, l0: string, l1: CraftingResult)
    requires mr == if k in me then me[k := v] else me
    ensures (if l0 == k then mr[k := v] else mr[l0 := l1])
      == if k in me[l0 := l1] then me[l0 := l1][k := v] else me[l0 := l1]
  {
  }

  /** Distinct keys differ in either order of their positions. */
  lemma UniqueOrder(es: seq<(string, CraftingResult)>, i: nat, j: nat)
    requires UniqueKeys(es) && i < |es| && j < |es| && i != j
    ensures es[i].0 != es[j].0
  {
    if i > j { assert es[j].0 != es[i].0; }
  }

  /** With distinct keys, the map sends each entry's key to that entry's value. */
  lemma {:induction false} MapOfUnique(es: seq<(string, CraftingResult)>)
    requires UniqueKeys(es)
    ensures forall j :: 0 <= j < |es| ==> MapOf(es)[es[j].0] == es[j].1
  {
    if es != [] {
      var init := es[..|es| - 1];
      MapOfUnique(init);
      forall j | 0 <= j < |es| ensures MapOf(es)[es[j].0] == es[j].1 {
        if j < |es| - 1 {
          assert init[j] == es[j];
          assert es[j].0 != es[|es| - 1].0;
        }
      }
    }
  }

  /** `new Map(pairs)`: the pairs set one by one, from the first. */
  function FromPairs(pairs: seq<(string, CraftingResult)>): (r: seq<(string, CraftingResult)>)
    ensures UniqueKeys(r)
  {
    if pairs == [] then []
    else
      var last := pairs[|pairs| - 1];
      MapSet(FromPairs(pairs[..|pairs| - 1]), last.0, last.1)
  }

  /** loadCache: the entries read back from the storage slot; anything unusable gives an empty cache. */
  function LoadEntries(stored: StoredCache): (r: seq<(string, CraftingResult)>)
    ensures UniqueKeys(r)
    ensures !stored.Entries? ==> r == []
  {
    if stored.Entries? then FromPairs(stored.pairs) else []
  }

  /** Entries with distinct keys are read back as they were written. */
  lemma {:induction false} FromPairsUnique(pairs: seq<(string, CraftingResult)>)
    requires UniqueKeys(pairs)
    ensures FromPairs(pairs) == pairs
  {
    if pairs != [] {
      var init := pairs[..|pairs| - 1];
      var last := pairs[|pairs| - 1];
      LastKeyFresh(pairs);
      FromPairsUnique(init);
      assert FromPairs(pairs) == MapSet(init, last.0, last.1);
      assert pairs == init + [last];
    }
  }

  /** With distinct keys, the keys before the last are distinct and the last key is not among them. */
  lemma LastKeyFresh(es: seq<(string, CraftingResult)>)
    requires UniqueKeys(es) && es != []
    ensures UniqueKeys(es[..|es| - 1])
    ensures es[|es| - 1].0 !in Keys(es[..|es| - 1])
  {
    var init := es[..|es| - 1];
    forall i, j | 0 <= i < j < |init| ensures init[i].0 != init[j].0 {
      assert init[i] == es[i] && init[j] == es[j];
    }
    forall e | e in init ensures e.0 != es[|es| - 1].0 {
      var j :| 0 <= j < |init| && init[j] == e;
      assert es[j] == e;
    }
  }

  /** Loading what saveCache wrote yields the same entries, hence the same key to result map. */
  lemma CacheRoundTrip(es: seq<(string, CraftingResult)>)
    requires UniqueKeys(es)
    ensures LoadEntries(Entries(es)) == es
    ensures MapOf(LoadEntries(Entries(es))) == MapOf(es)
  {
    FromPairsUnique(es);
  }

  /** Appending an entry under a fresh key keeps the keys distinct. */
  lemma AppendFreshKey(es: seq<(string, CraftingResult)>, k: string, v: CraftingResult)
    requires UniqueKeys(es) && k !in Keys(es)
    ensures UniqueKeys(es + [(k, v)])
    ensures Keys(es + [(k, v)]) == Keys(es) + {k}
  {
    var es' := es + [(k, v)];
    forall i, j | 0 <= i < j < |es'| ensures es'[i].0 != es'[j].0 {
      if j == |es| {
        assert es[i] in es;
      }
    }
  }

  /**
   * What combineElements returns for a key, given the cache entries before the call:
   * the cached value, or else the parsed reply of the retried service call, or null
   * when the call throws.
   */
  function CombineResult(entries: seq<(string, CraftingResult)>, key: string,
                         attempt: nat -> CallOutcome<Option<string>>): (r: Option<CraftingResult>)
    ensures key in MapOf(entries) ==> r == Some(MapOf(entries)[key])
    ensures key !in MapOf(entries) && Retry(attempt, 3, 1000).outcome.Thrown? ==> r.None?
    ensures key !in MapOf(entries) && Retry(attempt, 3, 1000).outcome.Returned? ==>
      r == ParseCombination(Retry(attempt, 3, 1000).outcome.value)
  {
    if key in MapOf(entries) then Some(MapOf(entries)[key])
    else
      var run := Retry(attempt, 3, 1000);
      if run.outcome.Returned? then ParseCombination(run.outcome.value) else None
  }

  /** A miss whose every call fails on quota yields null after waiting 1000 ms and 2000 ms. */
  lemma QuotaExhaustedMiss(entries: seq<(string, CraftingResult)>, key: string,
                           attempt: nat -> CallOutcome<Option<string>>)
    requires key !in Keys(entries)
    requires attempt(0).Quota? && attempt(1).Quota? && attempt(2).Quota?
    ensures CombineResult(entries, key, attempt).None?
    ensures Retry(attempt, 3, 1000).delays == [1000, 2000]
  {
    DefaultBackoff(attempt);
  }

  /** The module-level cache: a Map (kept in insertion order) and the storage slot it persists to. */
  class CombinationCache {
    var entries: seq<(string, CraftingResult)>
    var stored: StoredCache

    ghost predicate Valid()
      reads this
    {
      UniqueKeys(entries)
    }

    /** The cache as a key to result map. */
    function Cache(): map<string, CraftingResult>
      reads this
    {
      MapOf(entries)
    }

    /** `const combinationCache = loadCache()`. */
    constructor Load(slot: StoredCache)
      ensures Valid()
      ensures entries == LoadEntries(slot) && stored == slot
    {
      entries := LoadEntries(slot);
      stored := slot;
    }

    /** saveCache: the entries, in order, go to the storage slot. */
    method SaveCache()
      modifies this`stored
      ensures stored == Entries(entries)
    {
      stored := Entries(entries);
    }

    /**
     * combineElements. A cached key answers without calling the service. Otherwise the
     * service is called through the retry loop (attempt(j) is the outcome of the j-th call);
     * a parsed, non-null result is stored under the key and persisted; a null result or any
     * thrown error yields null and leaves the cache as it was.
     */
    method CombineElements(item1: string, item2: string, targetLanguage: string,
                           attempt: nat -> CallOutcome<Option<string>>)
      returns (r: Option<CraftingResult>, delays: seq<int>, calls: nat)
      requires Valid()
      modifies this
      ensures Valid()
      ensures r == CombineResult(old(entries), CacheKey(item1, item2, targetLanguage), attempt)
      ensures var key := CacheKey(item1, item2, targetLanguage);
        if key in old(Cache()) then
          && calls == 0 && delays == [] && entries == old(entries) && stored == old(stored)
        else
          && calls == Retry(attempt, 3, 1000).calls && delays == Retry(attempt, 3, 1000).delays
          && (r.Some? ==> entries == old(entries) + [(key, r.value)] && stored == Entries(entries))
          && (r.None? ==> entries == old(entries) && stored == old(stored))
    {
      var cacheKey := CacheKey(item1, item2, targetLanguage);
      if cacheKey in MapOf(entries) {
        return Some(MapOf(entries)[cacheKey]), [], 0;
      }
      var run := CallWithRetry(attempt, 3, 1000);
      delays, calls := run.delays, run.calls;
      if run.outcome.Thrown? {
        return None, delays, calls;
      }
      r := ParseCombination(run.outcome.value);
      if r.Some? {
        AppendFreshKey(entries, cacheKey, r.value);
        entries := entries + [(cacheKey, r.value)];
        SaveCache();
      }
    }
  }

  /** A stored result is returned while its key stays in the cache: a second lookup calls nothing. */
  lemma CachedEntryAnswers(es: seq<(string, CraftingResult)>, key: string, v: CraftingResult)
    requires UniqueKeys(es) && key !in Keys(es)
    ensures key in MapOf(es + [(key, v)]) && MapOf(es + [(key, v)])[key] == v
    ensures forall k :: k in MapOf(es) ==> MapOf(es + [(key, v)])[k] == MapOf(es)[k]
  {
    assert (es + [(key, v)])[..|es|] == es;
  }

  // ---------------------------------------------------------------------------
  // generateSingleElement
  // ---------------------------------------------------------------------------

  /**
   * The emoji chosen for a custom concept: a sparkle on error or an empty reply, else the
   * first pictographic character of the trimmed reply, else the whole trimmed reply.
   */
  function SingleEmoji(call: Outcome<Option<string>>): (e: string)
    ensures e != ""
  {
    match call
    case Thrown(_) => Sparkle
    case Returned(reply) =>
      var text := ReplyText(reply);
      var emoji := if text == "" then Sparkle else text;
      match FirstPictographic(emoji)
      case Some(i) => [emoji[i]]
      case None => emoji
  }

  /** generateSingleElement: never fails; the concept keeps the given text and has no parents. */
  function GenerateSingleElement(text: string, call: Outcome<Option<string>>): (e: ElementData)
    ensures e.text == text && e.id == IdOf(text) && e.parents.None?
    ensures e.emoji != ""
  {
    ElementData(IdOf(text), text, SingleEmoji(call), None)
  }

  /** The emoji rule of generateSingleElement, case by case. */
  lemma SingleEmojiCases(call: Outcome<Option<string>>)
    ensures call.Thrown? ==> SingleEmoji(call) == Sparkle
    ensures call.Returned? && ReplyText(call.value) == "" ==> SingleEmoji(call) == Sparkle
    ensures call.Returned? && ReplyText(call.value) != "" ==>
      var text := ReplyText(call.value);
      match FirstPictographic(text)
      case Some(i) => SingleEmoji(call) == [text[i]]
      case None => SingleEmoji(call) == text
  {
    assert FirstPictographic(Sparkle) == Some(0);
  }

  // ---------------------------------------------------------------------------
  // generatePetFromContext
  // ---------------------------------------------------------------------------

  /** The reply assumed when the service returns no text. */
  const MysteryReply: string := "Mystery Blob|❓|#FFFFFF|Unknown origin."

  /**
   * The concepts that inspire a pet: the first five of the context in the (random)
   * order `shuffled`, which is a permutation of the context.
   */
  function Inspiration(context: seq<string>, shuffled: seq<string>): (r: seq<string>)
    requires multiset(shuffled) == multiset(context)
    ensures |r| <= 5 && |r| == if |context| < 5 then |context| else 5
    ensures multiset(r) <= multiset(context)
  {
    assert |shuffled| == |multiset(shuffled)| == |multiset(context)| == |context|;
    var n := if |shuffled| < 5 then |shuffled| else 5;
    assert shuffled == shuffled[..n] + shuffled[n..];
    assert multiset(shuffled) == multiset(shuffled[..n]) + multiset(shuffled[n..]);
    shuffled[..n]
  }

  /** The pet of an error. */
  function VoidMite(id: string, createdAt: int): PetData {
    PetData(id, "Void Mite", "🌑", "#94a3b8", "Born from an error.", createdAt)
  }

  /** A pet from a reply `Name|Emoji|HexColor|ShortDescription`, each missing field defaulted. */
  function PetFromText(text: string, id: string, createdAt: int): (p: PetData)
    ensures p.name != "" && p.emoji != "" && p.description != ""
    ensures StartsWith(p.color, "#")
  {
    var fields := Split(text, '|');
    var name := Field(fields, 0);
    var emoji := Field(fields, 1);
    var color := Field(fields, 2);
    var description := Field(fields, 3);
    PetData(id,
      if name == "" then "Glitch" else name,
      if emoji == "" then "👾" else emoji,
      if StartsWith(color, "#") then color else "#FFFFFF",
      if description == "" then "A strange visitor." else description,
      createdAt)
  }

  /**
   * generatePetFromContext: never fails. An error gives the Void Mite; an empty reply
   * reads as the Mystery Blob reply. id and createdAt are the random id and the clock.
   */
  function GeneratePet(call: Outcome<Option<string>>, id: string, createdAt: int): (p: PetData)
    ensures p.id == id && p.createdAt == createdAt
    ensures p.name != "" && p.emoji != "" && p.description != "" && StartsWith(p.color, "#")
    ensures call.Thrown? ==> p == VoidMite(id, createdAt)
  {
    match call
    case Thrown(_) => VoidMite(id, createdAt)
    case Returned(reply) =>
      var text := ReplyText(reply);
      PetFromText(if text == "" then MysteryReply else text, id, createdAt)
  }

  /** The kept fields of a pet reply: a colour is kept only when it starts with `#`. */
  lemma PetFieldsKept(text: string, id: string, createdAt: int)
    ensures var fields := Split(text, '|'); var p := PetFromText(text, id, createdAt);
      && (Field(fields, 0) != "" ==> p.name == Field(fields, 0))
      && (Field(fields, 1) != "" ==> p.emoji == Field(fields, 1))
      && (StartsWith(Field(fields, 2), "#") <==> p.color == Field(fields, 2))
      && (Field(fields, 3) != "" ==> p.description == Field(fields, 3))
  {
    var color := Field(Split(text, '|'), 2);
    if !StartsWith(color, "#") {
      assert StartsWith("#FFFFFF", "#");
    }
  }

  // ---------------------------------------------------------------------------
  // extractConcepts
  // ---------------------------------------------------------------------------

  /** One concept of the extraction reply. */
  datatype Concept = Concept(text: string, emoji: string)

  /** The parsed JSON of an extraction reply; an absent language reads as "". */
  datatype ParsedExtraction = ParsedExtraction(language: string, concepts: seq<Concept>)

  /** The seed set of a new session and the detected language. */
  datatype Extraction = Extraction(elements: seq<ElementData>, language: string)

  /** The concept record of one extracted concept. */
  function ConceptElement(c: Concept): ElementData {
    ElementData(IdOf(c.text), c.text, c.emoji, None)
  }

  /**
   * extractConcepts after the service call: a thrown call, a missing text or an
   * unparseable reply (None) propagates as a failure (None); otherwise the concepts are
   * mapped one to one and in order, and the language defaults to English.
   */
  function ExtractConcepts(call: Outcome<Option<ParsedExtraction>>): (r: Option<Extraction>)
    ensures r.None? <==> call.Thrown? || call.value.None?
    ensures r.Some? ==>
      var parsed := call.value.value;
      && |r.value.elements| == |parsed.concepts|
      && (forall i :: 0 <= i < |parsed.concepts| ==>
            r.value.elements[i] == ConceptElement(parsed.concepts[i]))
      && r.value.language == (if parsed.language == "" then "English" else parsed.language)
  {
    match call
    case Thrown(_) => None
    case Returned(None) => None
    case Returned(Some(parsed)) =>
      Some(Extraction(
        seq(|parsed.concepts|, i requires 0 <= i < |parsed.concepts| => ConceptElement(parsed.concepts[i])),
        if parsed.language == "" then "English" else parsed.language))
  }
}
