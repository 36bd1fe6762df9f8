/**
 * The JavaScript string operations the core relies on: trim, split, toLowerCase,
 * includes, startsWith, a code-point stand-in for the two string orders, the
 * sorted-pair key and the id derivation.
 */
module Text {
  import opened Wrappers

  /** The characters of ECMAScript's WhiteSpace and LineTerminator classes (`trim`, `\s`). */
  predicate IsWhitespace(c: char) {
    c == '\t' || c == '\n' || c == '\U{B}' || c == '\U{C}' || c == '\r' || c == ' '
    || c == '\U{A0}' || c == '\U{1680}' || ('\U{2000}' <= c <= '\U{200A}')
    || c == '\U{2028}' || c == '\U{2029}' || c == '\U{202F}' || c == '\U{205F}'
    || c == '\U{3000}' || c == '\U{FEFF}'
  }

  /** The code points matched by `\p{Emoji_Presentation}|\p{Extended_Pictographic}`, by block. */
  predicate IsPictographic(c: char) {
    c == '\U{A9}' || c == '\U{AE}' || c == '\U{203C}' || c == '\U{2049}' || c == '\U{2122}'
    || ('\U{2190}' <= c <= '\U{21FF}') || ('\U{2300}' <= c <= '\U{23FF}')
    || ('\U{25A0}' <= c <= '\U{27BF}') || ('\U{2900}' <= c <= '\U{297F}')
    || ('\U{2B00}' <= c <= '\U{2BFF}') || c == '\U{3030}' || c == '\U{303D}'
    || c == '\U{3297}' || c == '\U{3299}' || ('\U{1F000}' <= c <= '\U{1FAFF}')
    || ('\U{1FC00}' <= c <= '\U{1FFFD}')
  }

  /** `toLowerCase` on one character (letters A-Z). */
  function LowerChar(c: char): (d: char)
    ensures 'A' <= c <= 'Z' ==> d as int == c as int + 32
    ensures !('A' <= c <= 'Z') ==> d == c
  {
    if 'A' <= c <= 'Z' then (c as int + 32) as char else c
  }

  function Lower(s: string): (r: string)
    ensures |r| == |s|
    ensures forall i :: 0 <= i < |s| ==> r[i] == LowerChar(s[i])
  {
    seq(|s|, i requires 0 <= i < |s| => LowerChar(s[i]))
  }

  /** `s.startsWith(p)`. */
  predicate StartsWith(s: string, p: string) {
    |p| <= |s| && s[..|p|] == p
  }

  /** `s.includes(sub)`. */
  predicate Contains(s: string, sub: string)
    decreases |s|
  {
    StartsWith(s, sub) || (s != [] && Contains(s[1..], sub))
  }

  lemma {:induction false} ContainsAt(s: string, sub: string, k: nat)
    requires k + |sub| <= |s| && s[k..k + |sub|] == sub
    ensures Contains(s, sub)
    decreases k
  {
    if k > 0 {
      assert s[1..][k - 1..k - 1 + |sub|] == sub;
      ContainsAt(s[1..], sub, k - 1);
    } else {
      assert s[..|sub|] == sub;
    }
  }

  lemma {:induction false} ContainsWitness(s: string, sub: string) returns (k: nat)
    requires Contains(s, sub)
    ensures k + |sub| <= |s| && s[k..k + |sub|] == sub
    decreases |s|
  {
    if StartsWith(s, sub) {
      k := 0;
    } else {
      var j := ContainsWitness(s[1..], sub);
      k := j + 1;
      assert s[k..k + |sub|] == s[1..][j..j + |sub|];
    }
  }

  /** `sub` occurs in `s` at position k. */
  predicate OccursAt(s: string, sub: string, k: nat) {
    k + |sub| <= |s| && s[k..k + |sub|] == sub
  }

  /** `includes` holds exactly when `sub` occurs at some position of `s`. */
  lemma ContainsIff(s: string, sub: string)
    ensures Contains(s, sub) <==> exists k: nat :: OccursAt(s, sub, k)
  {
    if Contains(s, sub) {
      var k := ContainsWitness(s, sub);
      assert OccursAt(s, sub, k);
    }
    forall k: nat | OccursAt(s, sub, k)
      ensures Contains(s, sub)
    {
      ContainsAt(s, sub, k);
    }
  }

  /** Every string includes the empty string. */
  lemma ContainsEmpty(s: string)
    ensures Contains(s, "")
  {
  }

  function TrimStart(s: string): (r: string)
    ensures |r| <= |s| && r == s[|s| - |r|..]
    ensures forall i :: 0 <= i < |s| - |r| ==> IsWhitespace(s[i])
    ensures r != [] ==> !IsWhitespace(r[0])
    decreases |s|
  {
    if s != [] && IsWhitespace(s[0]) then TrimStart(s[1..]) else s
  }

  function TrimEnd(s: string): (r: string)
    ensures |r| <= |s| && r == s[..|r|]
    ensures forall i :: |r| <= i < |s| ==> IsWhitespace(s[i])
    ensures r != [] ==> !IsWhitespace(r[|r| - 1])
    decreases |s|
  {
    if s != [] && IsWhitespace(s[|s| - 1]) then TrimEnd(s[..|s| - 1]) else s
  }

  /** A prefix of a suffix is an infix. */
  lemma SliceOfSuffix(s: string, k: nat, n: nat)
    requires k + n <= |s|
    ensures s[k..][..n] == s[k..k + n]
  {
  }

  /** r sits at position k of s, with only whitespace before and after it. */
  predicate TrimmedAt(s: string, r: string, k: nat) {
    && k + |r| <= |s| && s[k..k + |r|] == r
    && (forall i :: 0 <= i < k ==> IsWhitespace(s[i]))
    && (forall i :: k + |r| <= i < |s| ==> IsWhitespace(s[i]))
  }

  /** `s.trim()`: the longest infix without leading or trailing whitespace. */
  function Trim(s: string): (r: string)
    ensures |r| <= |s|
    ensures r != [] ==> !IsWhitespace(r[0]) && !IsWhitespace(r[|r| - 1])
    ensures r == [] <==> forall i :: 0 <= i < |s| ==> IsWhitespace(s[i])
    ensures Contains(s, r)
    ensures exists k: nat :: TrimmedAt(s, r, k)
  {
    var t := TrimStart(s);
    TrimInfix(s, t);
    ContainsAt(s, TrimEnd(t), |s| - |t|);
    TrimEnd(t)
  }

  /** Trimming the start, then the end, leaves an infix with only whitespace around it. */
  lemma TrimInfix(s: string, t: string)
    requires t == TrimStart(s)
    ensures TrimmedAt(s, TrimEnd(t), |s| - |t|)
  {
    TrimmedAtOf(s, t, TrimEnd(t));
  }

  /** r, a prefix of the suffix t of s, sits in s between the whitespace both cuts dropped. */
  lemma TrimmedAtOf(s: string, t: string, r: string)
    requires |t| <= |s| && t == s[|s| - |t|..]
    requires forall i :: 0 <= i < |s| - |t| ==> IsWhitespace(s[i])
    requires |r| <= |t| && r == t[..|r|]
    requires forall i :: |r| <= i < |t| ==> IsWhitespace(t[i])
    ensures TrimmedAt(s, r, |s| - |t|)
  {
    var k := |s| - |t|;
    SliceOfSuffix(s, k, |r|);
    WhitespaceTail(s, k, |r|);
    assert TrimmedAt(s, r, k);
  }

  /** Whitespace after position m of the suffix s[k..] is whitespace after k + m in s. */
  lemma WhitespaceTail(s: string, k: nat, m: nat)
    requires k + m <= |s|
    requires forall i :: m <= i < |s| - k ==> IsWhitespace(s[k..][i])
    ensures forall i :: k + m <= i < |s| ==> IsWhitespace(s[i])
  {
    forall i | k + m <= i < |s| ensures IsWhitespace(s[i]) {
      assert s[i] == s[k..][i - k];
    }
  }

  /** `!s.trim()`: the string is empty or all whitespace. */
  predicate Blank(s: string) {
    forall i :: 0 <= i < |s| ==> IsWhitespace(s[i])
  }

  /** A string is blank exactly when trimming leaves nothing. */
  lemma BlankIffTrimEmpty(s: string)
    ensures Blank(s) <==> Trim(s) == ""
  {
  }

  /** `pieces.join(sep)`. */
  function Join(pieces: seq<string>, sep: char): string
    requires |pieces| >= 1
    decreases |pieces|
  {
    if |pieces| == 1 then pieces[0] else pieces[0] + [sep] + Join(pieces[1..], sep)
  }

  /** `s.split(sep)`: the separator-free pieces which, joined by the separator, give s back. */
  function Split(s: string, sep: char): (r: seq<string>)
    ensures |r| >= 1
    ensures forall i :: 0 <= i < |r| ==> sep !in r[i]
    ensures Join(r, sep) == s
    ensures sep !in s ==> r == [s]
    decreases |s|
  {
    if s == [] then [""]
    else
      var rest := Split(s[1..], sep);
      assert s == [s[0]] + s[1..];
      if s[0] == sep then
        assert ([""] + rest)[1..] == rest;
        [""] + rest
      else
        var r := [[s[0]] + rest[0]] + rest[1..];
        assert |rest| > 1 ==> r[1..] == rest[1..];
        assert Join(r, sep) == [s[0]] + Join(rest, sep);
        r
  }

  /** The i-th piece of a split, trimmed; a missing piece (JavaScript `undefined`) reads as "". */
  function Field(fields: seq<string>, i: nat): (r: string)
    ensures i < |fields| ==> r == Trim(fields[i])
    ensures i >= |fields| ==> r == ""
  {
    if i < |fields| then Trim(fields[i]) else ""
  }

  /** The index of the first pictographic character of `s`, as a regular-expression match finds it. */
  function FirstPictographic(s: string): (r: Option<nat>)
    ensures r.Some? ==> r.value < |s| && IsPictographic(s[r.value])
    ensures r.Some? ==> forall j :: 0 <= j < r.value ==> !IsPictographic(s[j])
    ensures r.None? <==> forall j :: 0 <= j < |s| ==> !IsPictographic(s[j])
    decreases |s|
  {
    if s == [] then None
    else if IsPictographic(s[0]) then Some(0)
    else match FirstPictographic(s[1..])
      case None => None
      case Some(i) => Some(i + 1)
  }

  /** Removes the character at index i. */
  function RemoveAt(s: string, i: nat): (r: string)
    requires i < |s|
    ensures |r| == |s| - 1
  {
    s[..i] + s[i + 1..]
  }

  /**
   * Lexicographic order by code point: a stand-in both for the default `Array.prototype.sort`
   * order, which compares UTF-16 code units (and so differs once a character beyond U+FFFF
   * meets one from U+E000 to U+FFFF), and for `localeCompare`.
   */
  predicate LexLe(a: string, b: string)
    decreases |a|
  {
    a == [] || (b != [] && (a[0] < b[0] || (a[0] == b[0] && LexLe(a[1..], b[1..]))))
  }

  lemma {:induction false} LexLeTotal(a: string, b: string)
    ensures LexLe(a, b) || LexLe(b, a)
    decreases |a|
  {
    if a != [] && b != [] && a[0] == b[0] {
      LexLeTotal(a[1..], b[1..]);
    }
  }

  lemma {:induction false} LexLeAntisymmetric(a: string, b: string)
    requires LexLe(a, b) && LexLe(b, a)
    ensures a == b
    decreases |a|
  {
    if a != [] && b != [] {
      LexLeAntisymmetric(a[1..], b[1..]);
      assert a == [a[0]] + a[1..];
      assert b == [b[0]] + b[1..];
    }
  }

  lemma {:induction false} LexLeTransitive(a: string, b: string, c: string)
    requires LexLe(a, b) && LexLe(b, c)
    ensures LexLe(a, c)
    decreases |a|
  {
    if a != [] && b != [] && c != [] && a[0] == b[0] && b[0] == c[0] {
      LexLeTransitive(a[1..], b[1..], c[1..]);
    }
  }

  /** `[a, b].sort().join('|')`: the two texts in ascending order around a `|`. */
  function PairKey(a: string, b: string): (k: string)
    ensures (k == a + "|" + b && LexLe(a, b)) || (k == b + "|" + a && LexLe(b, a))
    ensures LexLe(a, b) ==> k == a + "|" + b
    ensures !LexLe(a, b) ==> k == b + "|" + a
  {
    LexLeTotal(a, b);
    if LexLe(a, b) then a + "|" + b else b + "|" + a
  }

  /** The pair key does not depend on the order of the two texts. */
  lemma PairKeySymmetric(a: string, b: string)
    ensures PairKey(a, b) == PairKey(b, a)
  {
    LexLeTotal(a, b);
    if LexLe(a, b) && LexLe(b, a) {
      LexLeAntisymmetric(a, b);
    }
  }

  /** `s.replace(/\s/g, '-')` applied after `toLowerCase()`. */
  function IdOf(text: string): (id: string)
    ensures |id| == |text|
    ensures forall i :: 0 <= i < |text| ==>
      id[i] == if IsWhitespace(text[i]) then '-' else LowerChar(text[i])
    ensures forall i :: 0 <= i < |id| ==> !IsWhitespace(id[i])
  {
    var lower := Lower(text);
    seq(|lower|, i requires 0 <= i < |lower| => if IsWhitespace(lower[i]) then '-' else lower[i])
  }
}
