/** String operations of the JavaScript runtime that the game engine relies on:
    `includes`, `startsWith`, `toLowerCase`/`toUpperCase` (ASCII letters only),
    `trim`, `split(/\s+/)`, `join`, number-to-string and the regex word boundary `\b`. */
module Text {

  /** `s.startsWith(p)` */
  predicate IsPrefix(p: string, s: string) {
    |p| <= |s| && s[..|p|] == p
  }

  /** `s.includes(p)` */
  predicate Contains(s: string, p: string)
    decreases |s|
  {
    IsPrefix(p, s) || (|s| > 0 && Contains(s[1..], p))
  }

  /** `p` occurs in `s` starting at position `i` */
  predicate OccursAt(s: string, p: string, i: int) {
    0 <= i && i + |p| <= |s| && s[i..i + |p|] == p
  }

  /** `includes` agrees with the textbook definition: `p` occurs at some position of `s`. */
  lemma {:induction false} ContainsIffOccurs(s: string, p: string)
    ensures Contains(s, p) <==> exists i :: OccursAt(s, p, i)
    decreases |s|
  {
    if IsPrefix(p, s) {
      assert OccursAt(s, p, 0);
    } else if |s| > 0 {
      ContainsIffOccurs(s[1..], p);
      if Contains(s[1..], p) {
        var i :| OccursAt(s[1..], p, i);
        assert OccursAt(s, p, i + 1);
      }
      if exists i :: OccursAt(s, p, i) {
        var i :| OccursAt(s, p, i);
        assert i != 0;
        assert OccursAt(s[1..], p, i - 1);
      }
    }
  }

  /** Whatever surrounds a piece of text, the whole contains the piece. */
  lemma ContainsInfix(a: string, p: string, b: string)
    ensures Contains(a + p + b, p)
  {
    var s := a + p + b;
    assert OccursAt(s, p, |a|);
    ContainsIffOccurs(s, p);
  }

  /** A text contains its own ending. */
  lemma ContainsEnd(a: string, p: string)
    ensures Contains(a + p, p)
  {
    assert a + p + [] == a + p;
    ContainsInfix(a, p, []);
  }

  function LowerChar(c: char): char {
    if 'A' <= c <= 'Z' then (c as int + 32) as char else c
  }

  function UpperChar(c: char): char {
    if 'a' <= c <= 'z' then (c as int - 32) as char else c
  }

  /** `toLowerCase()`, restricted to ASCII letters */
  function Lower(s: string): (r: string)
    ensures |r| == |s|
    ensures forall i :: 0 <= i < |r| ==> !('A' <= r[i] <= 'Z')
    ensures forall i :: 0 <= i < |s| && 'A' <= s[i] <= 'Z' ==> r[i] as int == s[i] as int + ('a' as int - 'A' as int)
    ensures forall i :: 0 <= i < |s| && !('A' <= s[i] <= 'Z') ==> r[i] == s[i]
  {
    seq(|s|, i requires 0 <= i < |s| => LowerChar(s[i]))
  }

  /** Lowering twice changes nothing more. */
  lemma LowerIdempotent(s: string)
    ensures Lower(Lower(s)) == Lower(s)
  {
    assert forall i :: 0 <= i < |s| ==> Lower(Lower(s))[i] == Lower(s)[i];
  }

  /** `toUpperCase()`, restricted to ASCII letters */
  function Upper(s: string): (r: string)
    ensures |r| == |s|
    ensures forall i :: 0 <= i < |r| ==> !('a' <= r[i] <= 'z')
    ensures forall i :: 0 <= i < |s| && 'a' <= s[i] <= 'z' ==> r[i] as int == s[i] as int - ('a' as int - 'A' as int)
    ensures forall i :: 0 <= i < |s| && !('a' <= s[i] <= 'z') ==> r[i] == s[i]
  {
    seq(|s|, i requires 0 <= i < |s| => UpperChar(s[i]))
  }

  /** The characters JavaScript's `trim` removes and `\s` matches:
      WhiteSpace (tab, vertical tab, form feed, space, no-break space, byte order mark and the
      space separators of Unicode) and LineTerminator (line feed, carriage return, U+2028, U+2029).
      Tab through carriage return and U+2000 through U+200A are contiguous ranges. */
  predicate IsSpace(c: char) {
    ('\t' <= c <= '\r') || c == ' ' || c == '\U{00A0}' || c == '\U{1680}' || ('\U{2000}' <= c <= '\U{200A}') ||
    c == '\U{2028}' || c == '\U{2029}' || c == '\U{202F}' || c == '\U{205F}' || c == '\U{3000}' || c == '\U{FEFF}'
  }

  /** Every character of `s` from index `lo` up to (not including) `hi` is whitespace. */
  predicate Blank(s: string, lo: int, hi: int) {
    forall k :: lo <= k < hi && 0 <= k < |s| ==> IsSpace(s[k])
  }

  /** The first index from `i` on that does not hold whitespace, or `|s|`. */
  function SkipSpace(s: string, i: nat): (j: nat)
    requires i <= |s|
    ensures i <= j <= |s| && Blank(s, i, j)
    ensures j == |s| || !IsSpace(s[j])
    decreases |s| - i
  {
    if i < |s| && IsSpace(s[i]) then SkipSpace(s, i + 1) else i
  }

  /** Walking back from `j`, but not past `lo`: the first index whose preceding character is
      not whitespace, or `lo`. */
  function SkipSpaceBack(s: string, lo: nat, j: nat): (i: nat)
    requires lo <= j <= |s|
    ensures lo <= i <= j && Blank(s, i, j)
    ensures i == lo || !IsSpace(s[i - 1])
  {
    if j > lo && IsSpace(s[j - 1]) then SkipSpaceBack(s, lo, j - 1) else j
  }

  /** `trim()`: the result is a contiguous piece of the input, everything cut away is whitespace,
      and the result neither starts nor ends with whitespace. */
  function Trim(s: string): (r: string)
    ensures exists i, j :: TrimmedAt(s, r, i, j)
    ensures r == [] || (!IsSpace(r[0]) && !IsSpace(r[|r| - 1]))
  {
    var i := SkipSpace(s, 0);
    var j := SkipSpaceBack(s, i, |s|);
    assert TrimmedAt(s, s[i..j], i, j);
    s[i..j]
  }

  /** `r` is `s[i..j]` and everything outside that piece is whitespace */
  predicate TrimmedAt(s: string, r: string, i: int, j: int) {
    0 <= i <= j <= |s| && r == s[i..j] && Blank(s, 0, i) && Blank(s, j, |s|)
  }

  /** Trimming twice changes nothing more. */
  lemma TrimIdempotent(s: string)
    ensures Trim(Trim(s)) == Trim(s)
  {
    var r := Trim(s);
    assert SkipSpace(r, 0) == 0;
    assert SkipSpaceBack(r, 0, |r|) == |r|;
    assert r[0..|r|] == r;
  }

  /** Number of maximal whitespace runs in `s`; `prevSpace` says whether the character
      before `s` was whitespace. */
  function SpaceRuns(s: string, prevSpace: bool): nat
    decreases |s|
  {
    if s == [] then 0
    else (if IsSpace(s[0]) && !prevSpace then 1 else 0) + SpaceRuns(s[1..], IsSpace(s[0]))
  }

  /** `s.split(/\s+/).length`: one piece more than there are whitespace runs, since every
      run separates two pieces (an empty one when the run is at either end). */
  function SplitCount(s: string): (r: nat)
    ensures r == 1 + RunStartsBelow(s, |s|)
    ensures r <= |s| + 1
  {
    SpaceRunsBound(s, false);
    SpaceRunsCountsStarts(s, 0);
    assert s[0..] == s;
    1 + SpaceRuns(s, false)
  }

  /** A whitespace run starts at position `k` of `s`. */
  predicate RunStart(s: string, k: int) {
    0 <= k < |s| && IsSpace(s[k]) && (k == 0 || !IsSpace(s[k - 1]))
  }

  /** The number of positions below `n` where a whitespace run starts. */
  function RunStartsBelow(s: string, n: nat): nat
    requires n <= |s|
  {
    if n == 0 then 0 else RunStartsBelow(s, n - 1) + (if RunStart(s, n - 1) then 1 else 0)
  }

  /** Scanning from position `k` counts the run starts at or after `k`. */
  lemma {:induction false} SpaceRunsCountsStarts(s: string, k: nat)
    requires k <= |s|
    ensures RunStartsBelow(s, k) + SpaceRuns(s[k..], k > 0 && IsSpace(s[k - 1])) == RunStartsBelow(s, |s|)
    decreases |s| - k
  {
    if k < |s| {
      assert s[k..][0] == s[k];
      assert s[k..][1..] == s[k + 1..];
      SpaceRunsCountsStarts(s, k + 1);
    }
  }

  lemma {:induction false} SpaceRunsBound(s: string, prevSpace: bool)
    ensures SpaceRuns(s, prevSpace) <= |s|
    decreases |s|
  {
    if s != [] {
      SpaceRunsBound(s[1..], IsSpace(s[0]));
    }
  }

  /** `/\d/.test(s)` */
  predicate HasDigit(s: string) {
    exists i :: 0 <= i < |s| && '0' <= s[i] <= '9'
  }

  /** `xs.join(sep)` */
  function Join(xs: seq<string>, sep: string): string {
    if xs == [] then ""
    else if |xs| == 1 then xs[0]
    else xs[0] + sep + Join(xs[1..], sep)
  }

  function DigitChar(d: nat): char
    requires d < 10
  {
    ('0' as int + d) as char
  }

  function NatToString(n: nat): (r: string)
    ensures |r| >= 1
    ensures forall i :: 0 <= i < |r| ==> '0' <= r[i] <= '9'
    ensures n >= 10 ==> r[0] != '0'
  {
    if n < 10 then [DigitChar(n)] else NatToString(n / 10) + [DigitChar(n % 10)]
  }

  /** The number a string of decimal digits denotes. */
  function DecimalValue(s: string): int {
    if s == [] then 0 else 10 * DecimalValue(s[..|s| - 1]) + (s[|s| - 1] as int - '0' as int)
  }

  /** The decimal text of `n` denotes `n`. */
  lemma {:induction false} NatToStringValue(n: nat)
    ensures DecimalValue(NatToString(n)) == n
  {
    var r := NatToString(n);
    if n >= 10 {
      NatToStringValue(n / 10);
      assert r[..|r| - 1] == NatToString(n / 10);
    }
  }

  /** `String(i)` for an integer */
  function IntToString(i: int): string {
    if i < 0 then "-" + NatToString(-i) else NatToString(i)
  }

  /** `\w` of a JavaScript regular expression without the `u` flag */
  predicate IsWordChar(c: char) {
    ('a' <= c <= 'z') || ('A' <= c <= 'Z') || ('0' <= c <= '9') || c == '_'
  }

  predicate IsWordAt(s: string, k: int) {
    0 <= k < |s| && IsWordChar(s[k])
  }

  /** `\b` holds at position `k` of `s` */
  predicate Boundary(s: string, k: int) {
    IsWordAt(s, k - 1) != IsWordAt(s, k)
  }

  /** `s.match(new RegExp("\\b" + d + "\\b"))` is non-null, for a pattern `d` without regex
      metacharacters: `d` occurs with a word boundary on both sides. */
  predicate StandaloneOccurs(s: string, d: string) {
    exists k :: 0 <= k <= |s| && StandaloneAt(s, d, k)
  }

  predicate StandaloneAt(s: string, d: string, k: int) {
    OccursAt(s, d, k) && Boundary(s, k) && Boundary(s, k + |d|)
  }

  /** The patterns of `pats` that occur in `s`, in their order: the push loop
      `for (const p of pats) if (s.includes(p)) found.push(p)`. */
  function Found(s: string, pats: seq<string>): (r: seq<string>)
    ensures forall p :: p in r <==> p in pats && Contains(s, p)
    ensures r == [] <==> forall p :: p in pats ==> !Contains(s, p)
    ensures |r| <= |pats|
  {
    if pats == [] then []
    else
      var rest := Found(s, pats[1..]);
      assert forall p :: p in pats <==> p == pats[0] || p in pats[1..];
      if Contains(s, pats[0]) then [pats[0]] + rest else rest
  }

  /** The words of `words` whose lowercase form occurs in `s`, in their order:
      `for (const w of words) if (s.includes(w.toLowerCase())) found.push(w)`. */
  function FoundFolded(s: string, words: seq<string>): (r: seq<string>)
    ensures forall w :: w in r <==> w in words && Contains(s, Lower(w))
    ensures r == [] <==> forall w :: w in words ==> !Contains(s, Lower(w))
    ensures |r| <= |words|
  {
    if words == [] then []
    else (if Contains(s, Lower(words[0])) then [words[0]] else []) + FoundFolded(s, words[1..])
  }

  /** One step of the search: the first pattern, if found, then the rest's finds. */
  lemma FoundStep(s: string, pats: seq<string>)
    requires pats != []
    ensures Found(s, pats) == (if Contains(s, pats[0]) then [pats[0]] else []) + Found(s, pats[1..])
  {
  }

  /** Searching a concatenated list reports the first list's finds, then the second's: one
      entry per listed pattern found, in list order. */
  lemma {:induction false} FoundAppend(s: string, a: seq<string>, b: seq<string>)
    ensures Found(s, a + b) == Found(s, a) + Found(s, b)
  {
    if a == [] {
      assert a + b == b;
    } else {
      var head := if Contains(s, a[0]) then [a[0]] else [];
      calc {
        Found(s, a + b);
      == { FoundStep(s, a + b); assert (a + b)[0] == a[0]; assert (a + b)[1..] == a[1..] + b; }
        head + Found(s, a[1..] + b);
      == { FoundAppend(s, a[1..], b); }
        head + (Found(s, a[1..]) + Found(s, b));
      == { FoundStep(s, a); }
        Found(s, a) + Found(s, b);
      }
    }
  }

  /** A one-word list is reported exactly when the word is found. */
  lemma FoundSingle(s: string, p: string)
    ensures Found(s, [p]) == if Contains(s, p) then [p] else []
  {
    assert [p][1..] == [];
  }

  /** Folded search of a concatenated list reports the first list's finds, then the second's. */
  lemma {:induction false} FoundFoldedAppend(s: string, a: seq<string>, b: seq<string>)
    ensures FoundFolded(s, a + b) == FoundFolded(s, a) + FoundFolded(s, b)
  {
    if a != [] {
      assert (a + b)[1..] == a[1..] + b;
      FoundFoldedAppend(s, a[1..], b);
    } else {
      assert a + b == b;
    }
  }

  /** `pats.some(p => s.includes(p))` */
  predicate SomeFound(s: string, pats: seq<string>) {
    exists i :: 0 <= i < |pats| && Contains(s, pats[i])
  }

  /** Each item of `xs` rendered as `prefix"item"`. */
  function Quoted(prefix: string, xs: seq<string>): (r: seq<string>)
    ensures |r| == |xs|
    ensures forall i :: 0 <= i < |xs| ==> IsPrefix(prefix, r[i]) && Contains(r[i], xs[i])
  {
    var r := seq(|xs|, i requires 0 <= i < |xs| => prefix + "\"" + xs[i] + "\"");
    assert forall i :: 0 <= i < |xs| ==> IsPrefix(prefix, r[i]) && Contains(r[i], xs[i]) by {
      forall i | 0 <= i < |xs| ensures IsPrefix(prefix, r[i]) && Contains(r[i], xs[i]) {
        assert r[i] == (prefix + "\"") + xs[i] + "\"";
        ContainsInfix(prefix + "\"", xs[i], "\"");
      }
    }
    r
  }
}
