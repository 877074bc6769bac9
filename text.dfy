/** The JavaScript string operations the application relies on: `trim`,
    `includes`, `indexOf`, `split` on one character, ASCII `toLowerCase`, and
    number-to-decimal conversion in template literals. Characters are Unicode
    scalar values; JavaScript counts UTF-16 code units, which agrees on every
    character of the Basic Multilingual Plane. */
module Text {
  import opened Wrappers

  /** WhiteSpace and LineTerminator of ECMA-262, the characters `trim` removes. */
  predicate IsWhitespace(c: char) {
    c == ' ' || c == '\t' || c == '\n' || c == '\r' || c == '\U{000B}' || c == '\U{000C}'
    || c == '\U{00A0}' || c == '\U{FEFF}' || c == '\U{1680}' || ('\U{2000}' <= c <= '\U{200A}')
    || c == '\U{2028}' || c == '\U{2029}' || c == '\U{202F}' || c == '\U{205F}' || c == '\U{3000}'
  }

  predicate AllWhitespace(s: string) {
    forall k :: 0 <= k < |s| ==> IsWhitespace(s[k])
  }

  /** `s` with its leading whitespace removed: a suffix of `s` that starts with
      a non-whitespace character, everything dropped being whitespace. */
  function TrimStart(s: string): (r: string)
    ensures |r| <= |s| && r == s[|s| - |r|..]
    ensures AllWhitespace(s[..|s| - |r|])
    ensures r == [] || !IsWhitespace(r[0])
    ensures r == [] <==> AllWhitespace(s)
  {
    if s != [] && IsWhitespace(s[0]) then
      var r := TrimStart(s[1..]);
      TrimStartStep(s, r);
      r
    else s
  }

  lemma TrimStartStep(s: string, r: string)
    requires s != [] && IsWhitespace(s[0])
    requires |r| <= |s| - 1 && r == s[1..][|s| - 1 - |r|..]
    requires AllWhitespace(s[1..][..|s| - 1 - |r|])
    requires r == [] <==> AllWhitespace(s[1..])
    ensures r == s[|s| - |r|..]
    ensures AllWhitespace(s[..|s| - |r|])
    ensures r == [] <==> AllWhitespace(s)
  {
    assert s[..|s| - |r|] == [s[0]] + s[1..][..|s| - 1 - |r|];
    assert s[1..][|s| - 1 - |r|..] == s[|s| - |r|..];
  }

  /** `s` with its trailing whitespace removed: a prefix of `s` that ends with
      a non-whitespace character, everything dropped being whitespace. */
  function TrimEnd(s: string): (r: string)
    ensures |r| <= |s| && r == s[..|r|]
    ensures AllWhitespace(s[|r|..])
    ensures r == [] || !IsWhitespace(r[|r| - 1])
    ensures r == [] <==> AllWhitespace(s)
  {
    if s != [] && IsWhitespace(s[|s| - 1]) then
      var r := TrimEnd(s[..|s| - 1]);
      TrimEndStep(s, r);
      r
    else s
  }

  lemma TrimEndStep(s: string, r: string)
    requires s != [] && IsWhitespace(s[|s| - 1])
    requires |r| <= |s| - 1 && r == s[..|s| - 1][..|r|]
    requires AllWhitespace(s[..|s| - 1][|r|..])
    requires r == [] <==> AllWhitespace(s[..|s| - 1])
    ensures r == s[..|r|]
    ensures AllWhitespace(s[|r|..])
    ensures r == [] <==> AllWhitespace(s)
  {
    assert s[|r|..] == s[..|s| - 1][|r|..] + [s[|s| - 1]];
    assert s[..|s| - 1][..|r|] == s[..|r|];
  }

  /** JavaScript's `String.prototype.trim`. */
  function Trim(s: string): (r: string)
    ensures |r| <= |s|
    ensures r == [] <==> AllWhitespace(s)
    ensures r != [] ==> !IsWhitespace(r[0]) && !IsWhitespace(r[|r| - 1])
  {
    TrimEnd(TrimStart(s))
  }

  /** `pat` occurs in `s` starting at index `i`. */
  predicate OccursAt(s: string, pat: string, i: nat) {
    i + |pat| <= |s| && s[i..i + |pat|] == pat
  }

  /** `s.indexOf(pat, from)`: the first occurrence of `pat` at or after `from`. */
  function IndexOf(s: string, pat: string, from: nat): (r: Option<nat>)
    requires from <= |s|
    ensures r.Some? ==> from <= r.value && OccursAt(s, pat, r.value)
    ensures r.Some? ==> forall k :: from <= k < r.value ==> !OccursAt(s, pat, k)
    ensures r.None? ==> forall k :: from <= k ==> !OccursAt(s, pat, k)
    decreases |s| - from
  {
    if OccursAt(s, pat, from) then Some(from)
    else if from == |s| then None
    else IndexOf(s, pat, from + 1)
  }

  /** `s.includes(pat)`: some occurrence exists. */
  predicate Contains(s: string, pat: string) {
    exists k: nat | k <= |s| :: OccursAt(s, pat, k)
  }

  /** `s.includes(pat)` holds exactly when `s.indexOf(pat)` finds something. */
  lemma ContainsIff(s: string, pat: string)
    ensures Contains(s, pat) <==> IndexOf(s, pat, 0).Some?
  {
    var r := IndexOf(s, pat, 0);
    if r.Some? {
      assert OccursAt(s, pat, r.value);
    }
  }

  /** `pat` occurring at the start of `s` makes `s.includes(pat)` true. */
  lemma ContainsPrefix(s: string, pat: string, rest: string)
    requires s == pat + rest
    ensures Contains(s, pat)
  {
    assert s[0..|pat|] == pat;
    assert OccursAt(s, pat, 0);
  }

  /** A pattern found at some index is contained. */
  lemma ContainsAt(s: string, pat: string, i: nat)
    requires i + |pat| <= |s| && s[i..i + |pat|] == pat
    ensures Contains(s, pat)
  {
    assert OccursAt(s, pat, i);
  }

  /** A string contains every piece it was built around. */
  lemma ContainsMiddle(a: string, pat: string, b: string)
    ensures Contains(a + pat + b, pat)
  {
    var s := a + pat + b;
    assert s[|a|..|a| + |pat|] == pat;
    assert OccursAt(s, pat, |a|);
  }

  /** An occurrence survives putting text in front. */
  lemma ContainsAfterPrefix(p: string, s: string, pat: string)
    requires Contains(s, pat)
    ensures Contains(p + s, pat)
  {
    var k: nat :| k <= |s| && OccursAt(s, pat, k);
    assert (p + s)[|p| + k..|p| + k + |pat|] == s[k..k + |pat|];
    assert OccursAt(p + s, pat, |p| + k);
  }

  /** In `a + pat + b`, when no occurrence starts inside `a`, the first one is
      the `pat` right after `a`. */
  lemma IndexAfterPrefix(a: string, pat: string, b: string)
    requires forall k :: 0 <= k < |a| ==> !OccursAt(a + pat + b, pat, k)
    ensures IndexOf(a + pat + b, pat, 0) == Some(|a|)
  {
    var text := a + pat + b;
    assert text[|a|..|a| + |pat|] == pat;
    assert OccursAt(text, pat, |a|);
  }

  /** In `a + pat + b`, when `b` does not contain `pat`, no occurrence starts
      after that `pat`. */
  lemma NoneAfterPrefix(a: string, pat: string, b: string)
    requires !Contains(b, pat)
    ensures forall k :: |a| + |pat| <= k ==> !OccursAt(a + pat + b, pat, k)
  {
    var text := a + pat + b;
    var start := |a| + |pat|;
    forall k | start <= k ensures !OccursAt(text, pat, k) {
      if OccursAt(text, pat, k) {
        assert text[k..k + |pat|] == b[k - start..k - start + |pat|];
        assert OccursAt(b, pat, k - start);
      }
    }
  }

  /** A string whose every character differs from `c` and `d` lacks both. */
  lemma LacksBoth(s: string, c: char, d: char)
    requires forall i :: 0 <= i < |s| ==> s[i] != c && s[i] != d
    ensures c !in s && d !in s
  {
  }

  /** Dropping the first character of a concatenation drops it from the left
      part. */
  lemma DropFirstAppend(x: string, y: string)
    requires |x| > 0
    ensures (x + y)[1..] == x[1..] + y
  {
  }

  /** A character missing from two strings is missing from their concatenation. */
  lemma LacksAppend(a: string, b: string, c: char)
    requires c !in a && c !in b
    ensures c !in a + b
  {
  }

  /** A string lacking one of the pattern's characters does not contain it. */
  lemma MissingCharNotContained(s: string, pat: string, c: char)
    requires c in pat && c !in s
    ensures !Contains(s, pat)
  {
  }

  /** An occurrence in `p + s` starting in `s` would be one in `s`, so ruling
      out every start inside `p` rules out all of them. */
  lemma NotContainedAfterPrefix(p: string, s: string, pat: string)
    requires !Contains(s, pat)
    requires forall i :: 0 <= i < |p| ==> !OccursAt(p + s, pat, i)
    ensures !Contains(p + s, pat)
  {
    forall k: nat | |p| <= k <= |p + s| ensures !OccursAt(p + s, pat, k) {
      if k + |pat| <= |p + s| {
        assert (p + s)[k..k + |pat|] == s[k - |p|..k - |p| + |pat|];
        assert !OccursAt(s, pat, k - |p|);
      }
    }
  }

  /** No occurrence of `pat` starts inside `p` when every character of `p`
      equal to the pattern's first is followed, still inside `p`, by a
      character other than the pattern's second. */
  lemma NoOccurrenceStartsIn(p: string, s: string, pat: string)
    requires |pat| >= 2
    requires forall i :: 0 <= i < |p| && p[i] == pat[0] ==> i + 1 < |p| && p[i + 1] != pat[1]
    ensures forall i :: 0 <= i < |p| ==> !OccursAt(p + s, pat, i)
  {
    forall i | 0 <= i < |p| ensures !OccursAt(p + s, pat, i) {
      if i + |pat| <= |p + s| {
        var w := (p + s)[i..i + |pat|];
        assert w[0] == p[i];
        if p[i] == pat[0] {
          assert w[1] == p[i + 1];
        }
      }
    }
  }

  /** A pattern whose first character appears in `s` only at index 0, and does
      not occur there, does not occur at all. */
  lemma FirstCharOnlyAtStartNotContained(s: string, pat: string)
    requires |pat| > 0 && |s| > 0 && pat[0] !in s[1..]
    requires !OccursAt(s, pat, 0)
    ensures !Contains(s, pat)
  {
  }

  /** Appending three pieces one by one appends their concatenation. */
  lemma AppendRegroup(a: string, b: string, c: string, d: string)
    ensures a + b + c + d == a + (b + c + d)
  {
  }

  predicate StartsWith(s: string, prefix: string) {
    |prefix| <= |s| && s[..|prefix|] == prefix
  }

  /** A string is a prefix of itself followed by anything. */
  lemma StartsWithSelf(a: string, b: string)
    ensures StartsWith(a + b, a)
  {
    assert (a + b)[..|a|] == a;
  }

  /** A prefix stays a prefix when text is appended. */
  lemma StartsWithAppend(s: string, prefix: string, more: string)
    requires StartsWith(s, prefix)
    ensures StartsWith(s + more, prefix)
  {
    assert (s + more)[..|prefix|] == s[..|prefix|];
  }

  /** Text put before a string with a prefix gets that text and the prefix. */
  lemma PrefixBeforePrefix(p: string, q: string, e: string)
    requires StartsWith(e, q)
    ensures StartsWith(p + e, p + q)
  {
    assert (p + e)[..|p| + |q|] == p + e[..|q|];
  }

  lemma StartsWithTransitive(a: string, b: string, c: string)
    requires StartsWith(a, b) && StartsWith(b, c)
    ensures StartsWith(a, c)
  {
    assert a[..|c|] == a[..|b|][..|c|];
  }

  /** Index of the first `c` in `s`. */
  function FirstIndexOfChar(s: string, c: char): (i: nat)
    requires c in s
    ensures i < |s| && s[i] == c && c !in s[..i]
  {
    if s[0] == c then 0
    else
      var j := FirstIndexOfChar(s[1..], c);
      assert s[..j + 1] == [s[0]] + s[1..][..j];
      j + 1
  }

  /** `s.split(sep)` for a one-character separator: the pieces between separators,
      at least one piece, none containing `sep`. */
  function Split(s: string, sep: char): (r: seq<string>)
    ensures |r| >= 1
    ensures forall k :: 0 <= k < |r| ==> sep !in r[k]
    decreases |s|
  {
    if sep !in s then [s]
    else
      var i := FirstIndexOfChar(s, sep);
      [s[..i]] + Split(s[i + 1..], sep)
  }

  /** `parts.join(sep)`. */
  function Join(parts: seq<string>, sep: char): string
    requires |parts| >= 1
  {
    if |parts| == 1 then parts[0] else parts[0] + [sep] + Join(parts[1..], sep)
  }

  /** Splitting loses nothing: joining the pieces gives the string back. */
  lemma {:induction false} SplitJoin(s: string, sep: char)
    ensures Join(Split(s, sep), sep) == s
    decreases |s|
  {
    if sep in s {
      var i := FirstIndexOfChar(s, sep);
      var rest := Split(s[i + 1..], sep);
      SplitJoin(s[i + 1..], sep);
      JoinCons(s[..i], rest, sep);
      AroundIndex(s, i);
    }
  }

  lemma JoinCons(head: string, rest: seq<string>, sep: char)
    requires |rest| >= 1
    ensures Join([head] + rest, sep) == head + [sep] + Join(rest, sep)
  {
    assert ([head] + rest)[1..] == rest;
  }

  /** A string is what comes before index `i`, the character there, and what
      comes after. */
  lemma AroundIndex(s: string, i: nat)
    requires i < |s|
    ensures s == s[..i] + [s[i]] + s[i + 1..]
  {
  }

  /** ASCII `toLowerCase`. Every other character is kept; the only non-ASCII
      characters whose lower case is an ASCII letter are U+212A (to `k`) and
      U+0130 (to `i` plus a combining dot). */
  function ToLowerAscii(s: string): (r: string)
    ensures |r| == |s|
    ensures forall k :: 0 <= k < |s| ==> r[k] == LowerChar(s[k])
  {
    seq(|s|, k requires 0 <= k < |s| => LowerChar(s[k]))
  }

  /** One character of ASCII `toLowerCase`. */
  function LowerChar(c: char): char {
    if 'A' <= c <= 'Z' then (c as int + 32) as char else c
  }

  function DigitChar(d: nat): char
    requires d < 10
  {
    ['0', '1', '2', '3', '4', '5', '6', '7', '8', '9'][d]
  }

  function DigitValue(c: char): nat
    requires IsDigit(c)
  {
    (c as int) - ('0' as int)
  }

  predicate IsDigit(c: char) { '0' <= c <= '9' }

  /** Decimal digits of `n` as a template literal renders an integer. */
  function NatToString(n: nat): (r: string)
    ensures |r| >= 1 && forall k :: 0 <= k < |r| ==> IsDigit(r[k])
    ensures |r| > 1 ==> r[0] != '0'
  {
    if n < 10 then [DigitChar(n)] else NatToString(n / 10) + [DigitChar(n % 10)]
  }

  /** Value of a non-empty string of decimal digits. */
  function ParseDecimal(s: string): nat
    requires |s| >= 1 && forall k :: 0 <= k < |s| ==> IsDigit(s[k])
  {
    if |s| == 1 then DigitValue(s[0])
    else ParseDecimal(s[..|s| - 1]) * 10 + DigitValue(s[|s| - 1])
  }

  /** Rendering a number and reading it back gives the number. */
  lemma {:induction false} NatToStringRoundTrip(n: nat)
    ensures ParseDecimal(NatToString(n)) == n
  {
    if n >= 10 {
      NatToStringRoundTrip(n / 10);
      var s := NatToString(n);
      assert s[..|s| - 1] == NatToString(n / 10);
    }
  }

  /** The rendering holds only digits and the sign. */
  lemma IntToStringChars(i: int)
    ensures forall k :: 0 <= k < |IntToString(i)| ==> IntToString(i)[k] == '-' || IsDigit(IntToString(i)[k])
  {
    if i < 0 {
      assert IntToString(i) == "-" + NatToString(-i);
    }
  }

  /** Template-literal rendering of an integer, with a minus sign when negative. */
  function IntToString(i: int): (r: string)
    ensures |r| >= 1
    ensures (i < 0) <==> r[0] == '-'
  {
    if i < 0 then "-" + NatToString(-i) else NatToString(i)
  }
}
