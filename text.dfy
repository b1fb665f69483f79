/** Character classes and the Python `str` operations the core relies on
    (`strip`, `lower`, `in`, `splitlines`, `"\n".join`, `replace`). Characters
    are Unicode scalar values; case mapping and the digit and word classes are
    ASCII. */
module Text {

  // ---------------------------------------------------------------------
  // Character classes
  // ---------------------------------------------------------------------

  /** Python's `str.isspace()`, which is also what the regex class `\s` matches. */
  predicate IsSpace(c: char) {
    c == ' ' || ('\t' <= c <= '\r') || ('\U{1c}' <= c <= '\U{1f}') ||
    c == '\U{85}' || c == '\U{a0}' || c == '\U{1680}' || ('\U{2000}' <= c <= '\U{200a}') ||
    c == '\U{2028}' || c == '\U{2029}' || c == '\U{202f}' || c == '\U{205f}' || c == '\U{3000}'
  }

  /** The characters at which `str.splitlines()` ends a line. */
  predicate IsLineBreak(c: char) {
    c == '\n' || c == '\r' || c == '\U{0b}' || c == '\U{0c}' || ('\U{1c}' <= c <= '\U{1e}') ||
    c == '\U{85}' || c == '\U{2028}' || c == '\U{2029}'
  }

  predicate IsUpper(c: char) { 'A' <= c <= 'Z' }
  predicate IsLower(c: char) { 'a' <= c <= 'z' }
  predicate IsLetter(c: char) { IsUpper(c) || IsLower(c) }
  predicate IsDigit(c: char) { '0' <= c <= '9' }

  /** The regex word class `\w`: letters, digits and the underscore. */
  predicate IsWordChar(c: char) { IsLetter(c) || IsDigit(c) || c == '_' }

  function LowerChar(c: char): char {
    if IsUpper(c) then (c as int + 32) as char else c
  }

  function UpperChar(c: char): char {
    if IsLower(c) then (c as int - 32) as char else c
  }

  /** `str.lower()`. */
  function Lower(s: string): string {
    seq(|s|, i requires 0 <= i < |s| => LowerChar(s[i]))
  }

  // ---------------------------------------------------------------------
  // Substrings
  // ---------------------------------------------------------------------

  predicate StartsWith(s: string, prefix: string) {
    |prefix| <= |s| && s[..|prefix|] == prefix
  }

  predicate EndsWith(s: string, suffix: string) {
    |suffix| <= |s| && s[|s| - |suffix|..] == suffix
  }

  predicate OccursAt(s: string, sub: string, i: nat) {
    i + |sub| <= |s| && s[i..i + |sub|] == sub
  }

  /** Python's `sub in s`. */
  predicate Contains(s: string, sub: string) {
    exists i: nat :: i <= |s| && OccursAt(s, sub, i)
  }

  // ---------------------------------------------------------------------
  // Stripping
  // ---------------------------------------------------------------------

  /** `s.lstrip(chars)` where `drop` says which characters are in `chars`. */
  function StripStartWhere(s: string, drop: char -> bool): (r: string)
    ensures |r| <= |s| && r == s[|s| - |r|..]
    ensures r == [] || !drop(r[0])
    ensures forall k :: 0 <= k < |s| - |r| ==> drop(s[k])
  {
    if s != [] && drop(s[0]) then
      var r := StripStartWhere(s[1..], drop);
      assert forall k :: 1 <= k < |s| ==> s[1..][k - 1] == s[k];
      r
    else s
  }

  /** `s.rstrip(chars)`. */
  function StripEndWhere(s: string, drop: char -> bool): (r: string)
    ensures |r| <= |s| && r == s[..|r|]
    ensures r == [] || !drop(r[|r| - 1])
    ensures forall k :: |r| <= k < |s| ==> drop(s[k])
  {
    if s != [] && drop(s[|s| - 1]) then StripEndWhere(s[..|s| - 1], drop) else s
  }

  /** `s.strip(chars)`. */
  function StripWhere(s: string, drop: char -> bool): string {
    StripEndWhere(StripStartWhere(s, drop), drop)
  }

  /** `lstrip` removes a prefix made of dropped characters and nothing after it. */
  lemma {:induction false} StripStartPrefix(p: string, t: string, drop: char -> bool)
    requires forall k :: 0 <= k < |p| ==> drop(p[k])
    requires t == [] || !drop(t[0])
    ensures StripStartWhere(p + t, drop) == t
  {
    if p != [] {
      assert (p + t)[1..] == p[1..] + t;
      StripStartPrefix(p[1..], t, drop);
    } else {
      assert p + t == t;
    }
  }

  /** `rstrip` removes a suffix made of dropped characters and nothing before it. */
  lemma {:induction false} StripEndSuffix(t: string, q: string, drop: char -> bool)
    requires forall k :: 0 <= k < |q| ==> drop(q[k])
    requires t == [] || !drop(t[|t| - 1])
    ensures StripEndWhere(t + q, drop) == t
  {
    if q != [] {
      assert (t + q)[..|t + q| - 1] == t + q[..|q| - 1];
      StripEndSuffix(t, q[..|q| - 1], drop);
    } else {
      assert t + q == t;
    }
  }

  /** `s.strip()` with no argument: surrounding whitespace removed. */
  function Strip(s: string): (r: string)
    ensures |r| <= |s|
    ensures r == [] || (!IsSpace(r[0]) && !IsSpace(r[|r| - 1]))
  {
    StripWhere(s, IsSpace)
  }

  /** Stripping only drops characters from the ends. */
  lemma StripWithin(s: string)
    ensures forall c :: c in Strip(s) ==> c in s
  {
    var t := StripStartWhere(s, IsSpace);
    var r := Strip(s);
    assert t == s[|s| - |t|..];
    assert r == t[..|r|];
    forall c | c in r ensures c in s {
      var k :| 0 <= k < |r| && r[k] == c;
      assert c == s[|s| - |t| + k];
    }
  }

  predicate IsBlank(s: string) {
    forall k :: 0 <= k < |s| ==> IsSpace(s[k])
  }

  /** `not s.strip()` holds exactly for whitespace-only text. */
  lemma StripEmptyIffBlank(s: string)
    ensures Strip(s) == [] <==> IsBlank(s)
  {
    var t := StripStartWhere(s, IsSpace);
    if t != [] {
      assert !IsSpace(t[0]);
      assert |StripEndWhere(t, IsSpace)| > 0;
      assert !IsSpace(s[|s| - |t|]);
    }
  }

  /** Stripping a stripped string changes nothing. */
  lemma StripIdempotent(s: string)
    ensures Strip(Strip(s)) == Strip(s)
  {
    var r := Strip(s);
    if r != [] {
      assert StripStartWhere(r, IsSpace) == r;
      assert StripEndWhere(r, IsSpace) == r;
    }
  }

  // ---------------------------------------------------------------------
  // Lines
  // ---------------------------------------------------------------------

  /** Index of the first line break at or after `i`, or `|s|`. */
  function LineEnd(s: string, i: nat): (e: nat)
    requires i <= |s|
    ensures i <= e <= |s|
    ensures e < |s| ==> IsLineBreak(s[e])
    ensures forall k :: i <= k < e ==> !IsLineBreak(s[k])
    decreases |s| - i
  {
    if i == |s| || IsLineBreak(s[i]) then i else LineEnd(s, i + 1)
  }

  /** The width of the line break at `i`: "\r\n" counts as one break. */
  function BreakWidth(s: string, i: nat): nat
    requires i < |s|
  {
    if s[i] == '\r' && i + 1 < |s| && s[i + 1] == '\n' then 2 else 1
  }

  /** Python's `str.splitlines()`: no trailing empty line, "" gives no lines. */
  function SplitLines(s: string): (lines: seq<string>)
    ensures forall k, c :: 0 <= k < |lines| && c in lines[k] ==> !IsLineBreak(c)
    decreases |s|
  {
    if s == [] then []
    else
      var e := LineEnd(s, 0);
      if e == |s| then [s]
      else [s[..e]] + SplitLines(s[e + BreakWidth(s, e)..])
  }

  /** `sep.join(parts)`. */
  function Join(sep: string, parts: seq<string>): string {
    if parts == [] then []
    else if |parts| == 1 then parts[0]
    else parts[0] + sep + Join(sep, parts[1..])
  }

  predicate NoLineBreaks(s: string) {
    forall c :: c in s ==> !IsLineBreak(c)
  }

  /** Joining lines with "\n" and splitting again gives the lines back,
      unless the last one is empty (splitlines drops a trailing empty line). */
  lemma {:induction false} SplitJoinRoundTrip(lines: seq<string>)
    requires forall k :: 0 <= k < |lines| ==> NoLineBreaks(lines[k])
    requires lines == [] || lines[|lines| - 1] != []
    ensures SplitLines(Join("\n", lines)) == lines
  {
    if |lines| == 1 {
      var s := lines[0];
      assert forall k :: 0 <= k < |s| ==> !IsLineBreak(s[k]) by {
        forall k | 0 <= k < |s| ensures !IsLineBreak(s[k]) {
          assert s[k] in s;
        }
      }
    } else if |lines| > 1 {
      var head, rest := lines[0], Join("\n", lines[1..]);
      var s := head + "\n" + rest;
      assert Join("\n", lines) == s;
      assert forall k :: 0 <= k < |head| ==> !IsLineBreak(s[k]) by {
        forall k | 0 <= k < |head| ensures !IsLineBreak(s[k]) {
          assert s[k] == head[k] && head[k] in head;
        }
      }
      assert s[|head|] == '\n';
      assert LineEnd(s, 0) == |head|;
      assert BreakWidth(s, |head|) == 1;
      assert s[|head| + 1..] == rest;
      assert s[..|head|] == head;
      JoinNonEmpty(lines[1..]);
      SplitJoinRoundTrip(lines[1..]);
    }
  }

  lemma {:induction false} JoinNonEmpty(lines: seq<string>)
    requires lines != [] && lines[|lines| - 1] != []
    ensures Join("\n", lines) != []
  {
    if |lines| > 1 {
      JoinNonEmpty(lines[1..]);
    }
  }

  // ---------------------------------------------------------------------
  // Replacement, numbers, tokens
  // ---------------------------------------------------------------------

  /** `s.replace(pat, rep)`: every non-overlapping occurrence, left to right. */
  function ReplaceAll(s: string, pat: string, rep: string): string
    requires pat != []
    decreases |s|
  {
    if |s| < |pat| then s
    else if s[..|pat|] == pat then rep + ReplaceAll(s[|pat|..], pat, rep)
    else [s[0]] + ReplaceAll(s[1..], pat, rep)
  }

  /** A string in which `pat` does not occur is left alone by `replace`. */
  lemma {:induction false} ReplaceAbsent(s: string, pat: string, rep: string)
    requires pat != [] && !Contains(s, pat)
    ensures ReplaceAll(s, pat, rep) == s
    decreases |s|
  {
    if |s| >= |pat| {
      assert !OccursAt(s, pat, 0);
      assert !Contains(s[1..], pat) by {
        forall i: nat | i <= |s[1..]| ensures !OccursAt(s[1..], pat, i) {
          assert !OccursAt(s, pat, i + 1);
          if i + |pat| <= |s[1..]| {
            assert s[1..][i..i + |pat|] == s[i + 1..i + 1 + |pat|];
          }
        }
      }
      ReplaceAbsent(s[1..], pat, rep);
    }
  }

  function DigitChar(d: nat): char
    requires d < 10
  {
    ('0' as int + d) as char
  }

  /** `str(n)` for a natural number. */
  function NatToString(n: nat): (r: string)
    ensures r != [] && forall c :: c in r ==> IsDigit(c)
  {
    if n < 10 then [DigitChar(n)] else NatToString(n / 10) + [DigitChar(n % 10)]
  }

  lemma DigitCharInjective(a: nat, b: nat)
    requires a < 10 && b < 10 && DigitChar(a) == DigitChar(b)
    ensures a == b
  {
  }

  /** Different numbers print differently. */
  lemma {:induction false} NatToStringInjective(m: nat, n: nat)
    requires NatToString(m) == NatToString(n)
    ensures m == n
    decreases m + n
  {
    var s := NatToString(m);
    if m < 10 && n < 10 {
      DigitCharInjective(m, n);
    } else if m >= 10 && n >= 10 {
      var a, b := NatToString(m / 10), NatToString(n / 10);
      assert s == a + [DigitChar(m % 10)] && s == b + [DigitChar(n % 10)];
      assert |a| == |b|;
      assert a == s[..|a|] && b == s[..|b|];
      assert DigitChar(m % 10) == s[|s| - 1] == DigitChar(n % 10);
      DigitCharInjective(m % 10, n % 10);
      NatToStringInjective(m / 10, n / 10);
    }
  }

  /** Python's `<` on strings: code point by code point, a proper prefix first. */
  predicate StrLess(a: string, b: string) {
    if a == [] then b != []
    else if b == [] then false
    else a[0] < b[0] || (a[0] == b[0] && StrLess(a[1..], b[1..]))
  }

  /** Strictly increasing, as `sorted` leaves a set of strings. */
  predicate Sorted(ss: seq<string>) {
    forall i, j :: 0 <= i < j < |ss| ==> StrLess(ss[i], ss[j])
  }

  /** The value of a run of decimal digits, most significant first. */
  function DigitsValue(s: string): nat
    requires forall c :: c in s ==> IsDigit(c)
  {
    if s == [] then 0
    else
      assert s[|s| - 1] in s && IsDigit(s[|s| - 1]);
      DigitsValue(s[..|s| - 1]) * 10 + (s[|s| - 1] as int - '0' as int)
  }

  /** Reading back a printed number gives the number. */
  lemma {:induction false} DigitsValueOfNatToString(n: nat)
    ensures DigitsValue(NatToString(n)) == n
  {
    var s := NatToString(n);
    if n >= 10 {
      assert s[..|s| - 1] == NatToString(n / 10);
      DigitsValueOfNatToString(n / 10);
    }
  }

  /** The part before the first `c`, as `s.split(c, 1)[0]` gives it. */
  function BeforeFirst(s: string, c: char): (r: string)
    ensures |r| <= |s| && r == s[..|r|] && c !in r
    ensures |r| < |s| ==> s[|r|] == c
  {
    if s == [] || s[0] == c then [] else [s[0]] + BeforeFirst(s[1..], c)
  }

  /** The text before the first separator, when the separator follows it. */
  lemma {:induction false} BeforeFirstSplit(a: string, c: char, b: string)
    requires c !in a
    ensures BeforeFirst(a + [c] + b, c) == a
  {
    if a != [] {
      assert (a + [c] + b)[1..] == a[1..] + [c] + b;
      BeforeFirstSplit(a[1..], c, b);
    }
  }

  /** `s.split()[0]` for a string that does not start with whitespace. */
  function FirstToken(s: string): (r: string)
    ensures |r| <= |s| && r == s[..|r|]
    ensures forall c :: c in r ==> !IsSpace(c)
    ensures |r| < |s| ==> IsSpace(s[|r|])
  {
    if s == [] || IsSpace(s[0]) then [] else [s[0]] + FirstToken(s[1..])
  }
}
