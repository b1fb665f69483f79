/** The regular expressions of the core, each written out as the match the
    regex engine finds when it starts at a given position (leftmost, greedy,
    with backtracking), plus `re.search` and `re.finditer` over them. */
module Patterns {
  import opened Wrappers
  import opened Text

  /** The regexes used by the privacy bank and the placeholder vault. Keyword
      stems and suffixes, and phrases, are lower-case; matching ignores case. */
  datatype Pattern =
    | Keyword(stem: string, suffix: string)  // \b<stem>(<suffix>)?\b
    | Phrase(text: string)                   // <text>
    | CardDigits                             // (?:\d[ -]?){13,16}
    | EmailShape                             // [A-Z0-9._%+-]+@[A-Z0-9.-]+\.[A-Z]{2,}
    | SsnShape                               // \b\d{3}-\d{2}-\d{4}\b
    | PhoneShape                             // \+?\d[\d\-\s]{7,}\d

  // ---------------------------------------------------------------------
  // Character classes and runs
  // ---------------------------------------------------------------------

  predicate IsEmailLocalChar(c: char) {
    IsLetter(c) || IsDigit(c) || c == '.' || c == '_' || c == '%' || c == '+' || c == '-'
  }

  predicate IsEmailDomainChar(c: char) {
    IsLetter(c) || IsDigit(c) || c == '.' || c == '-'
  }

  predicate IsCardSeparator(c: char) { c == ' ' || c == '-' }

  predicate IsPhoneBodyChar(c: char) { IsDigit(c) || c == '-' || IsSpace(c) }

  /** The end of the longest run of `cls` characters starting at `i`. */
  function RunEnd(s: string, i: nat, cls: char -> bool): (e: nat)
    requires i <= |s|
    ensures i <= e <= |s|
    ensures forall k :: i <= k < e ==> cls(s[k])
    ensures e < |s| ==> !cls(s[e])
    decreases |s| - i
  {
    if i == |s| || !cls(s[i]) then i else RunEnd(s, i + 1, cls)
  }

  predicate WordAt(s: string, i: int) {
    0 <= i < |s| && IsWordChar(s[i])
  }

  /** The regex `\b` at position `i`. */
  predicate Boundary(s: string, i: int) {
    WordAt(s, i - 1) != WordAt(s, i)
  }

  /** `s[i..]` starts with `w`, ignoring case (`w` is lower-case). */
  predicate LowerEqAt(s: string, i: nat, w: string) {
    i + |w| <= |s| && forall k :: 0 <= k < |w| ==> LowerChar(s[i + k]) == w[k]
  }

  // ---------------------------------------------------------------------
  // One attempt per pattern
  // ---------------------------------------------------------------------

  /** `\b<stem>(<suffix>)?\b`: the optional group is tried first. */
  function KeywordEnd(s: string, i: nat, stem: string, suffix: string): Option<nat> {
    var full := stem + suffix;
    if suffix != [] && LowerEqAt(s, i, full) && Boundary(s, i) && Boundary(s, i + |full|) then
      Some(i + |full|)
    else if LowerEqAt(s, i, stem) && Boundary(s, i) && Boundary(s, i + |stem|) then
      Some(i + |stem|)
    else None
  }

  /** Greedy repetitions of `\d[ -]?` from `i`, at most 16: the count and the end. */
  function CardReps(s: string, i: nat, reps: nat): (r: (nat, nat))
    requires i <= |s| && reps <= 16
    ensures reps <= r.0 <= 16 && i <= r.1 <= |s|
    ensures r.0 > reps ==> r.1 > i
    decreases |s| - i
  {
    if reps == 16 || i == |s| || !IsDigit(s[i]) then (reps, i)
    else
      var j := if i + 1 < |s| && IsCardSeparator(s[i + 1]) then i + 2 else i + 1;
      CardReps(s, j, reps + 1)
  }

  /** `(?:\d[ -]?){13,16}`: taking a separator never prevents a further
      repetition, so the greedy count is the largest one. */
  function CardEnd(s: string, i: nat): Option<nat>
    requires i <= |s|
  {
    var r := CardReps(s, i, 0);
    if r.0 >= 13 then Some(r.1) else None
  }

  predicate SsnAt(s: string, i: nat) {
    i + 11 <= |s| && Boundary(s, i) && Boundary(s, i + 11) &&
    IsDigit(s[i]) && IsDigit(s[i + 1]) && IsDigit(s[i + 2]) && s[i + 3] == '-' &&
    IsDigit(s[i + 4]) && IsDigit(s[i + 5]) && s[i + 6] == '-' &&
    IsDigit(s[i + 7]) && IsDigit(s[i + 8]) && IsDigit(s[i + 9]) && IsDigit(s[i + 10])
  }

  /** A dot at `k` that `\.[A-Z]{2,}` can start from, inside a domain run ending at `d`. */
  predicate TldDotAt(s: string, k: nat, d: nat) {
    k + 2 < d <= |s| && s[k] == '.' && IsLetter(s[k + 1]) && IsLetter(s[k + 2])
  }

  /** The rightmost such dot in `[lo, hi)`: the greedy domain part backs off to it. */
  function LastTldDot(s: string, lo: nat, hi: nat, d: nat): (r: Option<nat>)
    requires hi <= d <= |s|
    ensures r.Some? ==> lo <= r.value < hi && TldDotAt(s, r.value, d)
    ensures forall k :: lo <= k < hi && TldDotAt(s, k, d) ==> r.Some? && k <= r.value
    decreases hi
  {
    if hi <= lo then None
    else if TldDotAt(s, hi - 1, d) then Some(hi - 1)
    else LastTldDot(s, lo, hi - 1, d)
  }

  /** `[A-Z0-9._%+-]+@[A-Z0-9.-]+\.[A-Z]{2,}` started at `i`. The local part
      cannot contain '@', so it must run exactly up to the '@'. */
  function EmailEnd(s: string, i: nat): Option<nat>
    requires i <= |s|
  {
    if i == |s| || !IsEmailLocalChar(s[i]) then None
    else
      var at := RunEnd(s, i, IsEmailLocalChar);
      if at == |s| || s[at] != '@' then None
      else
        var d := RunEnd(s, at + 1, IsEmailDomainChar);
        match LastTldDot(s, at + 2, d, d)
        case None => None
        case Some(k) => Some(RunEnd(s, k + 1, IsLetter))
  }

  /** The rightmost digit in `[lo, hi)`. */
  function LastDigit(s: string, lo: nat, hi: nat): (r: Option<nat>)
    requires hi <= |s|
    ensures r.Some? ==> lo <= r.value < hi && IsDigit(s[r.value])
    decreases hi
  {
    if hi <= lo then None
    else if IsDigit(s[hi - 1]) then Some(hi - 1)
    else LastDigit(s, lo, hi - 1)
  }

  /** `\+?\d[\d\-\s]{7,}\d` started at `i`: the class run backs off to its
      last digit, which must leave at least seven characters before it. */
  function PhoneEnd(s: string, i: nat): Option<nat>
    requires i <= |s|
  {
    if i == |s| then None
    else
      var d := if s[i] == '+' then i + 1 else i;
      if d >= |s| || !IsDigit(s[d]) then None
      else
        var r := RunEnd(s, d + 1, IsPhoneBodyChar);
        match LastDigit(s, d + 8, r)
        case None => None
        case Some(p) => Some(p + 1)
  }

  /** Where the match of `p` attempted at `i` ends, if the attempt succeeds. */
  function MatchEnd(p: Pattern, s: string, i: nat): (r: Option<nat>)
    requires i <= |s|
    ensures r.Some? ==> i < r.value <= |s|
  {
    match p
    case Keyword(stem, suffix) => if stem == [] then None else KeywordEnd(s, i, stem, suffix)
    case Phrase(text) => if text != [] && LowerEqAt(s, i, text) then Some(i + |text|) else None
    case CardDigits => CardEnd(s, i)
    case EmailShape =>
      var r := EmailEnd(s, i);
      assert r.Some? ==> r.value > i by {
        if r.Some? {
          var at := RunEnd(s, i, IsEmailLocalChar);
          var d := RunEnd(s, at + 1, IsEmailDomainChar);
          var k := LastTldDot(s, at + 2, d, d).value;
          assert RunEnd(s, k + 1, IsLetter) > k + 1;
        }
      }
      r
    case SsnShape => if SsnAt(s, i) then Some(i + 11) else None
    case PhoneShape => PhoneEnd(s, i)
  }

  // ---------------------------------------------------------------------
  // re.search and re.finditer
  // ---------------------------------------------------------------------

  /** `re.search` from `from`: the leftmost start at which an attempt succeeds. */
  function Search(p: Pattern, s: string, from: nat): (r: Option<nat>)
    requires from <= |s|
    ensures r.Some? ==> from <= r.value <= |s| && MatchEnd(p, s, r.value).Some?
    ensures r.Some? ==> forall j :: from <= j < r.value ==> MatchEnd(p, s, j).None?
    ensures r.None? ==> forall j :: from <= j <= |s| ==> MatchEnd(p, s, j).None?
    decreases |s| - from
  {
    if MatchEnd(p, s, from).Some? then Some(from)
    else if from == |s| then None
    else Search(p, s, from + 1)
  }

  /** `p.search(s)` is truthy. */
  predicate Matches(p: Pattern, s: string) {
    Search(p, s, 0).Some?
  }

  /** `re.search(p, s).group(0)`. */
  function FirstMatch(p: Pattern, s: string): (r: Option<string>)
    ensures r.Some? <==> Matches(p, s)
    ensures r.Some? ==> r.value != [] && Contains(s, r.value)
  {
    match Search(p, s, 0)
    case None => None
    case Some(st) =>
      var e := MatchEnd(p, s, st).value;
      assert OccursAt(s, s[st..e], st);
      Some(s[st..e])
  }

  /** The spans `p.finditer(s)` yields from `from` on: each a successful
      attempt, left to right, none overlapping the next. */
  function FindAll(p: Pattern, s: string, from: nat): (spans: seq<(nat, nat)>)
    requires from <= |s|
    ensures forall k :: 0 <= k < |spans| ==>
      from <= spans[k].0 < spans[k].1 <= |s| && MatchEnd(p, s, spans[k].0) == Some(spans[k].1)
    ensures forall k :: 0 < k < |spans| ==> spans[k - 1].1 <= spans[k].0
    ensures spans == [] <==> Search(p, s, from).None?
    decreases |s| - from
  {
    match Search(p, s, from)
    case None => []
    case Some(st) =>
      var e := MatchEnd(p, s, st).value;
      [(st, e)] + FindAll(p, s, e)
  }

  /** The matched texts of `p.finditer(s)`. */
  function MatchedTexts(s: string, spans: seq<(nat, nat)>): (texts: seq<string>)
    requires forall k :: 0 <= k < |spans| ==> spans[k].0 <= spans[k].1 <= |s|
    ensures |texts| == |spans|
    ensures forall k :: 0 <= k < |spans| ==> texts[k] == s[spans[k].0..spans[k].1]
  {
    if spans == [] then [] else [s[spans[0].0..spans[0].1]] + MatchedTexts(s, spans[1..])
  }
}
