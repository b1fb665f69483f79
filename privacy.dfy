/** The privacy classifier and the line redactor of `LocalModel`
    (local_model.py): a fixed bank of independent patterns, a three-way
    label, and a redactor that replaces every private line by a sentinel. */
module Privacy {
  import opened Text
  import opened Patterns

  /** The pattern bank, in the order the source lists it. */
  const Bank: seq<Pattern> := [
    Keyword("password", ""), Keyword("secret", ""), Keyword("token", ""),
    Keyword("auth", ""), Keyword("ssn", ""), Phrase("social security"),
    Keyword("credit card", ""), Keyword("account", ""), Keyword("routing", ""),
    Keyword("bank", ""), Keyword("private", ""), Keyword("confidential", ""),
    Keyword("personal", ""), Keyword("phone", ""), Keyword("dob", ""),
    Keyword("birth", "date"), CardDigits, EmailShape, SsnShape
  ]

  /** `_contains_private_info`: some pattern of the bank is found in the text. */
  predicate ContainsPrivateInfo(text: string) {
    exists p :: p in Bank && Matches(p, text)
  }

  datatype Label = Unknown | Private | Public

  /** `_classify_privacy`. */
  function Classify(text: string): (verdict: Label)
    ensures verdict == Unknown <==> IsBlank(text)
    ensures verdict == Private <==> !IsBlank(text) && ContainsPrivateInfo(text)
    ensures verdict == Public <==> !IsBlank(text) && !ContainsPrivateInfo(text)
  {
    StripEmptyIffBlank(text);
    if Strip(text) == [] then Unknown
    else if ContainsPrivateInfo(text) then Private
    else Public
  }

  const Sentinel := "[REDACTED SENSITIVE INFORMATION]"

  function RedactLine(line: string): string {
    if ContainsPrivateInfo(line) then Sentinel else line
  }

  function RedactLines(lines: seq<string>): seq<string> {
    seq(|lines|, k requires 0 <= k < |lines| => RedactLine(lines[k]))
  }

  /** The text `_redact_sensitive_info` returns. */
  function Redacted(text: string): string {
    Join("\n", RedactLines(SplitLines(text)))
  }

  /** `_redact_sensitive_info`: split into lines, replace each private line
      by the sentinel, join with "\n". */
  method Redact(text: string) returns (r: string)
    ensures r == Redacted(text)
  {
    var lines := SplitLines(text);
    var redacted: seq<string> := [];
    for i := 0 to |lines|
      invariant |redacted| == i
      invariant forall k :: 0 <= k < i ==> redacted[k] == RedactLine(lines[k])
    {
      if ContainsPrivateInfo(lines[i]) {
        redacted := redacted + [Sentinel];
      } else {
        redacted := redacted + [lines[i]];
      }
    }
    assert redacted == RedactLines(lines);
    r := Join("\n", redacted);
  }

  // ---------------------------------------------------------------------
  // What a match needs
  // ---------------------------------------------------------------------

  lemma MatchesAt(p: Pattern, s: string)
    ensures Matches(p, s) <==> exists j :: 0 <= j <= |s| && MatchEnd(p, s, j).Some?
  {
    if Matches(p, s) {
      var j := Search(p, s, 0).value;
      assert MatchEnd(p, s, j).Some?;
    }
  }

  /** The words the keyword patterns of the bank can match. */
  const KeywordTexts: seq<string> := [
    "password", "secret", "token", "auth", "ssn", "credit card", "account", "routing",
    "bank", "private", "confidential", "personal", "phone", "dob", "birth", "birthdate"
  ]

  lemma BankKeywords(p: Pattern)
    requires p in Bank && p.Keyword?
    ensures p.stem in KeywordTexts
    ensures p.suffix == [] || (p.stem == "birth" && p.suffix == "date")
  {
  }

  lemma LowerCharOfLetter(c: char)
    requires IsLower(LowerChar(c))
    ensures IsLetter(c)
  {
  }

  /** The literal patterns start with a lower-case letter. */
  predicate LeadsWithLetter(p: Pattern) {
    match p
    case Keyword(stem, _) => stem != [] && IsLower(stem[0])
    case Phrase(text) => text != [] && IsLower(text[0])
    case _ => true
  }

  lemma BankLeadsWithLetter(p: Pattern)
    requires p in Bank
    ensures LeadsWithLetter(p)
  {
    if p.Keyword? {
      BankKeywordStem(p);
    } else if p.Phrase? {
      BankPhrase(p);
    }
  }

  lemma BankKeywordStem(p: Pattern)
    requires p in Bank && p.Keyword?
    ensures p.stem != [] && IsLower(p.stem[0])
  {
  }

  lemma BankPhrase(p: Pattern)
    requires p in Bank && p.Phrase?
    ensures p.text == "social security"
  {
  }

  /** A match of such a pattern starts on a letter, a digit, '+' or an
      e-mail local-part character, never on whitespace. */
  lemma MatchStartsOnInk(p: Pattern, s: string, j: nat)
    requires LeadsWithLetter(p) && j <= |s| && MatchEnd(p, s, j).Some?
    ensures j < |s| && !IsSpace(s[j])
  {
    match p
    case Keyword(stem, suffix) =>
      var full := stem + suffix;
      if suffix != [] && LowerEqAt(s, j, full) && Boundary(s, j) && Boundary(s, j + |full|) {
        assert LowerChar(s[j + 0]) == full[0] == stem[0];
      } else {
        assert LowerChar(s[j + 0]) == stem[0];
      }
      LowerCharOfLetter(s[j]);
    case Phrase(text) =>
      assert LowerChar(s[j + 0]) == text[0];
      LowerCharOfLetter(s[j]);
    case CardDigits =>
    case EmailShape =>
    case SsnShape =>
    case PhoneShape =>
  }

  /** Every pattern of the bank starts its match on non-whitespace. */
  lemma BankMatchStartsOnInk(p: Pattern, s: string, j: nat)
    requires p in Bank && j <= |s| && MatchEnd(p, s, j).Some?
    ensures j < |s| && !IsSpace(s[j])
  {
    BankLeadsWithLetter(p);
    MatchStartsOnInk(p, s, j);
  }

  /** Whitespace-only text, which `Classify` calls unknown, holds nothing private. */
  lemma BlankIsNotPrivate(s: string)
    requires IsBlank(s)
    ensures !ContainsPrivateInfo(s)
  {
    forall p | p in Bank ensures !Matches(p, s) {
      MatchesAt(p, s);
      forall j | 0 <= j <= |s| ensures MatchEnd(p, s, j).None? {
        if MatchEnd(p, s, j).Some? {
          BankMatchStartsOnInk(p, s, j);
        }
      }
    }
  }

  /** Text with an e-mail address in it is classified private. */
  lemma EmailIsPrivate(s: string)
    requires Matches(EmailShape, s)
    ensures Classify(s) == Private
  {
    var j := Search(EmailShape, s, 0).value;
    BankMatchStartsOnInk(EmailShape, s, j);
    assert !IsBlank(s);
    assert EmailShape in Bank;
  }

  // ---------------------------------------------------------------------
  // The sentinel never matches
  // ---------------------------------------------------------------------

  lemma SentinelChars()
    ensures Sentinel == ['[', 'R', 'E', 'D', 'A', 'C', 'T', 'E', 'D', ' ', 'S', 'E', 'N', 'S',
                         'I', 'T', 'I', 'V', 'E', ' ', 'I', 'N', 'F', 'O', 'R', 'M', 'A', 'T',
                         'I', 'O', 'N', ']']
  {
  }

  /** The word boundaries of the sentinel, with the character after each. */
  lemma SentinelBoundaries()
    ensures forall i {:trigger Boundary(Sentinel, i)} :: Boundary(Sentinel, i) ==>
      (i == 1 && LowerChar(Sentinel[i]) == 'r') || (i == 10 && LowerChar(Sentinel[i]) == 's') ||
      (i == 20 && LowerChar(Sentinel[i]) == 'i') || ((i == 9 || i == 19) && Sentinel[i] == ' ') ||
      (i == 31 && Sentinel[i] == ']')
  {
    SentinelChars();
  }

  lemma SentinelHasNoDigit()
    ensures forall k :: 0 <= k < |Sentinel| ==> !IsDigit(Sentinel[k]) && Sentinel[k] != '@'
  {
    SentinelChars();
  }

  lemma LowerEqAtStart(s: string, j: nat, w: string)
    ensures w != [] && LowerEqAt(s, j, w) ==> LowerChar(s[j]) == w[0] && LowerEqAt(s, j + 1, w[1..])
  {
    if w != [] && LowerEqAt(s, j, w) {
      assert LowerChar(s[j + 0]) == w[0];
    }
  }

  /** What the first letter of a keyword tells about it. */
  lemma KeywordInitials(w: string)
    requires w in KeywordTexts
    ensures w != [] && w[0] != 'i' && w[0] != ' ' && w[0] != ']'
    ensures w[0] == 'r' ==> w == "routing"
    ensures w[0] == 's' ==> w == "secret" || w == "ssn"
  {
  }

  lemma SentinelNoKeyword(w: string, j: nat)
    requires w in KeywordTexts
    ensures !(LowerEqAt(Sentinel, j, w) && Boundary(Sentinel, j) && Boundary(Sentinel, j + |w|))
  {
    KeywordInitials(w);
    SentinelBoundaries();
    LowerEqAtStart(Sentinel, j, w);
  }

  lemma SentinelNoPhrase(j: nat)
    ensures !LowerEqAt(Sentinel, j, "social security")
  {
    SentinelChars();
    LowerEqAtStart(Sentinel, j, "social security");
    LowerEqAtStart(Sentinel, j + 1, "ocial security");
  }

  lemma SentinelNoKeywordMatch(stem: string, suffix: string, j: nat)
    requires stem in KeywordTexts
    requires suffix == [] || (stem == "birth" && suffix == "date")
    ensures KeywordEnd(Sentinel, j, stem, suffix).None?
  {
    SentinelNoKeyword(stem, j);
    if suffix != [] {
      assert stem + suffix == "birthdate";
      SentinelNoKeyword("birthdate", j);
    }
  }

  /** The sentinel holds no digit and no '@', which every other pattern needs. */
  lemma SentinelNoShape(p: Pattern, j: nat)
    requires !p.Keyword? && !p.Phrase? && j <= |Sentinel|
    ensures MatchEnd(p, Sentinel, j).None?
  {
    SentinelHasNoDigit();
    match p
    case CardDigits =>
      assert CardReps(Sentinel, j, 0) == (0, j);
    case EmailShape =>
    case SsnShape =>
    case PhoneShape =>
  }

  lemma SentinelMatchesNothing(p: Pattern, j: nat)
    requires p in Bank && j <= |Sentinel|
    ensures MatchEnd(p, Sentinel, j).None?
  {
    if p.Keyword? {
      BankKeywords(p);
      SentinelNoKeywordMatch(p.stem, p.suffix, j);
    } else if p.Phrase? {
      BankPhrase(p);
      SentinelNoPhrase(j);
    } else {
      SentinelNoShape(p, j);
    }
  }

  /** The sentinel line is not private, so a redacted line stays as it is. */
  lemma SentinelIsPublic()
    ensures !ContainsPrivateInfo(Sentinel)
  {
    forall p | p in Bank ensures !Matches(p, Sentinel) {
      MatchesAt(p, Sentinel);
      forall j | 0 <= j <= |Sentinel| ensures MatchEnd(p, Sentinel, j).None? {
        SentinelMatchesNothing(p, j);
      }
    }
  }

  // ---------------------------------------------------------------------
  // Properties of the redactor
  // ---------------------------------------------------------------------

  /** One output line per input line: the line itself when it is not
      private, the sentinel when it is. */
  lemma RedactLinesShape(lines: seq<string>)
    ensures |RedactLines(lines)| == |lines|
    ensures forall k :: 0 <= k < |lines| ==>
      (ContainsPrivateInfo(lines[k]) ==> RedactLines(lines)[k] == Sentinel) &&
      (!ContainsPrivateInfo(lines[k]) ==> RedactLines(lines)[k] == lines[k])
  {
  }

  /** No line the redactor emits is private. */
  lemma RedactedLinesArePublic(lines: seq<string>)
    ensures forall k :: 0 <= k < |lines| ==> !ContainsPrivateInfo(RedactLines(lines)[k])
  {
    SentinelIsPublic();
  }

  /** Redacting lines that are already redacted changes nothing. */
  lemma RedactLinesIdempotent(lines: seq<string>)
    ensures RedactLines(RedactLines(lines)) == RedactLines(lines)
  {
    SentinelIsPublic();
  }

  /** Text with no private line comes back line for line. */
  lemma RedactPublicLines(text: string)
    requires forall k :: 0 <= k < |SplitLines(text)| ==> !ContainsPrivateInfo(SplitLines(text)[k])
    ensures Redacted(text) == Join("\n", SplitLines(text))
  {
    assert RedactLines(SplitLines(text)) == SplitLines(text);
  }

  /** Splitting the redacted text gives the redacted lines back, as long as
      the input does not end with an empty line. */
  lemma RedactedLines(text: string)
    requires SplitLines(text) == [] || SplitLines(text)[|SplitLines(text)| - 1] != []
    ensures SplitLines(Redacted(text)) == RedactLines(SplitLines(text))
  {
    var lines := SplitLines(text);
    var out := RedactLines(lines);
    SentinelIsOneLine();
    forall k | 0 <= k < |out| ensures NoLineBreaks(out[k]) {
      if !ContainsPrivateInfo(lines[k]) {
        assert out[k] == lines[k];
      }
    }
    SplitJoinRoundTrip(out);
  }

  /** The sentinel is one non-empty line. */
  lemma SentinelIsOneLine()
    ensures Sentinel != [] && NoLineBreaks(Sentinel)
  {
    SentinelChars();
    assert forall k :: 0 <= k < |Sentinel| ==> ' ' <= Sentinel[k] <= ']';
    forall c | c in Sentinel ensures !IsLineBreak(c) {
      var k :| 0 <= k < |Sentinel| && Sentinel[k] == c;
    }
  }

  /** Redaction is idempotent on text whose last line is not empty. */
  lemma RedactIdempotent(text: string)
    requires SplitLines(text) == [] || SplitLines(text)[|SplitLines(text)| - 1] != []
    ensures Redacted(Redacted(text)) == Redacted(text)
  {
    RedactedLines(text);
    RedactLinesIdempotent(SplitLines(text));
  }

  /** ... and only there: a trailing empty line is dropped on every pass. */
  lemma RedactNotIdempotentOnTrailingEmptyLine()
    ensures Redacted(" \n\n") == " \n"
    ensures Redacted(Redacted(" \n\n")) == " "
  {
    var s := " \n\n";
    assert LineEnd(s, 0) == 1 && BreakWidth(s, 1) == 1;
    assert s[..1] == " " && s[2..] == "\n";
    assert LineEnd("\n", 0) == 0 && BreakWidth("\n", 0) == 1 && "\n"[1..] == [];
    assert SplitLines("\n") == [""];
    assert SplitLines(s) == [" ", ""];
    BlankIsNotPrivate(" ");
    BlankIsNotPrivate("");
    assert RedactLines([" ", ""]) == [" ", ""];
    var t := " \n";
    assert Redacted(s) == t;
    assert LineEnd(t, 0) == 1 && BreakWidth(t, 1) == 1;
    assert t[..1] == " " && t[2..] == [];
    assert SplitLines(t) == [" "];
    assert RedactLines([" "]) == [" "];
  }
}
