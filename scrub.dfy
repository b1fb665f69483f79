/** The response scrubber of the server (mcp_server.py): e-mail addresses are
    normalised and reduced to a first-name alias, every other string goes
    through the line redactor, and the customer, address, payment and
    document fields of a dictionary are withheld. */
module Scrub {
  import opened Wrappers
  import opened Text
  import opened Json
  import opened Privacy

  // ---------------------------------------------------------------------
  // The address pattern
  // ---------------------------------------------------------------------

  predicate NoSpaceOrAt(s: string) {
    forall k :: 0 <= k < |s| ==> s[k] != '@' && !IsSpace(s[k])
  }

  /** `[^@\s]+@[^@\s]+\.[^@\s]+` over the whole of `s`. */
  predicate IsAddressCore(s: string) {
    var local := BeforeFirst(s, '@');
    |local| < |s| && local != [] && NoSpaceOrAt(local) &&
    var domain := s[|local| + 1..];
    NoSpaceOrAt(domain) &&
    exists k :: 0 < k < |domain| - 1 && domain[k] == '.'
  }

  /** `EMAIL_PATTERN.match(s)`: the pattern ends in `$`, which also matches
      just before a final newline. */
  predicate IsAddressShape(s: string) {
    IsAddressCore(s) || (s != [] && s[|s| - 1] == '\n' && IsAddressCore(s[..|s| - 1]))
  }

  /** An address is one non-empty line with no '@' on either side of its
      separator beyond the one. */
  lemma AddressCoreHasOneAt(s: string)
    requires IsAddressCore(s)
    ensures exists i :: (0 < i < |s| - 1 && s[i] == '@' &&
      forall k :: 0 <= k < |s| && k != i ==> s[k] != '@' && !IsSpace(s[k]))
  {
    var local := BeforeFirst(s, '@');
    var i := |local|;
    var domain := s[i + 1..];
    assert s[i] == '@';
    forall k | 0 <= k < |s| && k != i ensures s[k] != '@' && !IsSpace(s[k]) {
      if k < i {
        assert s[k] == local[k];
      } else {
        assert s[k] == domain[k - i - 1];
      }
    }
  }

  // ---------------------------------------------------------------------
  // Normalisation and masking
  // ---------------------------------------------------------------------

  /** The two hosted mail domains whose addresses are lower-cased. */
  predicate IsHostedMail(email: string) {
    EndsWith(Lower(email), "@gmail.com") || EndsWith(Lower(email), "@googlemail.com")
  }

  lemma LowerCharIsAt(c: char)
    ensures LowerChar(c) == '@' <==> c == '@'
  {
  }

  lemma HostedMailHasAt(email: string)
    requires IsHostedMail(email)
    ensures '@' in email
  {
    var low := Lower(email);
    if EndsWith(low, "@gmail.com") {
      var i := |email| - |"@gmail.com"|;
      assert low[i] == "@gmail.com"[0] == '@';
      LowerCharIsAt(email[i]);
      assert email[i] in email;
    } else {
      var i := |email| - |"@googlemail.com"|;
      assert low[i] == "@googlemail.com"[0] == '@';
      LowerCharIsAt(email[i]);
      assert email[i] in email;
    }
  }

  lemma LowerAround(s: string, i: nat)
    requires i < |s| && s[i] == '@'
    ensures Lower(s) == Lower(s[..i]) + "@" + Lower(s[i + 1..])
  {
  }

  /** Lower-casing keeps the ends of a stripped string off whitespace. */
  lemma LowerChangesNoSpace(c: char)
    ensures IsSpace(LowerChar(c)) <==> IsSpace(c)
  {
  }

  /** `_normalize_email`: surrounding whitespace removed, and a gmail.com or
      googlemail.com address lower-cased on both sides of the first '@'. */
  function NormalizeEmail(value: string): (r: string)
    ensures IsHostedMail(Strip(value)) ==> r == Lower(Strip(value))
    ensures !IsHostedMail(Strip(value)) ==> r == Strip(value)
  {
    var email := Strip(value);
    if IsHostedMail(email) then
      HostedMailHasAt(email);
      var local := BeforeFirst(email, '@');
      var domain := email[|local| + 1..];
      LowerAround(email, |local|);
      assert email[..|local|] == local;
      Lower(local) + "@" + Lower(domain)
    else email
  }

  lemma StripUnchanged(s: string)
    requires s == [] || (!IsSpace(s[0]) && !IsSpace(s[|s| - 1]))
    ensures Strip(s) == s
  {
    if s != [] {
      assert StripStartWhere(s, IsSpace) == s;
      assert StripEndWhere(s, IsSpace) == s;
    }
  }

  lemma LowerLower(s: string)
    ensures Lower(Lower(s)) == Lower(s)
  {
  }

  lemma LowerEndsWith(s: string, suffix: string)
    requires EndsWith(s, suffix) && Lower(suffix) == suffix
    ensures EndsWith(Lower(s), suffix)
  {
    var n := |s| - |suffix|;
    assert Lower(s)[n..] == Lower(s[n..]);
  }

  /** Normalising twice gives what normalising once gives. */
  lemma NormalizeEmailIdempotent(value: string)
    ensures NormalizeEmail(NormalizeEmail(value)) == NormalizeEmail(value)
  {
    var email := Strip(value);
    var r := NormalizeEmail(value);
    if IsHostedMail(email) {
      var low := Lower(email);
      if low != [] {
        LowerChangesNoSpace(email[0]);
        LowerChangesNoSpace(email[|email| - 1]);
      }
      StripUnchanged(low);
      LowerLower(email);
      assert IsHostedMail(low);
    } else {
      StripIdempotent(value);
    }
  }

  /** `re.findall(r"[A-Za-z]+", s)[0]`: the first run of ASCII letters. */
  function FirstWord(s: string): (r: Option<string>)
    ensures r.None? <==> forall k :: 0 <= k < |s| ==> !IsLetter(s[k])
    ensures r.Some? ==> r.value != [] && forall k :: 0 <= k < |r.value| ==> IsLetter(r.value[k])
  {
    if s == [] then None
    else if IsLetter(s[0]) then Some(LetterRun(s))
    else
      var rest := FirstWord(s[1..]);
      assert forall k :: 1 <= k < |s| ==> s[k] == s[1..][k - 1];
      rest
  }

  /** The word found is the letter run that starts at the first letter. */
  lemma {:induction false} FirstWordAt(s: string, i: nat)
    requires i < |s| && IsLetter(s[i])
    requires forall k :: 0 <= k < i ==> !IsLetter(s[k])
    ensures FirstWord(s) == Some(LetterRun(s[i..]))
  {
    if i > 0 {
      assert s[1..][i - 1] == s[i];
      assert forall k :: 0 <= k < i - 1 ==> s[1..][k] == s[k + 1];
      FirstWordAt(s[1..], i - 1);
      assert s[1..][i - 1..] == s[i..];
    }
  }

  /** The letters at the start of `s`, as many as there are. */
  function LetterRun(s: string): (r: string)
    ensures |r| <= |s| && r == s[..|r|]
    ensures forall k :: 0 <= k < |r| ==> IsLetter(r[k])
    ensures |r| < |s| ==> !IsLetter(s[|r|])
  {
    if s == [] || !IsLetter(s[0]) then [] else [s[0]] + LetterRun(s[1..])
  }

  /** `str.capitalize()` on ASCII letters: first upper-case, rest lower-case. */
  function Capitalize(w: string): (r: string)
    requires forall k :: 0 <= k < |w| ==> IsLetter(w[k])
    ensures |r| == |w|
    ensures w != [] ==> IsUpper(r[0])
    ensures forall k :: 1 <= k < |r| ==> IsLower(r[k])
    ensures forall k :: 0 <= k < |r| ==> LowerChar(r[k]) == LowerChar(w[k])
  {
    if w == [] then []
    else
      var r := [UpperChar(w[0])] + Lower(w[1..]);
      assert forall k :: 0 <= k < |w| ==> IsLetter(w[k]);
      assert forall k :: 1 <= k < |w| ==> r[k] == LowerChar(w[k]);
      r
  }

  /** A capitalised name redacts as the single line it is: unchanged or the
      sentinel. */
  lemma RedactedName(name: string)
    requires name != [] && forall k :: 0 <= k < |name| ==> IsLetter(name[k])
    ensures Redacted(name) == if ContainsPrivateInfo(name) then Sentinel else name
    ensures '@' !in Redacted(name)
  {
    assert NoLineBreaks(name) by {
      forall c | c in name ensures !IsLineBreak(c) {
        var k :| 0 <= k < |name| && name[k] == c;
      }
    }
    SplitJoinRoundTrip([name]);
    assert Join("\n", [name]) == name;
    assert RedactLines([name]) == [RedactLine(name)];
    SentinelHasNoDigit();
    assert '@' !in Sentinel;
    assert '@' !in name by {
      forall k | 0 <= k < |name| ensures name[k] != '@' { }
    }
  }

  /** The alias for a letter run: capitalised, then through the line
      redactor. */
  function Alias(word: string): (r: string)
    requires word != [] && forall k :: 0 <= k < |word| ==> IsLetter(word[k])
    ensures !ContainsPrivateInfo(Capitalize(word)) ==> r == Capitalize(word)
    ensures ContainsPrivateInfo(Capitalize(word)) ==> r == Sentinel
    ensures r == Sentinel || (r != [] && IsUpper(r[0]) && forall k :: 1 <= k < |r| ==> IsLower(r[k]))
    ensures '@' !in r
  {
    var name := Capitalize(word);
    assert forall k :: 0 <= k < |name| ==> IsLetter(name[k]);
    RedactedName(name);
    Redacted(name)
  }

  const Anonymous := "Recipient"

  /** `_mask_email`: the first letter run of the local part, capitalised and
      redacted, or "Recipient" when the local part has no letter. */
  function MaskEmail(value: string): (r: string)
    ensures r == Anonymous || r == Sentinel ||
      (r != [] && IsUpper(r[0]) && forall k :: 1 <= k < |r| ==> IsLower(r[k]))
    ensures '@' !in r
  {
    match FirstWord(BeforeFirst(NormalizeEmail(value), '@'))
    case None => Anonymous
    case Some(word) => Alias(word)
  }

  /** An address whose local part has a letter is masked as its first
      letter run, capitalised, unless that name is itself private. */
  lemma MaskedAsFirstName(value: string, i: nat)
    requires var local := BeforeFirst(NormalizeEmail(value), '@');
      i < |local| && IsLetter(local[i]) && forall k :: 0 <= k < i ==> !IsLetter(local[k])
    ensures var name := Capitalize(LetterRun(BeforeFirst(NormalizeEmail(value), '@')[i..]));
      MaskEmail(value) == if ContainsPrivateInfo(name) then Sentinel else name
  {
    FirstWordAt(BeforeFirst(NormalizeEmail(value), '@'), i);
  }

  /** The alias never depends on anything after the '@' beyond lower-casing:
      a local part with no letter is always "Recipient". */
  lemma MaskWithoutLetters(value: string)
    requires forall k :: 0 <= k < |BeforeFirst(NormalizeEmail(value), '@')| ==>
      !IsLetter(BeforeFirst(NormalizeEmail(value), '@')[k])
    ensures MaskEmail(value) == Anonymous
  {
  }

  // ---------------------------------------------------------------------
  // sanitize_data
  // ---------------------------------------------------------------------

  /** The keys whose values are replaced wholesale. */
  const ProtectedKeys: seq<string> := ["customer", "address", "payment"]
  const Withheld := "[REDACTED]"

  /** What a string becomes. */
  function SanitizeString(s: string): (r: string)
    ensures IsAddressShape(s) ==> r == MaskEmail(s) && '@' !in r
    ensures !IsAddressShape(s) ==> r == Redacted(s)
  {
    if IsAddressShape(s) then
      NormalizeEmailIdempotent(s);
      MaskEmail(NormalizeEmail(s))
    else Redacted(s)
  }

  /** `sanitize_data`. */
  function Sanitize(v: Json): (r: Json)
    ensures v.JStr? <==> r.JStr?
    ensures v.JList? <==> r.JList?
    ensures v.JObj? <==> r.JObj?
    ensures !v.JStr? && !v.JList? && !v.JObj? ==> r == v
    decreases v, 0
  {
    match v
    case JStr(s) => JStr(SanitizeString(s))
    case JList(items) => JList(SanitizeList(items))
    case JObj(fields) => JObj(SanitizeFields(fields))
    case _ => v
  }

  /** The list comprehension: each element on its own. */
  function SanitizeList(items: seq<Json>): (r: seq<Json>)
    ensures |r| == |items|
    decreases items, 0
  {
    if items == [] then [] else [Sanitize(items[0])] + SanitizeList(items[1..])
  }

  /** The value a field of a dictionary gets. */
  function SanitizeField(key: string, value: Json): Json
    decreases value, 1
  {
    if key in ProtectedKeys then JStr(Withheld)
    else if key == "documents" then
      if value.JList? then JList(SanitizeDocuments(value.items)) else JStr(Withheld)
    else Sanitize(value)
  }

  /** The dictionary loop: same keys in the same order. */
  function SanitizeFields(fields: seq<Field>): (r: seq<Field>)
    ensures |r| == |fields|
    decreases fields, 0
  {
    if fields == [] then []
    else
      [Field(fields[0].key, SanitizeField(fields[0].key, fields[0].value))] + SanitizeFields(fields[1..])
  }

  /** A document list keeps only each document's name. */
  function SanitizeDocuments(docs: seq<Json>): (r: seq<Json>)
    ensures |r| == |docs|
    decreases docs, 0
  {
    if docs == [] then []
    else
      var doc := docs[0];
      [if doc.JObj? then DocumentName(doc.fields) else Sanitize(doc)] + SanitizeDocuments(docs[1..])
  }

  /** `sanitize_data(doc.get("name"))`: a missing name stays None. */
  function DocumentName(fields: seq<Field>): Json
    decreases fields, 0
  {
    if fields == [] then JNull
    else if fields[0].key == "name" then Sanitize(fields[0].value)
    else DocumentName(fields[1..])
  }

  // ---------------------------------------------------------------------
  // Properties
  // ---------------------------------------------------------------------

  /** Lists are sanitised element by element. */
  lemma {:induction false} SanitizeListAt(items: seq<Json>)
    ensures forall k :: 0 <= k < |items| ==> SanitizeList(items)[k] == Sanitize(items[k])
  {
    if items != [] {
      SanitizeListAt(items[1..]);
      assert forall k :: 1 <= k < |items| ==> items[k] == items[1..][k - 1];
    }
  }

  /** A dictionary keeps its keys, in order, and each value is replaced by
      what its key calls for. */
  lemma {:induction false} SanitizeFieldsAt(fields: seq<Field>)
    ensures Keys(SanitizeFields(fields)) == Keys(fields)
    ensures forall k :: 0 <= k < |fields| ==>
      SanitizeFields(fields)[k] == Field(fields[k].key, SanitizeField(fields[k].key, fields[k].value))
  {
    if fields != [] {
      SanitizeFieldsAt(fields[1..]);
      assert forall k :: 1 <= k < |fields| ==> fields[k] == fields[1..][k - 1];
    }
  }

  /** A document keeps its sanitised "name", or None without one. */
  lemma {:induction false} DocumentNameIsName(fields: seq<Field>)
    ensures DocumentName(fields) == Sanitize(Get(fields, "name"))
  {
    if fields != [] && fields[0].key != "name" {
      DocumentNameIsName(fields[1..]);
    }
  }

  /** A document list is sanitised document by document; a dict document
      keeps only its sanitised name. */
  lemma {:induction false} SanitizeDocumentsAt(docs: seq<Json>)
    ensures forall k :: 0 <= k < |docs| ==>
      SanitizeDocuments(docs)[k] == if docs[k].JObj? then Sanitize(Get(docs[k].fields, "name")) else Sanitize(docs[k])
  {
    if docs != [] {
      if docs[0].JObj? {
        DocumentNameIsName(docs[0].fields);
      }
      SanitizeDocumentsAt(docs[1..]);
      assert forall k :: 1 <= k < |docs| ==> docs[k] == docs[1..][k - 1];
    }
  }

  /** No customer, address or payment value survives, and a document list
      is never passed through. */
  lemma ProtectedFieldsWithheld(fields: seq<Field>)
    ensures forall k :: 0 <= k < |fields| && fields[k].key in ProtectedKeys ==>
      SanitizeFields(fields)[k].value == JStr(Withheld)
    ensures forall k :: 0 <= k < |fields| && fields[k].key == "documents" && !fields[k].value.JList? ==>
      SanitizeFields(fields)[k].value == JStr(Withheld)
  {
    SanitizeFieldsAt(fields);
  }

  /** A lookup in the sanitised dictionary finds the sanitised value. */
  lemma {:induction false} SanitizedFind(fields: seq<Field>, key: string)
    ensures Find(SanitizeFields(fields), key) ==
      (match Find(fields, key) case None => None case Some(v) => Some(SanitizeField(key, v)))
  {
    if fields != [] {
      SanitizedFind(fields[1..], key);
    }
  }

  /** An address never comes back: what replaces it has no '@'. */
  lemma AddressMasked(s: string)
    requires IsAddressShape(s)
    ensures Sanitize(JStr(s)).JStr? && '@' !in Sanitize(JStr(s)).s
  {
  }

  /** Any other string comes back as redactor lines, none of them private. */
  lemma OtherStringsRedacted(s: string)
    requires !IsAddressShape(s)
    ensures Sanitize(JStr(s)) == JStr(Join("\n", RedactLines(SplitLines(s))))
    ensures forall k :: 0 <= k < |SplitLines(s)| ==> !ContainsPrivateInfo(RedactLines(SplitLines(s))[k])
  {
    RedactedLinesArePublic(SplitLines(s));
  }

  /** A gmail address keeps no upper-case letter on the way through. */
  lemma HostedMailLowered(value: string)
    requires IsHostedMail(Strip(value))
    ensures forall k :: 0 <= k < |NormalizeEmail(value)| ==> !IsUpper(NormalizeEmail(value)[k])
  {
  }
}
