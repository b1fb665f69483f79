/** `_fallback_interpret_instruction` (local_model.py): the deterministic
    parser used when no model is available. A JSON object is passed through;
    otherwise a fixed keyword priority picks exactly one action, and small
    regex extractors fill its payload. */
module Fallback {
  import opened Wrappers
  import opened Text
  import opened Json
  import opened Patterns

  const OrderPizza := "order_pizza"
  const PdfQuestion := "pdf_question"
  const SearchWeb := "search_web"
  const ScheduleMeeting := "schedule_meeting"
  const SendEmail := "send_email"
  const AnswerQuestion := "answer_question"

  /** The action kinds, highest priority first. */
  const Kinds: seq<string> := [OrderPizza, PdfQuestion, SearchWeb, ScheduleMeeting, SendEmail, AnswerQuestion]

  /** `{"action": kind, "payload": payload}`. */
  function Action(kind: string, payload: seq<Field>): Json {
    JObj([Field("action", JStr(kind)), Field("payload", JObj(payload))])
  }

  // ---------------------------------------------------------------------
  // Action entries
  // ---------------------------------------------------------------------

  /** `isinstance(item, dict) and "action" in item`. */
  predicate IsActionEntry(v: Json) {
    IsObjWith(v, "action")
  }

  /** The comprehension that keeps the action entries of a list, in order. */
  function KeepActions(items: seq<Json>): (kept: seq<Json>)
    ensures |kept| <= |items|
    ensures forall k :: 0 <= k < |kept| ==> IsActionEntry(kept[k]) && kept[k] in items
    ensures forall k :: 0 <= k < |items| && IsActionEntry(items[k]) ==> items[k] in kept
  {
    if items == [] then []
    else if IsActionEntry(items[0]) then [items[0]] + KeepActions(items[1..])
    else
      assert forall k :: 1 <= k < |items| ==> items[k] == items[1..][k - 1];
      KeepActions(items[1..])
  }

  /** The comprehension works item by item: on a concatenation it is the
      concatenation, and a single item is kept exactly when it is an action
      entry. */
  lemma {:induction false} KeepActionsAppend(x: seq<Json>, y: seq<Json>)
    ensures KeepActions(x + y) == KeepActions(x) + KeepActions(y)
    ensures |x| == 1 ==> KeepActions(x) == if IsActionEntry(x[0]) then x else []
  {
    if x != [] {
      assert (x + y)[1..] == x[1..] + y;
      KeepActionsAppend(x[1..], y);
    } else {
      assert x + y == y;
    }
  }

  /** Keeping action entries twice keeps the same ones. */
  lemma {:induction false} KeepActionsIdempotent(items: seq<Json>)
    ensures KeepActions(KeepActions(items)) == KeepActions(items)
  {
    if items != [] {
      KeepActionsIdempotent(items[1..]);
    }
  }

  // ---------------------------------------------------------------------
  // Keyword priority
  // ---------------------------------------------------------------------

  /** Whether the trigger of `kind` fires on the lower-cased text. */
  predicate Fires(kind: string, lowered: string, hasEmail: bool) {
    if kind == OrderPizza then Contains(lowered, "pizza")
    else if kind == PdfQuestion then
      Contains(lowered, "pdf") && (Contains(lowered, "question") || Contains(lowered, "ask"))
    else if kind == SearchWeb then Contains(lowered, "search") || Contains(lowered, "look up")
    else if kind == ScheduleMeeting then Contains(lowered, "meeting") || Contains(lowered, "schedule")
    else if kind == SendEmail then Contains(lowered, "email") || Contains(lowered, "mail") || hasEmail
    else kind == AnswerQuestion
  }

  /** The action the keyword dispatcher picks: the first kind, in priority
      order, whose trigger fires. */
  function ChooseKind(lowered: string, hasEmail: bool): (k: nat)
    ensures k < |Kinds| && Fires(Kinds[k], lowered, hasEmail)
    ensures forall j :: 0 <= j < k ==> !Fires(Kinds[j], lowered, hasEmail)
  {
    if Contains(lowered, "pizza") then 0
    else if Contains(lowered, "pdf") && (Contains(lowered, "question") || Contains(lowered, "ask")) then 1
    else if Contains(lowered, "search") || Contains(lowered, "look up") then 2
    else if Contains(lowered, "meeting") || Contains(lowered, "schedule") then 3
    else if Contains(lowered, "email") || Contains(lowered, "mail") || hasEmail then 4
    else 5
  }

  // ---------------------------------------------------------------------
  // The extractors
  // ---------------------------------------------------------------------

  /** Where `.` stops without DOTALL: the first "\n" at or after `i`. */
  function DotEnd(s: string, i: nat): (e: nat)
    requires i <= |s|
    ensures i <= e <= |s| && (e < |s| ==> s[e] == '\n')
    ensures forall k :: i <= k < e ==> s[k] != '\n'
    decreases |s| - i
  {
    if i == |s| || s[i] == '\n' then i else DotEnd(s, i + 1)
  }

  /** The end of the first alternative of `words` found at `i`, ignoring case. */
  function AlternativeEnd(s: string, i: nat, words: seq<string>): (e: Option<nat>)
    ensures e.Some? ==> exists w :: w in words && LowerEqAt(s, i, w) && e.value == i + |w|
    ensures e.None? ==> forall w :: w in words ==> !LowerEqAt(s, i, w)
  {
    if words == [] then None
    else if LowerEqAt(s, i, words[0]) then Some(i + |words[0]|)
    else AlternativeEnd(s, i, words[1..])
  }

  /** The last index in `[lo, hi)` that is not "\n". */
  function LastNonNewline(s: string, lo: nat, hi: nat): (p: Option<nat>)
    requires hi <= |s|
    ensures p.Some? ==> lo <= p.value < hi && s[p.value] != '\n'
    ensures p.Some? ==> forall k :: p.value < k < hi ==> s[k] == '\n'
    ensures p.None? ==> forall k :: lo <= k < hi ==> s[k] == '\n'
    decreases hi
  {
    if hi <= lo then None
    else if s[hi - 1] != '\n' then Some(hi - 1)
    else LastNonNewline(s, lo, hi - 1)
  }

  /** The three extracting regexes. */
  datatype Extractor =
    | QueryRx    // (?:search|look up|find)(?: for)?\s+(.*)
    | SubjectRx  // (?:subject|about)\s*[:\-]\s*(.+)
    | BodyRx     // (?:body|message|saying|content)\s*[:\-]\s*(.+)   with DOTALL

  function Words(x: Extractor): seq<string> {
    match x
    case QueryRx => ["search", "look up", "find"]
    case SubjectRx => ["subject", "about"]
    case BodyRx => ["body", "message", "saying", "content"]
  }

  /** `(?: for)?\s+(.*)` after a search verb ending at `q`: the optional
      " for" is tried first, and `\s+` must follow whatever was taken. */
  function QueryGroup(s: string, q: nat): (g: Option<(nat, nat)>)
    requires q <= |s|
    ensures g.Some? ==> q < g.value.0 <= g.value.1 <= |s|
    ensures g.Some? ==> forall k :: g.value.0 <= k < g.value.1 ==> s[k] != '\n'
  {
    if LowerEqAt(s, q, " for") && q + 4 < |s| && IsSpace(s[q + 4]) then
      var a := RunEnd(s, q + 4, IsSpace);
      Some((a, DotEnd(s, a)))
    else if q < |s| && IsSpace(s[q]) then
      var a := RunEnd(s, q, IsSpace);
      Some((a, DotEnd(s, a)))
    else None
  }

  /** `\s*[:\-]\s*(.+)` after a keyword ending at `q`; with `dotAll` the
      group runs to the end of the text, otherwise to the end of the line. */
  function SeparatedGroup(s: string, q: nat, dotAll: bool): (g: Option<(nat, nat)>)
    requires q <= |s|
    ensures g.Some? ==> q < g.value.0 <= g.value.1 <= |s|
    ensures g.Some? ==> exists k :: q <= k < g.value.0 && (s[k] == ':' || s[k] == '-')
    ensures g.Some? && !dotAll ==> forall k :: g.value.0 <= k < g.value.1 ==> s[k] != '\n'
  {
    var r1 := RunEnd(s, q, IsSpace);
    if r1 == |s| || (s[r1] != ':' && s[r1] != '-') then None
    else
      var r2 := RunEnd(s, r1 + 1, IsSpace);
      if r2 < |s| then
        Some((r2, if dotAll then |s| else DotEnd(s, r2)))
      else if dotAll then
        // `\s*` gives back its last character to `.+`.
        if r2 > r1 + 1 then Some((r2 - 1, |s|)) else None
      else
        // `.+` needs a character other than "\n": `\s*` gives back up to it.
        match LastNonNewline(s, r1 + 1, r2)
        case None => None
        case Some(p) => Some((p, p + 1))
  }

  /** Where the keyword alternation of `x` ends when it matches at `i`. */
  function KeywordEnd(x: Extractor, s: string, i: nat): (q: Option<nat>)
    ensures q.Some? ==> i < q.value <= |s|
  {
    var e := AlternativeEnd(s, i, Words(x));
    assert e.Some? ==> i < e.value <= |s| by {
      if e.Some? {
        var w :| w in Words(x) && LowerEqAt(s, i, w) && e.value == i + |w|;
        assert w != [];
      }
    }
    e
  }

  /** The span of group 1 when the attempt at `i` succeeds. */
  function GroupAt(x: Extractor, s: string, i: nat): (g: Option<(nat, nat)>)
    requires i <= |s|
    ensures g.Some? ==> i < g.value.0 <= g.value.1 <= |s|
    ensures g.Some? && x != BodyRx ==> forall k :: g.value.0 <= k < g.value.1 ==> s[k] != '\n'
    ensures g.Some? && x != QueryRx ==> exists k :: i <= k < g.value.0 && (s[k] == ':' || s[k] == '-')
  {
    match KeywordEnd(x, s, i)
    case None => None
    case Some(q) =>
      if x == QueryRx then QueryGroup(s, q)
      else
        var g := SeparatedGroup(s, q, x == BodyRx);
        assert g.Some? ==> exists k :: i <= k < g.value.0 && (s[k] == ':' || s[k] == '-') by {
          if g.Some? {
            var k :| q <= k < g.value.0 && (s[k] == ':' || s[k] == '-');
            assert i <= k;
          }
        }
        g
  }

  /** The leftmost `j` in `[from, to]` with `hit(j)`. */
  function FirstHit(hit: nat -> bool, from: nat, to: nat): (r: Option<nat>)
    ensures r.Some? ==> from <= r.value <= to && hit(r.value)
    ensures r.Some? ==> (forall j: nat :: from <= j < r.value ==> !hit(j))
    ensures r.None? ==> (forall j: nat :: from <= j <= to ==> !hit(j))
    decreases if from <= to then to + 1 - from else 0
  {
    if from > to then None
    else if hit(from) then Some(from)
    else FirstHit(hit, from + 1, to)
  }

  /** The positions where an attempt of `x` succeeds. */
  function Attempts(x: Extractor, s: string): nat -> bool {
    (j: nat) => j <= |s| && GroupAt(x, s, j).Some?
  }

  /** `re.search(x, s)`: the first position from `from` on where an attempt
      succeeds. */
  function FindGroup(x: Extractor, s: string, from: nat): (r: Option<nat>)
    requires from <= |s|
    ensures r.Some? ==> from <= r.value <= |s| && GroupAt(x, s, r.value).Some?
  {
    var r := FirstHit(Attempts(x, s), from, |s|);
    assert r.Some? ==> Attempts(x, s)(r.value);
    r
  }

  /** The position found is the leftmost one: every attempt before it, and
      every attempt at all when none is found, fails. */
  lemma FindGroupLeftmost(x: Extractor, s: string, from: nat, j: nat)
    requires from <= j <= |s|
    requires FindGroup(x, s, from).None? || j < FindGroup(x, s, from).value
    ensures GroupAt(x, s, j).None?
  {
    assert !Attempts(x, s)(j);
  }

  /** `m.group(1).strip()` if the regex is found, else `default`. */
  function Extract(x: Extractor, s: string, default: string): (r: string)
    ensures FindGroup(x, s, 0).None? ==> r == default
    ensures FindGroup(x, s, 0).Some? ==>
      var (a, b) := GroupAt(x, s, FindGroup(x, s, 0).value).value;
      |r| <= b - a && r == Strip(s[a..b])
  {
    match FindGroup(x, s, 0)
    case None => default
    case Some(i) =>
      var (a, b) := GroupAt(x, s, i).value;
      Strip(s[a..b])
  }

  // ---------------------------------------------------------------------
  // The parser
  // ---------------------------------------------------------------------

  /** The payload of `send_email`. */
  function EmailPayload(text: string): seq<Field> {
    var to := match FirstMatch(EmailShape, text) case Some(m) => m case None => "";
    var subject := Extract(SubjectRx, text, "");
    var body := Extract(BodyRx, text, "");
    [Field("to", JStr(to)), Field("subject", JStr(subject)),
     Field("body", JStr(if body == [] then text else body))]
  }

  /** The action the keyword dispatcher builds for stripped, non-JSON text. */
  function Dispatch(text: string): (r: Json)
    ensures r.JObj? && |r.fields| == 2
    ensures r.fields[0] == Field("action", JStr(Kinds[ChooseKind(Lower(text), Matches(EmailShape, text))]))
    ensures r.fields[0].value == JStr(AnswerQuestion) ==>
      r.fields[1] == Field("payload", JObj([Field("question", JStr(text))]))
    ensures r.fields[0].value == JStr(PdfQuestion) ==>
      r.fields[1] == Field("payload", JObj([Field("question", JStr(text)), Field("documents", JList([]))]))
    ensures r.fields[0].value == JStr(SearchWeb) ==>
      r.fields[1] == Field("payload", JObj([Field("query", JStr(Extract(QueryRx, text, text)))]))
    ensures r.fields[0].value == JStr(SendEmail) ==> r.fields[1] == Field("payload", JObj(EmailPayload(text)))
    ensures r.fields[0].value == JStr(ScheduleMeeting) || r.fields[0].value == JStr(OrderPizza) ==>
      r.fields[1] == Field("payload", JObj([]))
  {
    var kind := Kinds[ChooseKind(Lower(text), Matches(EmailShape, text))];
    if kind == OrderPizza then Action(kind, [])
    else if kind == PdfQuestion then
      Action(kind, [Field("question", JStr(text)), Field("documents", JList([]))])
    else if kind == SearchWeb then Action(kind, [Field("query", JStr(Extract(QueryRx, text, text)))])
    else if kind == ScheduleMeeting then Action(kind, [])
    else if kind == SendEmail then Action(kind, EmailPayload(text))
    else Action(kind, [Field("question", JStr(text))])
  }

  /** The JSON pass-through: an object with "action" as it is, or the action
      entries of an object's "actions" list. */
  function PassThrough(parsed: Option<Json>): (r: Option<Json>)
    ensures r.Some? ==> r.value.JObj?
    // an object naming an action comes back verbatim
    ensures parsed.Some? && IsObjWith(parsed.value, "action") ==> r == parsed
    // otherwise an "actions" list is kept with only its action entries
    ensures parsed.Some? && !IsObjWith(parsed.value, "action") && IsObjWith(parsed.value, "actions") &&
            Member(parsed.value, "actions").JList? ==>
      r == Some(JObj([Field("actions", JList(KeepActions(Member(parsed.value, "actions").items)))]))
    // anything else is left to the keyword dispatcher
    ensures r.None? <==>
      parsed.None? ||
      (!IsObjWith(parsed.value, "action") && !(IsObjWith(parsed.value, "actions") && Member(parsed.value, "actions").JList?))
  {
    match parsed
    case Some(v) =>
      if IsObjWith(v, "action") then Some(v)
      else if IsObjWith(v, "actions") && Member(v, "actions").JList? then
        Some(JObj([Field("actions", JList(KeepActions(Member(v, "actions").items)))]))
      else None
    case None => None
  }

  /** `_fallback_interpret_instruction`; `parse` stands for `json.loads`, with
      None for a decoding error. */
  function Interpret(instruction: string, parse: string -> Option<Json>): (r: Option<Json>)
    ensures r.None? <==> IsBlank(instruction)
  {
    StripEmptyIffBlank(instruction);
    var text := Strip(instruction);
    if text == [] then None
    else
      var fromJson := if StartsWith(text, "{") && EndsWith(text, "}") then PassThrough(parse(text)) else None;
      if fromJson.Some? then fromJson else Some(Dispatch(text))
  }

  // ---------------------------------------------------------------------
  // Properties
  // ---------------------------------------------------------------------

  /** Non-blank text that is not a JSON object yields exactly one action,
      the first in priority order whose trigger fires. */
  lemma InterpretPicksByPriority(instruction: string, parse: string -> Option<Json>)
    requires !IsBlank(instruction)
    requires var text := Strip(instruction);
      !(StartsWith(text, "{") && EndsWith(text, "}")) || PassThrough(parse(text)).None?
    ensures var text := Strip(instruction);
      var k := ChooseKind(Lower(text), Matches(EmailShape, text));
      Interpret(instruction, parse).Some? &&
      Interpret(instruction, parse).value.JObj? &&
      Interpret(instruction, parse).value.fields[0] == Field("action", JStr(Kinds[k])) &&
      Fires(Kinds[k], Lower(text), Matches(EmailShape, text)) &&
      forall j :: 0 <= j < k ==> !Fires(Kinds[j], Lower(text), Matches(EmailShape, text))
  {
    StripEmptyIffBlank(instruction);
  }

  /** A message that mentions pizza is a pizza order, whatever else it says. */
  lemma PizzaWins(instruction: string, parse: string -> Option<Json>)
    requires Contains(Lower(Strip(instruction)), "pizza")
    requires !StartsWith(Strip(instruction), "{")
    ensures Interpret(instruction, parse) == Some(Action(OrderPizza, []))
  {
    var text := Strip(instruction);
    assert text != [] by {
      var i: nat :| i <= |Lower(text)| && OccursAt(Lower(text), "pizza", i);
    }
    StripEmptyIffBlank(instruction);
  }

  /** The search query is the text after the leftmost search verb, on its
      line, stripped; without one it is the whole text. */
  lemma QueryShape(text: string)
    ensures var q := Extract(QueryRx, text, text);
      q == text || ('\n' !in q && |q| <= |text| && (q == [] || (!IsSpace(q[0]) && !IsSpace(q[|q| - 1]))))
  {
    match FindGroup(QueryRx, text, 0)
    case None =>
    case Some(i) =>
      var (a, b) := GroupAt(QueryRx, text, i).value;
      StripWithin(text[a..b]);
      assert '\n' !in text[a..b];
  }

  /** The e-mail action always carries a body, and a recipient exactly when
      the text holds an address. */
  lemma EmailPayloadShape(text: string)
    requires text != []
    ensures var p := EmailPayload(text);
      p[2].value.s != [] &&
      (p[0].value.s == [] <==> !Matches(EmailShape, text)) &&
      (p[0].value.s != [] ==> Contains(text, p[0].value.s))
  {
  }

  /** Without ':' or '-' there is no subject and the body is the whole text:
      "email jane@example.com about lunch saying let's meet at noon" is sent
      with an empty subject and the instruction as its body. */
  lemma NoSeparatorEmail(text: string)
    requires text != []
    requires forall k :: 0 <= k < |text| ==> text[k] != ':' && text[k] != '-'
    ensures EmailPayload(text)[1] == Field("subject", JStr(""))
    ensures EmailPayload(text)[2] == Field("body", JStr(text))
  {
    assert FindGroup(SubjectRx, text, 0).None?;
    assert FindGroup(BodyRx, text, 0).None?;
  }
}
