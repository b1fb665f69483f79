/** `LocalModel.interpret_instruction` (local_model.py): route an instruction
    to the local runtime, the fallback parser or the cloud planner. Before
    anything leaves the machine, e-mail addresses, phone numbers and card
    numbers are swapped for `[LABEL_i]` tokens recorded in a vault; the
    cloud's answer has exact tokens put back and is normalised to
    `{actions, clarifications?}`. */
module Interpretation {
  import opened Wrappers
  import opened Text
  import opened Json
  import opened Patterns
  import opened Privacy
  import opened Fallback
  import opened Runner

  // ---------------------------------------------------------------------
  // Normalisation
  // ---------------------------------------------------------------------

  /** `parsed.get("clarifications")` when it is a list. */
  function ClarificationsOf(v: Json): Option<seq<Json>> {
    var c := Member(v, "clarifications");
    if c.JList? then Some(c.items) else None
  }

  /** `{"actions": actions}`, with "clarifications" added when given. */
  function Canonical(actions: seq<Json>, clarifications: Option<seq<Json>>): Json {
    JObj([Field("actions", JList(actions))] +
         (if clarifications.Some? then [Field("clarifications", JList(clarifications.value))] else []))
  }

  /** The shape every normalised interpretation has: action entries only, and
      something in them. */
  predicate IsCanonical(v: Json) {
    v.JObj? && 1 <= |v.fields| <= 2 &&
    v.fields[0].key == "actions" && v.fields[0].value.JList? &&
    (forall k :: 0 <= k < |v.fields[0].value.items| ==> IsActionEntry(v.fields[0].value.items[k])) &&
    (|v.fields| == 2 ==> v.fields[1].key == "clarifications" && v.fields[1].value.JList?) &&
    (v.fields[0].value.items != [] || (|v.fields| == 2 && v.fields[1].value.items != []))
  }

  /** The second field of a normalised interpretation is exactly the
      clarification list given, and is there only when one was given. */
  predicate CarriesClarifications(v: Json, clarifications: Option<seq<Json>>) {
    v.JObj? && 1 <= |v.fields| &&
    (|v.fields| == 2 <==> clarifications.Some?) &&
    (clarifications.Some? ==> |v.fields| == 2 && v.fields[1] == Field("clarifications", JList(clarifications.value)))
  }

  /** `_normalize_interpretation`. */
  function Normalize(parsed: Json): (r: Option<Json>)
    ensures r.Some? ==> IsCanonical(r.value)
    ensures parsed.JList? ==> (r.Some? <==> KeepActions(parsed.items) != [])
    ensures parsed.JList? && r.Some? ==>
      r.value.fields[0] == Field("actions", JList(KeepActions(parsed.items))) &&
      CarriesClarifications(r.value, None)
    ensures IsObjWith(parsed, "actions") ==>
      (r.Some? <==>
         (Member(parsed, "actions").JList? &&
          (KeepActions(Member(parsed, "actions").items) != [] ||
           (ClarificationsOf(parsed).Some? && ClarificationsOf(parsed).value != []))))
    ensures IsObjWith(parsed, "actions") && r.Some? ==>
      r.value.fields[0] == Field("actions", JList(KeepActions(Member(parsed, "actions").items))) &&
      CarriesClarifications(r.value, ClarificationsOf(parsed))
    ensures IsObjWith(parsed, "action") && !IsObjWith(parsed, "actions") ==>
      r.Some? && r.value.fields[0] == Field("actions", JList([parsed])) &&
      CarriesClarifications(r.value, ClarificationsOf(parsed))
    ensures !parsed.JList? && !IsObjWith(parsed, "action") && !IsObjWith(parsed, "actions") ==> r.None?
  {
    if IsObjWith(parsed, "actions") then
      var raw := Member(parsed, "actions");
      if raw.JList? then
        var actions := KeepActions(raw.items);
        var clarifications := ClarificationsOf(parsed);
        if actions != [] || (clarifications.Some? && clarifications.value != []) then
          Some(Canonical(actions, clarifications))
        else None
      else None
    else if parsed.JList? then
      var actions := KeepActions(parsed.items);
      if actions != [] then Some(Canonical(actions, None)) else None
    else if IsObjWith(parsed, "action") then
      Some(Canonical([parsed], ClarificationsOf(parsed)))
    else None
  }

  lemma {:induction false} KeepActionsKeepsAll(items: seq<Json>)
    requires forall k :: 0 <= k < |items| ==> IsActionEntry(items[k])
    ensures KeepActions(items) == items
  {
    if items != [] {
      KeepActionsKeepsAll(items[1..]);
    }
  }

  /** A canonical interpretation normalises to itself. */
  lemma CanonicalIsFixpoint(v: Json)
    requires IsCanonical(v)
    ensures Normalize(v) == Some(v)
  {
    var items := v.fields[0].value.items;
    CanonicalRebuilt(v);
    KeepActionsKeepsAll(items);
    assert KeepActions(Member(v, "actions").items) == items;
  }

  /** A canonical interpretation is the canonical value built from its own
      action list and clarifications. */
  lemma CanonicalRebuilt(v: Json)
    requires IsCanonical(v)
    ensures IsObjWith(v, "actions") && Member(v, "actions") == JList(v.fields[0].value.items)
    ensures v == Canonical(v.fields[0].value.items, ClarificationsOf(v))
  {
    var items := v.fields[0].value.items;
    assert HasKey(v.fields, "actions") by {
      assert v.fields[0].key == "actions";
    }
    if |v.fields| == 2 {
      assert v.fields[1].key == "clarifications";
      assert Find(v.fields, "clarifications") == Some(v.fields[1].value);
      assert v == Canonical(items, Some(v.fields[1].value.items));
    } else {
      assert !HasKey(v.fields, "clarifications");
      assert v == Canonical(items, None);
    }
  }

  /** Normalising twice is normalising once. */
  lemma NormalizeIdempotent(parsed: Json)
    requires Normalize(parsed).Some?
    ensures Normalize(Normalize(parsed).value) == Normalize(parsed)
  {
    CanonicalIsFixpoint(Normalize(parsed).value);
  }

  // ---------------------------------------------------------------------
  // The placeholder vault
  // ---------------------------------------------------------------------

  /** The placeholder `[LABEL_i]`. */
  function Token(tag: string, i: nat): (t: string)
    ensures |t| >= 4 && t[0] == '[' && t[|t| - 1] == ']'
  {
    "[" + tag + "_" + NatToString(i) + "]"
  }

  /** Distinct indexes give distinct placeholders. */
  lemma TokenInjective(tag: string, i: nat, j: nat)
    requires Token(tag, i) == Token(tag, j)
    ensures i == j
  {
    var pre := "[" + tag + "_";
    var a, b := NatToString(i), NatToString(j);
    assert Token(tag, i) == pre + a + "]";
    assert Token(tag, j) == pre + b + "]";
    assert |a| == |b|;
    assert a == Token(tag, i)[|pre|..|pre| + |a|];
    assert b == Token(tag, j)[|pre|..|pre| + |b|];
    NatToStringInjective(i, j);
  }

  /** The texts `finditer` matched, in order. */
  function Values(p: Pattern, s: string): (vs: seq<string>)
    ensures forall k :: 0 <= k < |vs| ==> vs[k] != [] && Contains(s, vs[k])
  {
    var spans := FindAll(p, s, 0);
    var vs := MatchedTexts(s, spans);
    assert forall k :: 0 <= k < |vs| ==> OccursAt(s, vs[k], spans[k].0);
    vs
  }

  /** The loop of `_placeholder_entities` from match `idx` on: the match is
      recorded under its token and every occurrence of it is replaced. */
  function Substitute(tag: string, values: seq<string>, idx: nat, text: string, vault: map<string, string>)
    : (string, map<string, string>)
    requires forall k :: 0 <= k < |values| ==> values[k] != []
    decreases |values| - idx
  {
    if idx >= |values| then (text, vault)
    else
      var token := Token(tag, idx);
      Substitute(tag, values, idx + 1, ReplaceAll(text, values[idx], token), vault[token := values[idx]])
  }

  /** The tokens of later matches differ from the current one. */
  lemma LaterTokensDiffer(tag: string, idx: nat, n: nat)
    ensures forall k :: idx < k < n ==> Token(tag, k) != Token(tag, idx)
  {
    forall k | idx < k < n ensures Token(tag, k) != Token(tag, idx) {
      if Token(tag, k) == Token(tag, idx) {
        TokenInjective(tag, k, idx);
      }
    }
  }

  /** After the loop the vault's keys are the old keys and one token per
      match. */
  lemma {:induction false} SubstituteKeys(tag: string, values: seq<string>, idx: nat, text: string,
                                          vault: map<string, string>)
    requires forall k :: 0 <= k < |values| ==> values[k] != []
    requires idx <= |values|
    ensures Substitute(tag, values, idx, text, vault).1.Keys ==
      vault.Keys + set k | idx <= k < |values| :: Token(tag, k)
    decreases |values| - idx
  {
    if idx < |values| {
      var token := Token(tag, idx);
      SubstituteKeys(tag, values, idx + 1, ReplaceAll(text, values[idx], token), vault[token := values[idx]]);
      assert (set k | idx <= k < |values| :: Token(tag, k)) ==
             {token} + set k | idx + 1 <= k < |values| :: Token(tag, k);
    }
  }

  /** After the loop every match's token maps to that match. */
  lemma {:induction false} SubstituteRecords(tag: string, values: seq<string>, idx: nat, text: string,
                                             vault: map<string, string>, k: nat)
    requires forall k :: 0 <= k < |values| ==> values[k] != []
    requires idx <= k < |values|
    ensures Token(tag, k) in Substitute(tag, values, idx, text, vault).1
    ensures Substitute(tag, values, idx, text, vault).1[Token(tag, k)] == values[k]
    decreases |values| - idx
  {
    var token := Token(tag, idx);
    var text', vault' := ReplaceAll(text, values[idx], token), vault[token := values[idx]];
    if k == idx {
      if idx + 1 < |values| {
        LaterTokensDiffer(tag, idx, |values|);
        SubstituteKeeps(tag, values, idx + 1, text', vault', token);
      }
    } else {
      SubstituteRecords(tag, values, idx + 1, text', vault', k);
    }
  }

  /** After the loop an old entry whose key is no match's token is unchanged. */
  lemma {:induction false} SubstituteKeeps(tag: string, values: seq<string>, idx: nat, text: string,
                                           vault: map<string, string>, t: string)
    requires forall k :: 0 <= k < |values| ==> values[k] != []
    requires idx <= |values|
    requires t in vault && forall k :: idx <= k < |values| ==> t != Token(tag, k)
    ensures t in Substitute(tag, values, idx, text, vault).1
    ensures Substitute(tag, values, idx, text, vault).1[t] == vault[t]
    decreases |values| - idx
  {
    if idx < |values| {
      var token := Token(tag, idx);
      SubstituteKeeps(tag, values, idx + 1, ReplaceAll(text, values[idx], token), vault[token := values[idx]], t);
    }
  }

  /** `_placeholder_entities`: the text with every match of `p` replaced by
      its token, and the vault with the tokens added. */
  method PlaceholderEntities(p: Pattern, tag: string, text: string, vault: map<string, string>)
    returns (sanitized: string, vault': map<string, string>)
    ensures (sanitized, vault') == Substitute(tag, Values(p, text), 0, text, vault)
  {
    var matches := Values(p, text);
    sanitized, vault' := text, vault;
    for idx := 0 to |matches|
      invariant Substitute(tag, matches, idx, sanitized, vault') == Substitute(tag, matches, 0, text, vault)
    {
      var value := matches[idx];
      var placeholder := Token(tag, idx);
      vault' := vault'[placeholder := value];
      sanitized := ReplaceAll(sanitized, value, placeholder);
    }
  }

  /** The three passes, e-mail addresses first, then phone numbers, then
      card numbers, each on the output of the one before. */
  function Sanitized(instruction: string): (string, map<string, string>) {
    var (t1, v1) := Substitute("EMAIL", Values(EmailShape, instruction), 0, instruction, map[]);
    var (t2, v2) := Substitute("PHONE", Values(PhoneShape, t1), 0, t1, v1);
    Substitute("CARD", Values(CardDigits, t2), 0, t2, v2)
  }

  /** Text without an address, a phone number or a card number is sent as it is. */
  lemma SanitizeNothingToHide(instruction: string)
    requires !Matches(EmailShape, instruction) && !Matches(PhoneShape, instruction)
    requires !Matches(CardDigits, instruction)
    ensures Sanitized(instruction) == (instruction, map[])
  {
    assert FindAll(EmailShape, instruction, 0) == [];
    assert FindAll(PhoneShape, instruction, 0) == [];
    assert FindAll(CardDigits, instruction, 0) == [];
  }

  // ---------------------------------------------------------------------
  // Restoring placeholders
  // ---------------------------------------------------------------------

  /** `placeholders.get(s, s)`. */
  function Lookup(vault: map<string, string>, s: string): string {
    if s in vault then vault[s] else s
  }

  /** `_restore_placeholders`: only strings equal to a token are replaced. */
  function Restore(v: Json, vault: map<string, string>): Json {
    match v
    case JStr(s) => JStr(Lookup(vault, s))
    case JList(items) => JList(RestoreList(items, vault))
    case JObj(fields) => JObj(RestoreFields(fields, vault))
    case _ => v
  }

  function RestoreList(items: seq<Json>, vault: map<string, string>): seq<Json> {
    if items == [] then [] else [Restore(items[0], vault)] + RestoreList(items[1..], vault)
  }

  function RestoreFields(fields: seq<Field>, vault: map<string, string>): seq<Field> {
    if fields == [] then []
    else [Field(fields[0].key, Restore(fields[0].value, vault))] + RestoreFields(fields[1..], vault)
  }

  function LookupAll(vault: map<string, string>, ss: seq<string>): (r: seq<string>)
    ensures |r| == |ss| && forall k :: 0 <= k < |ss| ==> r[k] == Lookup(vault, ss[k])
  {
    if ss == [] then [] else [Lookup(vault, ss[0])] + LookupAll(vault, ss[1..])
  }

  lemma LookupAllAppend(vault: map<string, string>, a: seq<string>, b: seq<string>)
    ensures LookupAll(vault, a + b) == LookupAll(vault, a) + LookupAll(vault, b)
  {
  }

  /** Restoring keeps every list, key and non-string value where it was, and
      replaces each string by its vault entry exactly when it is a token. */
  lemma {:induction false} RestorePreservesShape(v: Json, vault: map<string, string>)
    ensures Skeleton(Restore(v, vault)) == Skeleton(v)
    ensures Strings(Restore(v, vault)) == LookupAll(vault, Strings(v))
    decreases v, 2
  {
    match v
    case JStr(s) =>
    case JList(items) => RestoreListPreservesShape(items, vault);
    case JObj(fields) => RestoreFieldsPreservesShape(fields, vault);
    case _ =>
  }

  lemma {:induction false} RestoreListPreservesShape(items: seq<Json>, vault: map<string, string>)
    ensures SkeletonList(RestoreList(items, vault)) == SkeletonList(items)
    ensures StringsOfList(RestoreList(items, vault)) == LookupAll(vault, StringsOfList(items))
    decreases items, 1
  {
    if items != [] {
      RestorePreservesShape(items[0], vault);
      RestoreListPreservesShape(items[1..], vault);
      LookupAllAppend(vault, Strings(items[0]), StringsOfList(items[1..]));
    }
  }

  lemma {:induction false} RestoreFieldsPreservesShape(fields: seq<Field>, vault: map<string, string>)
    ensures SkeletonFields(RestoreFields(fields, vault)) == SkeletonFields(fields)
    ensures StringsOfFields(RestoreFields(fields, vault)) == LookupAll(vault, StringsOfFields(fields))
    decreases fields, 1
  {
    if fields != [] {
      RestorePreservesShape(fields[0].value, vault);
      RestoreFieldsPreservesShape(fields[1..], vault);
      LookupAllAppend(vault, Strings(fields[0].value), StringsOfFields(fields[1..]));
    }
  }

  // ---------------------------------------------------------------------
  // Routing
  // ---------------------------------------------------------------------

  datatype Route = LocalRoute | FallbackRoute | CloudRoute(sanitized: string)

  /** Where `interpret_instruction` sends an instruction. */
  function RouteOf(instruction: string, hasClient: bool): (r: Route)
    ensures r.CloudRoute? <==>
      hasClient && !ContainsPrivateInfo(instruction) && !ContainsPrivateInfo(Sanitized(instruction).0)
    ensures r.CloudRoute? ==> r.sanitized == Sanitized(instruction).0
    ensures ContainsPrivateInfo(instruction) ==> r == LocalRoute
    ensures r == FallbackRoute <==> !ContainsPrivateInfo(instruction) && !hasClient
  {
    if ContainsPrivateInfo(instruction) then LocalRoute
    else if !hasClient then FallbackRoute
    else
      var sanitized := Sanitized(instruction).0;
      if ContainsPrivateInfo(sanitized) then LocalRoute else CloudRoute(sanitized)
  }

  predicate IsBacktick(c: char) {
    c == '`'
  }

  /** A fenced reply loses its backticks and its first line. */
  function StripFence(raw: string): (r: string)
    ensures !StartsWith(raw, "```") ==> r == raw
    ensures |r| <= |raw|
  {
    if StartsWith(raw, "```") then
      var inner := StripWhere(raw, IsBacktick);
      var head := BeforeFirst(inner, '\n');
      if |head| < |inner| then inner[|head| + 1..] else inner
    else raw
  }

  /** A reply fenced as a code block with a language tag gives back the
      text inside the fence. */
  lemma StripFenceRoundTrip(tag: string, body: string)
    requires '\n' !in tag && '`' !in tag
    requires body == [] || body[|body| - 1] != '`'
    ensures StripFence("```" + tag + "\n" + body + "```") == body
  {
    var inner := tag + "\n" + body;
    var raw := "```" + tag + "\n" + body + "```";
    assert raw == "```" + inner + "```";
    FenceUnwrapped(inner, raw);
    BeforeFirstSplit(tag, '\n', body);
    assert inner[|tag| + 1..] == body;
  }

  /** Stripping the backticks of a fence leaves what it encloses. */
  lemma FenceUnwrapped(inner: string, raw: string)
    requires raw == "```" + inner + "```" && inner != []
    requires !IsBacktick(inner[0]) && !IsBacktick(inner[|inner| - 1])
    ensures StartsWith(raw, "```") && StripWhere(raw, IsBacktick) == inner
  {
    assert raw[..3] == "```";
    assert raw == "```" + (inner + "```");
    StripStartPrefix("```", inner + "```", IsBacktick);
    StripEndSuffix(inner, "```", IsBacktick);
  }

  /** What `_interpret_with_local` makes of the local runtime's reply. */
  function LocalResult(reply: Option<string>, instruction: string, parse: string -> Option<Json>): Option<Json> {
    if reply.None? || reply.value == [] then Fallback.Interpret(instruction, parse)
    else match parse(StripFence(Strip(reply.value)))
      case None => Fallback.Interpret(instruction, parse)
      case Some(p) => Normalize(p)
  }

  /** An answer from the local runtime that is not JSON falls back to the
      keyword parser, so a non-blank instruction still gets an action. */
  lemma LocalResultNonBlank(reply: Option<string>, instruction: string, parse: string -> Option<Json>)
    requires !IsBlank(instruction)
    requires reply.None? || reply.value == [] || parse(StripFence(Strip(reply.value))).None?
    ensures LocalResult(reply, instruction, parse).Some?
  {
  }

  // ---------------------------------------------------------------------
  // The model object
  // ---------------------------------------------------------------------

  const InterpretPrivatePrompt :=
    "You are a command planner for a privacy-preserving assistant. " +
    "Convert the user's instruction into JSON. " +
    "Return either an object with an `action` and `payload`, or an object with an `actions` " +
    "array containing such entries. " +
    "Allowed actions: send_email, schedule_meeting, search_web, order_pizza, pdf_question, " +
    "answer_question. " +
    "When required information is missing, include a `clarifications` array where each item " +
    "has `action`, `field`, and `prompt` explaining what you need from the user. " +
    "Do not include any natural-language commentary outside of JSON."

  const InterpretReason := "interpret_instruction"

  /** `_last_call`. */
  datatype CallRecord = CallRecord(provider: Option<string>, engine: Option<string>, reason: Option<string>)

  /** What the cloud planner does with the sanitised text: the reply content,
      or an exception. */
  datatype CloudOutcome = CloudReply(content: string) | CloudFailure(message: string)

  /** The cloud client is built exactly when `OPENAI_API_KEY` is set and
      non-empty. */
  predicate HasApiKey(env: map<string, string>) {
    EnvOr(env, "OPENAI_API_KEY", "") != []
  }

  /** `OPENAI_MODEL`, defaulting to "gpt-3.5-turbo". */
  function OpenAIModel(env: map<string, string>): string {
    if "OPENAI_MODEL" in env then env["OPENAI_MODEL"] else "gpt-3.5-turbo"
  }

  /** A runner that has not probed anything yet. */
  method StartRunner(env: map<string, string>) returns (local: LocalLlamaRunner)
    ensures fresh(local) && local.Valid() && local.State() == RunnerState(false, None, None, None)
  {
    local := new LocalLlamaRunner(env);
  }

  class LocalModel {
    const hasClient: bool
    const openaiModel: string
    const runner: LocalLlamaRunner
    var lastCall: CallRecord

    predicate Valid()
      reads this, runner
    {
      runner.Valid()
    }

    /** The cloud client exists exactly when an API key is configured. */
    constructor (env: map<string, string>)
      ensures hasClient == HasApiKey(env)
      ensures openaiModel == OpenAIModel(env)
      ensures fresh(runner) && Valid() && runner.State() == RunnerState(false, None, None, None)
      ensures lastCall == CallRecord(None, None, None)
    {
      var local := StartRunner(env);
      hasClient := HasApiKey(env);
      openaiModel := OpenAIModel(env);
      runner := local;
      lastCall := CallRecord(None, None, None);
    }

    /** `_record_call`. */
    method RecordCall(provider: string, engine: Option<string>, reason: string)
      modifies this
      ensures lastCall == CallRecord(Some(provider), engine, Some(reason))
    {
      lastCall := CallRecord(Some(provider), engine, Some(reason));
    }

    /** `get_last_call_info`. */
    function LastCallInfo(): (info: CallRecord)
      reads this
      ensures info == lastCall
    {
      lastCall
    }

    /** The call `_interpret_with_local` records for the runner's reply:
        the runtime's name when nothing came back, else what runs behind it. */
    function LocalCall(reply: Option<string>): (call: CallRecord)
      reads runner
      requires runner.Valid()
      ensures call.reason == Some(InterpretReason)
      ensures call.provider == Some(if reply.None? || reply.value == [] then "local_unavailable" else "local")
      ensures reply.None? || reply.value == [] ==> call.engine == runner.provider
      ensures reply.Some? && reply.value != [] ==> call.engine == Some(runner.ModelDescriptor()) && call.engine.value != []
    {
      if reply.None? || reply.value == [] then CallRecord(Some("local_unavailable"), runner.provider, Some(InterpretReason))
      else CallRecord(Some("local"), Some(runner.ModelDescriptor()), Some(InterpretReason))
    }

    /** `_interpret_with_local`. */
    method InterpretWithLocal(instruction: string, init: string -> InitOutcome,
                              run: (string, Engine, string, string) -> RunOutcome,
                              parse: string -> Option<Json>) returns (r: Option<Json>)
      requires Valid()
      modifies this, runner
      ensures Valid()
      ensures var s := Resolve(old(runner.State()), runner.Candidates(), init);
        var reply := ExpectedReply(s, InterpretPrivatePrompt, instruction, run);
        r == LocalResult(reply, instruction, parse) &&
        runner.State() == Generated(s, InterpretPrivatePrompt, instruction, run) &&
        lastCall == LocalCall(reply)
    {
      var response := runner.Generate(InterpretPrivatePrompt, instruction, init, run);
      if response.None? || response.value == [] {
        var name := runner.ProviderName(init);
        RecordCall("local_unavailable", name, InterpretReason);
        return Fallback.Interpret(instruction, parse);
      }
      RecordCall("local", Some(runner.ModelDescriptor()), InterpretReason);
      var raw := StripFence(Strip(response.value));
      match parse(raw)
      case None =>
        r := Fallback.Interpret(instruction, parse);
      case Some(parsed) =>
        r := Normalize(parsed);
    }

    /** `interpret_instruction`. `sentToCloud` is the text handed to the
        cloud planner, if any: never an instruction with private content,
        and never one in which the bank still finds something. */
    method InterpretInstruction(instruction: string, init: string -> InitOutcome,
                                run: (string, Engine, string, string) -> RunOutcome,
                                parse: string -> Option<Json>, cloud: string -> CloudOutcome)
      returns (r: Option<Json>, sentToCloud: Option<string>)
      requires Valid()
      modifies this, runner
      ensures Valid()
      ensures sentToCloud.Some? <==> RouteOf(instruction, hasClient).CloudRoute?
      ensures sentToCloud.Some? ==> sentToCloud.value == RouteOf(instruction, hasClient).sanitized
      ensures sentToCloud.Some? ==> !ContainsPrivateInfo(sentToCloud.value) && !ContainsPrivateInfo(instruction)
      ensures RouteOf(instruction, hasClient) == FallbackRoute ==>
        r == Fallback.Interpret(instruction, parse) &&
        runner.State() == old(runner.State()) &&
        lastCall == CallRecord(Some("openai_unconfigured"), None, Some(InterpretReason))
      ensures RouteOf(instruction, hasClient) == LocalRoute ==>
        var s := Resolve(old(runner.State()), runner.Candidates(), init);
        var reply := ExpectedReply(s, InterpretPrivatePrompt, instruction, run);
        r == LocalResult(reply, instruction, parse) &&
        runner.State() == Generated(s, InterpretPrivatePrompt, instruction, run) &&
        lastCall == LocalCall(reply)
      ensures sentToCloud.Some? &&
              (cloud(sentToCloud.value).CloudFailure? ||
               parse(StripFence(Strip(cloud(sentToCloud.value).content))).None?) ==>
        var s := Resolve(old(runner.State()), runner.Candidates(), init);
        var reply := ExpectedReply(s, InterpretPrivatePrompt, instruction, run);
        r == LocalResult(reply, instruction, parse) &&
        runner.State() == Generated(s, InterpretPrivatePrompt, instruction, run) &&
        lastCall == LocalCall(reply)
      ensures sentToCloud.Some? && cloud(sentToCloud.value).CloudReply? &&
              parse(StripFence(Strip(cloud(sentToCloud.value).content))).Some? ==>
        r == Normalize(Restore(parse(StripFence(Strip(cloud(sentToCloud.value).content))).value,
                               Sanitized(instruction).1)) &&
        runner.State() == old(runner.State()) &&
        lastCall == CallRecord(Some("openai"), Some(openaiModel), Some(InterpretReason))
    {
      sentToCloud := None;
      if ContainsPrivateInfo(instruction) {
        r := InterpretWithLocal(instruction, init, run, parse);
        return;
      }
      if !hasClient {
        RecordCall("openai_unconfigured", None, InterpretReason);
        return Fallback.Interpret(instruction, parse), None;
      }
      var vault: map<string, string> := map[];
      var sanitized := instruction;
      sanitized, vault := PlaceholderEntities(EmailShape, "EMAIL", sanitized, vault);
      sanitized, vault := PlaceholderEntities(PhoneShape, "PHONE", sanitized, vault);
      sanitized, vault := PlaceholderEntities(CardDigits, "CARD", sanitized, vault);
      assert (sanitized, vault) == Sanitized(instruction);
      if ContainsPrivateInfo(sanitized) {
        r := InterpretWithLocal(instruction, init, run, parse);
        return;
      }
      sentToCloud := Some(sanitized);
      r := PlanInCloud(instruction, sanitized, vault, init, run, parse, cloud);
    }

    /** The cloud branch of `interpret_instruction` for a sanitised
        instruction: the planner's reply with the placeholders restored, or
        the local model when the call fails or its reply is not JSON. */
    method PlanInCloud(instruction: string, sanitized: string, vault: map<string, string>,
                       init: string -> InitOutcome, run: (string, Engine, string, string) -> RunOutcome,
                       parse: string -> Option<Json>, cloud: string -> CloudOutcome)
      returns (r: Option<Json>)
      requires Valid()
      modifies this, runner
      ensures Valid()
      ensures (cloud(sanitized).CloudFailure? || parse(StripFence(Strip(cloud(sanitized).content))).None?) ==>
        var s := Resolve(old(runner.State()), runner.Candidates(), init);
        var reply := ExpectedReply(s, InterpretPrivatePrompt, instruction, run);
        r == LocalResult(reply, instruction, parse) &&
        runner.State() == Generated(s, InterpretPrivatePrompt, instruction, run) &&
        lastCall == LocalCall(reply)
      ensures cloud(sanitized).CloudReply? && parse(StripFence(Strip(cloud(sanitized).content))).Some? ==>
        r == Normalize(Restore(parse(StripFence(Strip(cloud(sanitized).content))).value, vault)) &&
        runner.State() == old(runner.State()) &&
        lastCall == CallRecord(Some("openai"), Some(openaiModel), Some(InterpretReason))
    {
      match cloud(sanitized)
      case CloudFailure(message) =>
        RecordCall("openai_error", None, message);
        r := InterpretWithLocal(instruction, init, run, parse);
      case CloudReply(content) =>
        RecordCall("openai", Some(openaiModel), InterpretReason);
        var raw := StripFence(Strip(content));
        match parse(raw)
        case None =>
          // `json.loads` raises inside the same `try`.
          RecordCall("openai_error", None, "JSONDecodeError");
          r := InterpretWithLocal(instruction, init, run, parse);
        case Some(parsed) =>
          r := Normalize(Restore(parsed, vault));
    }
  }
}
