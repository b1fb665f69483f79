/** The command endpoint of the server (`handle_prompt`, mcp_server.py):
    the actions and clarifications of an interpreted prompt, the fixed order
    of per-action field checks, connector calls (as oracles) and the shape of
    the response. */
module Server {
  import opened Wrappers
  import opened Text
  import opened Json
  import opened Privacy
  import opened Scrub
  import Pizza

  // ---------------------------------------------------------------------
  // Connectors and outcomes
  // ---------------------------------------------------------------------

  /** Why a request ends with an HTTP error instead of a body. */
  datatype Failure =
    | BadRequest(detail: string)   // status 400 with this detail
    | InvalidTime(field: string)   // status 400 from the date parser for this field
    | Unsupported(action: Json)    // status 400, "Unsupported action: ..."
    | ConnectorFailed(error: Json) // status 500 with the connector's error
    | Crashed                      // status 500 from an exception on a value of the wrong type

  /** What `handle_prompt` produces. */
  datatype Response = Answer(body: Json) | Refused(failure: Failure)

  /** The e-mail body: the one given, or a summary of the meeting or the
      pizza order completed earlier in the same request. */
  datatype Body = Given(text: Json) | MeetingNote(meeting: Json) | OrderNote(order: Json)

  /** The document loop of `pdf_question`: an answer from the extracted
      texts with a summary per document, or the prompt of the documents
      clarification (the collected errors, or "no readable text"). */
  datatype PdfOutcome = PdfRead(answer: string, summaries: Json) | PdfUnreadable(prompt: string) | PdfCrash

  /** The connectors, the date parser and the model, as oracles. */
  datatype Connectors = Connectors(
    send: (Json, Json, Body) -> Json,                    // emailer.send(to, subject, body)
    time: Json -> Option<int>,                           // parse_datetime(str(v)), in seconds
    schedule: (Json, Json, int, int, seq<Json>) -> Json, // scheduler.schedule_meeting
    search: (Json, int) -> Json,                         // web_searcher.search(query, n)
    readPdfs: (string, Json) -> PdfOutcome,              // the document loop and its answer
    ask: (Json, Option<Json>) -> Json,                   // answer_from_documents or complete
    pizzaReady: bool,
    pizzaLive: bool,
    env: map<string, string>,
    store: Pizza.Store)

  /** The `context` dict of one request. */
  datatype Context = Context(lastMeeting: Json, lastOrder: Json)

  const NoContext := Context(JNull, JNull)

  /** What one action contributes. */
  datatype StepResult =
    | Clarify(clarification: Json)
    | Complete(entry: Json, context: Context)
    | Stop(failure: Failure)

  const EmptyPromptMessage := "Prompt cannot be empty"
  const UninterpretableMessage := "Unable to interpret the prompt"
  const ActionMissingMessage := "Action missing in instruction"

  const RecipientPrompt := "Please provide the recipient's email address."
  const BodyPrompt := "Please supply the email body so the assistant can send your message."
  const AttendeesPrompt := "Whom should I invite to this meeting? Provide one or more attendee emails."
  const StartPrompt := "When should the meeting start? (Include date and time)."
  const DurationPrompt := "Meeting duration must be a positive number of minutes. Please provide it again."
  const QueryPrompt := "What would you like me to search for?"
  const PdfQuestionPrompt := "Please provide the question you would like answered from the PDFs."
  const PdfDocumentsPrompt := "Please provide one or more PDF documents (paths or base64 data) to analyze."
  const AnswerPrompt := "Please provide the question you want answered."

  /** The six action kinds the endpoint carries out. */
  const Kinds: seq<string> :=
    ["send_email", "schedule_meeting", "search_web", "pdf_question", "order_pizza", "answer_question"]

  /** A clarification record; its payload is sanitised. */
  function Clarification(action: string, field: string, prompt: string, payload: Json): Json {
    JObj([Field("action", JStr(action)), Field("field", JStr(field)), Field("prompt", JStr(prompt)),
          Field("payload", Sanitize(payload))])
  }

  /** An entry of `results_bundle`; payload and result are sanitised. */
  function Entry(action: Json, payload: Json, result: Json): Json {
    JObj([Field("action", action), Field("payload", Sanitize(payload)), Field("result", Sanitize(result))])
  }

  /** A clarification (field index 3) or an entry (field index 1) whose
      payload is the sanitised `payload`. */
  predicate EchoesScrubbed(record: Json, index: nat, payload: Json) {
    record.JObj? && index < |record.fields| && record.fields[index] == Field("payload", Sanitize(payload))
  }

  /** The step result echoes `payload` only sanitised. */
  predicate Scrubbed(r: StepResult, payload: Json) {
    (r.Clarify? ==> EchoesScrubbed(r.clarification, 3, payload)) &&
    (r.Complete? ==> EchoesScrubbed(r.entry, 1, payload))
  }

  /** `result.get("error", default)` on a connector result. */
  function ErrorOf(result: Json, default: string): Json {
    if result.JObj? then GetOr(result.fields, "error", JStr(default)) else JStr(default)
  }

  /** `isinstance(result, dict) and result.get("status") == "failed"`. */
  predicate ReportsFailure(result: Json) {
    result.JObj? && Get(result.fields, "status") == JStr("failed")
  }

  // ---------------------------------------------------------------------
  // The actions
  // ---------------------------------------------------------------------

  /** The recipient: the first of a list, None for an empty one. */
  function Recipient(payload: seq<Field>): Json {
    var to := Get(payload, "to");
    if to.JList? then (if to.items != [] then to.items[0] else JNull) else to
  }

  /** `", ".join(v)` succeeds: a string or a dict (JSON keys are strings)
      iterates strings, and a list must hold only strings. */
  predicate JoinsAsText(v: Json) {
    v.JStr? || v.JObj? || (v.JList? && forall k :: 0 <= k < |v.items| ==> v.items[k].JStr?)
  }

  /** The summary loop `for item in items: item.get(...)` succeeds: it is
      skipped for falsy items, and otherwise needs a list of dicts. */
  predicate SummarisesItems(v: Json) {
    !Truthy(v) || (v.JList? && forall k :: 0 <= k < |v.items| ==> v.items[k].JObj?)
  }

  /** Where the body comes from, if anywhere. Building a summary raises when
      the stored meeting or order is not a dict, when the meeting's
      attendees cannot be joined as text, and when the order's items are
      not a list of dicts. */
  function BodySource(payload: seq<Field>, ctx: Context): (r: Attempt<Option<Body>>)
    ensures r.Thrown? <==>
      !Truthy(Get(payload, "body")) &&
      (if Truthy(ctx.lastMeeting) then
         !(ctx.lastMeeting.JObj? && JoinsAsText(GetOr(ctx.lastMeeting.fields, "attendees", JList([]))))
       else
         Truthy(ctx.lastOrder) &&
         !(ctx.lastOrder.JObj? && SummarisesItems(GetOr(ctx.lastOrder.fields, "items", JList([])))))
    ensures r == Done(None) <==> !Truthy(Get(payload, "body")) && !Truthy(ctx.lastMeeting) && !Truthy(ctx.lastOrder)
    ensures r.Done? && r.value.Some? && r.value.value.Given? ==> r.value.value.text == Get(payload, "body")
  {
    var body := Get(payload, "body");
    if Truthy(body) then Done(Some(Given(body)))
    else if Truthy(ctx.lastMeeting) then
      var meeting := ctx.lastMeeting;
      if meeting.JObj? && JoinsAsText(GetOr(meeting.fields, "attendees", JList([]))) then Done(Some(MeetingNote(meeting)))
      else Thrown
    else if Truthy(ctx.lastOrder) then
      var order := ctx.lastOrder;
      if order.JObj? && SummarisesItems(GetOr(order.fields, "items", JList([]))) then Done(Some(OrderNote(order)))
      else Thrown
    else Done(None)
  }

  function SendEmail(payload: seq<Field>, ctx: Context, c: Connectors): (r: StepResult)
    ensures Scrubbed(r, JObj(payload))
  {
    var p := JObj(payload);
    var to := Recipient(payload);
    var subject := if Truthy(Get(payload, "subject")) then Get(payload, "subject") else JStr("No subject");
    if !Truthy(to) then Clarify(Clarification("send_email", "to", RecipientPrompt, p))
    else
      match PyIn("@", to)
      case None => Stop(Crashed)
      case Some(hasAt) =>
        if !hasAt then Clarify(Clarification("send_email", "to", RecipientPrompt, p))
        else
          match BodySource(payload, ctx)
          case Thrown => Stop(Crashed)
          case Done(source) =>
            if source.None? then Clarify(Clarification("send_email", "body", BodyPrompt, p))
            else
              var result := c.send(to, subject, source.value);
              if result.JObj? && Get(result.fields, "status") != JStr("sent") then
                Stop(ConnectorFailed(ErrorOf(result, "Email send failed")))
              else Complete(Entry(JStr("send_email"), p, result), ctx)
  }

  /** The attendee list: a single attendee becomes a list of one. */
  function Attendees(payload: seq<Field>): seq<Json> {
    var given := Get(payload, "attendees");
    if !Truthy(given) then [] else if given.JList? then given.items else [given]
  }

  datatype Length = Minutes(n: int) | NotPositive | EndUnreadable | DurationUnreadable

  /** The meeting length: from the end time, else from a truthy duration
      (clarified when not positive), else 30 minutes. */
  function MeetingLength(payload: seq<Field>, startAt: int, c: Connectors): (r: Length)
    ensures r.Minutes? && !Truthy(Get(payload, "end_time")) ==> r.n > 0
    // from an end time: the whole minutes between start and end, rounded down
    ensures Truthy(Get(payload, "end_time")) ==>
      (r == EndUnreadable <==> c.time(Get(payload, "end_time")).None?) &&
      (r.Minutes? <==> c.time(Get(payload, "end_time")).Some?) &&
      (r.Minutes? ==> var span := c.time(Get(payload, "end_time")).value - startAt;
                      r.n * 60 <= span < r.n * 60 + 60)
    // from a duration: the given number when positive, clarified otherwise
    ensures !Truthy(Get(payload, "end_time")) && Truthy(Get(payload, "duration_minutes")) ==>
      var d := IntOf(Get(payload, "duration_minutes"));
      (r == DurationUnreadable <==> d.None?) &&
      (r == NotPositive <==> d.Some? && d.value <= 0) &&
      (d.Some? && d.value > 0 ==> r == Minutes(d.value))
    // neither: half an hour
    ensures !Truthy(Get(payload, "end_time")) && !Truthy(Get(payload, "duration_minutes")) ==> r == Minutes(30)
  {
    var end := Get(payload, "end_time");
    var duration := Get(payload, "duration_minutes");
    if Truthy(end) then
      match c.time(end)
      case None => EndUnreadable
      case Some(endAt) => Minutes((endAt - startAt) / 60)
    else if Truthy(duration) then
      match IntOf(duration)
      case None => DurationUnreadable
      case Some(d) => if d <= 0 then NotPositive else Minutes(d)
    else Minutes(30)
  }

  function ScheduleMeeting(payload: seq<Field>, ctx: Context, c: Connectors): (r: StepResult)
    ensures Scrubbed(r, JObj(payload))
  {
    var p := JObj(payload);
    var attendees := Attendees(payload);
    var start := Get(payload, "start_time");
    if attendees == [] then Clarify(Clarification("schedule_meeting", "attendees", AttendeesPrompt, p))
    else if !Truthy(start) then Clarify(Clarification("schedule_meeting", "start_time", StartPrompt, p))
    else
      match c.time(start)
      case None => Stop(InvalidTime("start_time"))
      case Some(startAt) =>
        match MeetingLength(payload, startAt, c)
        case EndUnreadable => Stop(InvalidTime("end_time"))
        case DurationUnreadable => Stop(Crashed)
        case NotPositive => Clarify(Clarification("schedule_meeting", "duration_minutes", DurationPrompt, p))
        case Minutes(n) =>
          var title := if Truthy(Get(payload, "title")) then Get(payload, "title") else JStr("Untitled Meeting");
          var description := if Truthy(Get(payload, "description")) then Get(payload, "description") else JStr("");
          var result := c.schedule(title, description, startAt, n, attendees);
          if ReportsFailure(result) then Stop(ConnectorFailed(ErrorOf(result, "Meeting scheduling failed")))
          else Complete(Entry(JStr("schedule_meeting"), p, result), ctx.(lastMeeting := result))
  }

  function SearchWeb(payload: seq<Field>, ctx: Context, c: Connectors): (r: StepResult)
    ensures Scrubbed(r, JObj(payload))
  {
    var p := JObj(payload);
    var query := Get(payload, "query");
    if !Truthy(query) then Clarify(Clarification("search_web", "query", QueryPrompt, p))
    else
      match IntOf(GetOr(payload, "num_results", JNum(5)))
      case None => Stop(Crashed)
      case Some(n) =>
        var result := c.search(query, n);
        if ReportsFailure(result) then Stop(ConnectorFailed(ErrorOf(result, "Search failed")))
        else Complete(Entry(JStr("search_web"), p, result), ctx)
  }

  /** The documents read for a question: a clarification with the loop's
      prompt, or an entry whose answer is redacted. */
  function PdfAnswer(question: string, documents: Json, p: Json, ctx: Context, c: Connectors): (r: StepResult)
    ensures Scrubbed(r, p)
    ensures r.Stop? <==> c.readPdfs(question, documents).PdfCrash?
    ensures r.Clarify? <==> c.readPdfs(question, documents).PdfUnreadable?
    ensures r.Clarify? ==>
      r.clarification == Clarification("pdf_question", "documents", c.readPdfs(question, documents).prompt, p)
    // the answer reported is the redacted answer
    ensures r.Complete? ==> r.context == ctx
    ensures r.Complete? ==>
      var read := c.readPdfs(question, documents);
      r.entry == Entry(JStr("pdf_question"), p,
                       JObj([Field("question", JStr(question)), Field("answer", JStr(Redacted(read.answer))),
                             Field("documents", read.summaries)]))
  {
    match c.readPdfs(question, documents)
    case PdfCrash => Stop(Crashed)
    case PdfUnreadable(prompt) => Clarify(Clarification("pdf_question", "documents", prompt, p))
    case PdfRead(answer, summaries) =>
      var result := JObj([Field("question", JStr(question)), Field("answer", JStr(Redacted(answer))),
                          Field("documents", summaries)]);
      Complete(Entry(JStr("pdf_question"), p, result), ctx)
  }

  function PdfQuestion(payload: seq<Field>, ctx: Context, c: Connectors): (r: StepResult)
    ensures Scrubbed(r, JObj(payload))
  {
    var p := JObj(payload);
    var given := Get(payload, "question");
    var raw := if Truthy(given) then given else JStr("");
    var documents := Get(payload, "documents");
    if !raw.JStr? then Stop(Crashed)
    else
      var question := Strip(raw.s);
      if question == [] then Clarify(Clarification("pdf_question", "question", PdfQuestionPrompt, p))
      else if !Truthy(documents) then Clarify(Clarification("pdf_question", "documents", PdfDocumentsPrompt, p))
      else PdfAnswer(question, documents, p, ctx, c)
  }

  /** `order_pizza`: the orderer's own validation first, then `place_order`,
      whose scrubbing of special instructions shows in the entry's payload. */
  function OrderPizza(payload: Json, ctx: Context, c: Connectors): (r: StepResult)
    ensures r.Clarify? ==> EchoesScrubbed(r.clarification, 3, payload)
    ensures r.Complete? ==> EchoesScrubbed(r.entry, 1, Pizza.PlaceOrderResult(c.pizzaReady, c.pizzaLive, true, payload, c.env, c.store).1)
  {
    match Pizza.Validate(payload)
    case Raises => Stop(Crashed)
    case Rejected(message) => Clarify(Clarification("order_pizza", "order_details", message, payload))
    case Accepted =>
      var (response, scrubbed) := Pizza.PlaceOrderResult(c.pizzaReady, c.pizzaLive, true, payload, c.env, c.store);
      match response
      case Thrown => Stop(Crashed)
      case Done(result) =>
        if !result.JObj? then Stop(Crashed)
        else if Get(result.fields, "status") == JStr("failed") then
          Stop(ConnectorFailed(ErrorOf(result, "Pizza ordering failed")))
        else Complete(Entry(JStr("order_pizza"), scrubbed, result), ctx.(lastOrder := result))
  }

  /** An order the orderer's validation rejects becomes one "order_details"
      clarification carrying that message and the payload as given, and the
      ordering library is never reached: neither the store nor the
      environment matters. */
  lemma OrderPizzaRejected(payload: Json, ctx: Context, c: Connectors, store: Pizza.Store, env: map<string, string>)
    requires Pizza.Validate(payload).Rejected?
    ensures OrderPizza(payload, ctx, c) ==
      Clarify(Clarification("order_pizza", "order_details", Pizza.Validate(payload).message, payload))
    ensures OrderPizza(payload, ctx, c) == OrderPizza(payload, ctx, c.(store := store, env := env))
  {
  }

  function AnswerQuestion(payload: seq<Field>, ctx: Context, c: Connectors): (r: StepResult)
    ensures Scrubbed(r, JObj(payload))
  {
    var p := JObj(payload);
    var question := Get(payload, "question");
    var docs := Get(payload, "context");
    if !Truthy(question) then Clarify(Clarification("answer_question", "question", AnswerPrompt, p))
    else
      var content :=
        if Truthy(docs) then c.ask(question, Some(if docs.JStr? then JList([docs]) else docs))
        else c.ask(question, None);
      Complete(Entry(JStr("answer_question"), p, JObj([Field("answer", content)])), ctx)
  }

  /** `item.get("payload") or {}`. */
  function PayloadOf(item: Json): Json {
    var given := Member(item, "payload");
    if Truthy(given) then given else JObj([])
  }

  /** One pass of the action loop. */
  function Step(item: Json, ctx: Context, c: Connectors): StepResult {
    var action := Member(item, "action");
    var payload := PayloadOf(item);
    if !Truthy(action) then Stop(BadRequest(ActionMissingMessage))
    else if action == JStr("order_pizza") then OrderPizza(payload, ctx, c)
    else if !(action.JStr? && action.s in Kinds) then Stop(Unsupported(action))
    else if !payload.JObj? then Stop(Crashed)
    else if action == JStr("send_email") then SendEmail(payload.fields, ctx, c)
    else if action == JStr("schedule_meeting") then ScheduleMeeting(payload.fields, ctx, c)
    else if action == JStr("search_web") then SearchWeb(payload.fields, ctx, c)
    else if action == JStr("pdf_question") then PdfQuestion(payload.fields, ctx, c)
    else AnswerQuestion(payload.fields, ctx, c)
  }

  /** The step as a rule the run is parameterised by. */
  function Rule(c: Connectors): (Json, Context) -> StepResult {
    (item, ctx) => Step(item, ctx, c)
  }

  // ---------------------------------------------------------------------
  // Extracting actions and clarifications
  // ---------------------------------------------------------------------

  predicate IsAction(item: Json) {
    item.JObj? && Truthy(Get(item.fields, "action"))
  }

  /** The list comprehension keeping dict items with a truthy "action". */
  function Actionable(items: seq<Json>): (r: seq<Json>)
    ensures |r| <= |items|
    ensures forall k :: 0 <= k < |r| ==> IsAction(r[k])
    ensures forall x :: x in r ==> x in items
    ensures forall x :: x in items && IsAction(x) ==> x in r
  {
    if items == [] then []
    else (if IsAction(items[0]) then [items[0]] else []) + Actionable(items[1..])
  }

  /** The comprehension works item by item: on a concatenation it is the
      concatenation, and a single item is kept exactly when it is an action. */
  lemma {:induction false} ActionableAppend(x: seq<Json>, y: seq<Json>)
    ensures Actionable(x + y) == Actionable(x) + Actionable(y)
    ensures |x| == 1 ==> Actionable(x) == if IsAction(x[0]) then x else []
  {
    if x != [] {
      assert (x + y)[1..] == x[1..] + y;
      ActionableAppend(x[1..], y);
    } else {
      assert x + y == y;
    }
  }

  /** The actions of an interpretation: its "actions" list, a single
      "actions" dict, or the interpretation itself when it names an action. */
  function ActionsOf(structured: seq<Field>): (actions: seq<Json>)
    ensures forall k :: 0 <= k < |actions| ==> IsAction(actions[k])
    ensures Get(structured, "actions").JList? ==> actions == Actionable(Get(structured, "actions").items)
    ensures !Get(structured, "actions").JList? && IsAction(Get(structured, "actions")) ==>
      actions == [Get(structured, "actions")]
    ensures !Get(structured, "actions").JList? && !IsAction(Get(structured, "actions")) ==>
      actions == (if Truthy(Get(structured, "action")) then [JObj(structured)] else [])
  {
    var raw := Get(structured, "actions");
    if raw.JList? then Actionable(raw.items)
    else if IsAction(raw) then [raw]
    else if Truthy(Get(structured, "action")) then [JObj(structured)]
    else []
  }

  /** A clarification of the interpretation, re-emitted with its payload
      sanitised. */
  function Restated(c: seq<Field>): Json {
    JObj([Field("action", Get(c, "action")), Field("field", Get(c, "field")),
          Field("prompt", Get(c, "prompt")), Field("payload", Sanitize(Get(c, "payload")))])
  }

  /** The clarifications restated: every dict is re-emitted with a
      sanitised payload, anything else is dropped. */
  function RestateAll(items: seq<Json>): (r: seq<Json>)
    ensures |r| <= |items|
    ensures (forall k :: 0 <= k < |items| ==> items[k].JObj?) ==>
      |r| == |items| && forall k :: 0 <= k < |r| ==> r[k] == Restated(items[k].fields)
    ensures (forall k :: 0 <= k < |items| ==> !items[k].JObj?) ==> r == []
  {
    if items == [] then []
    else (if items[0].JObj? then [Restated(items[0].fields)] else []) + RestateAll(items[1..])
  }

  /** Restating works item by item: on a concatenation it is the
      concatenation, a dict becomes one restated entry, anything else none. */
  lemma {:induction false} RestateAllAppend(x: seq<Json>, y: seq<Json>)
    ensures RestateAll(x + y) == RestateAll(x) + RestateAll(y)
    ensures |x| == 1 ==> RestateAll(x) == if x[0].JObj? then [Restated(x[0].fields)] else []
  {
    if x != [] {
      assert (x + y)[1..] == x[1..] + y;
      RestateAllAppend(x[1..], y);
    } else {
      assert x + y == y;
    }
  }

  function InterpretedClarifications(structured: seq<Field>): seq<Json> {
    var given := Get(structured, "clarifications");
    if given.JList? then RestateAll(given.items) else []
  }

  // ---------------------------------------------------------------------
  // The action loop and the response
  // ---------------------------------------------------------------------

  datatype Outcome = Finished(clarifications: seq<Json>, bundle: seq<Json>) | Halted(failure: Failure)

  /** The loop over the actions: each one adds one clarification or one
      entry, or ends the request. */
  function Run(actions: seq<Json>, ctx: Context, rule: (Json, Context) -> StepResult,
               clarifications: seq<Json>, bundle: seq<Json>): (o: Outcome)
    ensures o.Finished? ==>
      |clarifications| <= |o.clarifications| && |bundle| <= |o.bundle| &&
      |o.clarifications| + |o.bundle| == |clarifications| + |bundle| + |actions| &&
      o.clarifications[..|clarifications|] == clarifications && o.bundle[..|bundle|] == bundle
    ensures o.Halted? <==>
      exists k, at :: 0 <= k < |actions| && ReachesWith(actions, ctx, rule, k, at) && rule(actions[k], at).Stop?
    decreases |actions|
  {
    if actions == [] then Finished(clarifications, bundle)
    else
      var r := rule(actions[0], ctx);
      match r
      case Stop(f) =>
        assert ReachesWith(actions, ctx, rule, 0, ctx);
        Halted(f)
      case Clarify(cl) =>
        var o := Run(actions[1..], ctx, rule, clarifications + [cl], bundle);
        ReachesShift(actions, ctx, rule, ctx);
        o
      case Complete(e, next) =>
        var o := Run(actions[1..], next, rule, clarifications, bundle + [e]);
        ReachesShift(actions, ctx, rule, next);
        o
  }

  /** The context in which action k of the list is carried out, when no
      earlier action stopped the request. */
  function ContextAt(actions: seq<Json>, ctx: Context, rule: (Json, Context) -> StepResult, k: nat): Option<Context>
    requires k <= |actions|
    decreases k
  {
    if k == 0 then Some(ctx)
    else
      match rule(actions[0], ctx)
      case Stop(_) => None
      case Clarify(_) => ContextAt(actions[1..], ctx, rule, k - 1)
      case Complete(_, next) => ContextAt(actions[1..], next, rule, k - 1)
  }

  predicate ReachesWith(actions: seq<Json>, ctx: Context, rule: (Json, Context) -> StepResult, k: nat, at: Context) {
    k <= |actions| && ContextAt(actions, ctx, rule, k) == Some(at)
  }

  lemma ReachesShift(actions: seq<Json>, ctx: Context, rule: (Json, Context) -> StepResult, next: Context)
    requires actions != [] && !rule(actions[0], ctx).Stop?
    requires rule(actions[0], ctx).Complete? ==> next == rule(actions[0], ctx).context
    requires rule(actions[0], ctx).Clarify? ==> next == ctx
    ensures forall k: nat, at :: ReachesWith(actions[1..], next, rule, k, at) <==> ReachesWith(actions, ctx, rule, k + 1, at)
  {
  }

  /** `record` is the clarification some step reached in the loop returned. */
  ghost predicate ClarifiedBy(actions: seq<Json>, ctx: Context, rule: (Json, Context) -> StepResult, record: Json) {
    exists k, at :: 0 <= k < |actions| && ReachesWith(actions, ctx, rule, k, at) && rule(actions[k], at) == Clarify(record)
  }

  /** `record` is the entry some step reached in the loop returned. */
  ghost predicate EnteredBy(actions: seq<Json>, ctx: Context, rule: (Json, Context) -> StepResult, record: Json) {
    exists k, at :: 0 <= k < |actions| && ReachesWith(actions, ctx, rule, k, at) &&
                    rule(actions[k], at).Complete? && rule(actions[k], at).entry == record
  }

  /** Every clarification and entry a finished loop adds is what a step
      reached in that loop returned. */
  lemma {:induction false} RunRecords(actions: seq<Json>, ctx: Context, rule: (Json, Context) -> StepResult,
                                      clarifications: seq<Json>, bundle: seq<Json>)
    requires Run(actions, ctx, rule, clarifications, bundle).Finished?
    ensures var o := Run(actions, ctx, rule, clarifications, bundle);
      forall j :: |clarifications| <= j < |o.clarifications| ==> ClarifiedBy(actions, ctx, rule, o.clarifications[j])
    ensures var o := Run(actions, ctx, rule, clarifications, bundle);
      forall j :: |bundle| <= j < |o.bundle| ==> EnteredBy(actions, ctx, rule, o.bundle[j])
    decreases |actions|
  {
    var o := Run(actions, ctx, rule, clarifications, bundle);
    if actions != [] {
      assert ReachesWith(actions, ctx, rule, 0, ctx);
      var next := match rule(actions[0], ctx) case Complete(_, n) => n case _ => ctx;
      var cs := if rule(actions[0], ctx).Clarify? then clarifications + [rule(actions[0], ctx).clarification] else clarifications;
      var bs := if rule(actions[0], ctx).Complete? then bundle + [rule(actions[0], ctx).entry] else bundle;
      assert o == Run(actions[1..], next, rule, cs, bs);
      RunRecords(actions[1..], next, rule, cs, bs);
      ReachesShift(actions, ctx, rule, next);
      forall j | |clarifications| <= j < |o.clarifications|
        ensures ClarifiedBy(actions, ctx, rule, o.clarifications[j])
      {
        if j < |cs| {
          assert o.clarifications[j] == cs[j] == rule(actions[0], ctx).clarification;
        } else {
          var k, at :| 0 <= k < |actions| - 1 && ReachesWith(actions[1..], next, rule, k, at) &&
            rule(actions[1..][k], at) == Clarify(o.clarifications[j]);
          assert ReachesWith(actions, ctx, rule, k + 1, at);
        }
      }
      forall j | |bundle| <= j < |o.bundle|
        ensures EnteredBy(actions, ctx, rule, o.bundle[j])
      {
        if j < |bs| {
          assert o.bundle[j] == bs[j] == rule(actions[0], ctx).entry;
        } else {
          var k, at :| 0 <= k < |actions| - 1 && ReachesWith(actions[1..], next, rule, k, at) &&
            rule(actions[1..][k], at).Complete? && rule(actions[1..][k], at).entry == o.bundle[j];
          assert ReachesWith(actions, ctx, rule, k + 1, at);
        }
      }
    }
  }

  /** The result of every step the loop reaches, in the order of the
      actions; it ends with the first step that stops, if any. */
  function Results(actions: seq<Json>, ctx: Context, rule: (Json, Context) -> StepResult): (rs: seq<StepResult>)
    ensures |rs| <= |actions|
    ensures rs != [] <==> actions != []
    decreases |actions|
  {
    if actions == [] then []
    else
      var r := rule(actions[0], ctx);
      match r
      case Stop(_) => [r]
      case Clarify(_) => [r] + Results(actions[1..], ctx, rule)
      case Complete(_, next) => [r] + Results(actions[1..], next, rule)
  }

  /** Step k of the trace is the rule applied to action k in the context
      the earlier steps left; no step before the last stops, and a trace
      shorter than the actions ends with a stop. */
  lemma {:induction false} ResultsTrace(actions: seq<Json>, ctx: Context, rule: (Json, Context) -> StepResult)
    ensures var rs := Results(actions, ctx, rule);
      forall k :: 0 <= k < |rs| ==>
        ContextAt(actions, ctx, rule, k).Some? && rs[k] == rule(actions[k], ContextAt(actions, ctx, rule, k).value)
    ensures var rs := Results(actions, ctx, rule); forall k :: 0 <= k < |rs| - 1 ==> !rs[k].Stop?
    ensures var rs := Results(actions, ctx, rule); |rs| < |actions| ==> rs[|rs| - 1].Stop?
    decreases |actions|
  {
    if actions != [] {
      var rs := Results(actions, ctx, rule);
      assert ReachesWith(actions, ctx, rule, 0, ctx);
      if !rule(actions[0], ctx).Stop? {
        var next := match rule(actions[0], ctx) case Complete(_, n) => n case _ => ctx;
        var rest := Results(actions[1..], next, rule);
        assert rs == [rule(actions[0], ctx)] + rest;
        ResultsTrace(actions[1..], next, rule);
        ReachesShift(actions, ctx, rule, next);
        forall k | 0 < k < |rs|
          ensures ContextAt(actions, ctx, rule, k).Some?
          ensures rs[k] == rule(actions[k], ContextAt(actions, ctx, rule, k).value)
        {
          var at := ContextAt(actions[1..], next, rule, k - 1).value;
          assert ReachesWith(actions[1..], next, rule, k - 1, at);
          assert ReachesWith(actions, ctx, rule, k, at);
          assert rs[k] == rest[k - 1] && actions[1..][k - 1] == actions[k];
        }
      }
    }
  }

  /** The clarifications among step results, in order. */
  function ClarificationsOf(rs: seq<StepResult>): seq<Json> {
    if rs == [] then []
    else (if rs[0].Clarify? then [rs[0].clarification] else []) + ClarificationsOf(rs[1..])
  }

  /** The entries among step results, in order. */
  function EntriesOf(rs: seq<StepResult>): seq<Json> {
    if rs == [] then []
    else (if rs[0].Complete? then [rs[0].entry] else []) + EntriesOf(rs[1..])
  }

  /** A finished loop reached every action, none of them stopped, and it
      appended, in the order of the actions, the clarification of each step
      that clarified and the entry of each step that completed: one record
      per action. */
  lemma {:induction false} RunInOrder(actions: seq<Json>, ctx: Context, rule: (Json, Context) -> StepResult,
                                      clarifications: seq<Json>, bundle: seq<Json>)
    requires Run(actions, ctx, rule, clarifications, bundle).Finished?
    ensures |Results(actions, ctx, rule)| == |actions|
    ensures forall k :: 0 <= k < |actions| ==> !Results(actions, ctx, rule)[k].Stop?
    ensures Run(actions, ctx, rule, clarifications, bundle).clarifications ==
            clarifications + ClarificationsOf(Results(actions, ctx, rule))
    ensures Run(actions, ctx, rule, clarifications, bundle).bundle == bundle + EntriesOf(Results(actions, ctx, rule))
    decreases |actions|
  {
    if actions != [] {
      var o := Run(actions, ctx, rule, clarifications, bundle);
      var rs := Results(actions, ctx, rule);
      match rule(actions[0], ctx)
      case Clarify(cl) =>
        var rest := Results(actions[1..], ctx, rule);
        assert rs == [Clarify(cl)] + rest;
        assert rs[1..] == rest;
        RunInOrder(actions[1..], ctx, rule, clarifications + [cl], bundle);
        assert ClarificationsOf(rs) == [cl] + ClarificationsOf(rest);
        assert EntriesOf(rs) == EntriesOf(rest);
        assert clarifications + [cl] + ClarificationsOf(rest) == clarifications + ([cl] + ClarificationsOf(rest));
      case Complete(e, next) =>
        var rest := Results(actions[1..], next, rule);
        assert rs == [Complete(e, next)] + rest;
        assert rs[1..] == rest;
        RunInOrder(actions[1..], next, rule, clarifications, bundle + [e]);
        assert ClarificationsOf(rs) == ClarificationsOf(rest);
        assert EntriesOf(rs) == [e] + EntriesOf(rest);
        assert bundle + [e] + EntriesOf(rest) == bundle + ([e] + EntriesOf(rest));
    }
  }

  /** The response body once the loop has finished. */
  function Assemble(bundle: seq<Json>, clarifications: seq<Json>): (r: Json)
    ensures clarifications != [] ==>
      r.JObj? && Get(r.fields, "clarifications") == JList(clarifications) &&
      (HasKey(r.fields, "actions") <==> bundle != []) &&
      (bundle != [] ==> Get(r.fields, "actions") == JList(bundle))
    ensures clarifications == [] && |bundle| == 1 ==> r == bundle[0]
    ensures clarifications == [] && |bundle| != 1 ==> r == JObj([Field("actions", JList(bundle))])
  {
    if clarifications != [] then
      if bundle != [] then
        var fields := [Field("actions", JList(bundle)), Field("clarifications", JList(clarifications))];
        FindAt(fields, "clarifications", 1);
        JObj(fields)
      else JObj([Field("clarifications", JList(clarifications))])
    else if |bundle| == 1 then bundle[0]
    else JObj([Field("actions", JList(bundle))])
  }

  /** `handle_prompt`, given the interpretation the model returns for the
      stripped prompt. */
  function Handle(prompt: string, interpret: string -> Option<Json>, c: Connectors): Response {
    var instruction := Strip(prompt);
    if instruction == [] then Refused(BadRequest(EmptyPromptMessage))
    else
      var structured := interpret(instruction);
      if structured.None? || !Truthy(structured.value) then Refused(BadRequest(UninterpretableMessage))
      else if !structured.value.JObj? then Refused(Crashed)
      else Respond(structured.value.fields, c)
  }

  /** The rest of `handle_prompt` once the model has returned a dict. */
  function Respond(fields: seq<Field>, c: Connectors): Response {
    var actions := ActionsOf(fields);
    var clarifications := InterpretedClarifications(fields);
    if actions == [] then
      if clarifications != [] then Answer(JObj([Field("clarifications", JList(clarifications))]))
      else Refused(BadRequest(UninterpretableMessage))
    else
      match Run(actions, NoContext, Rule(c), clarifications, [])
      case Halted(f) => Refused(f)
      case Finished(cl, bundle) => Answer(Assemble(bundle, cl))
  }

  /** An empty prompt is refused before the model is consulted. */
  lemma HandleEmptyPrompt(prompt: string, interpret: string -> Option<Json>, other: string -> Option<Json>, c: Connectors)
    requires Strip(prompt) == []
    ensures Handle(prompt, interpret, c) == Refused(BadRequest(EmptyPromptMessage))
    ensures Handle(prompt, interpret, c) == Handle(prompt, other, c)
  {
  }

  /** An interpretation with neither actions nor clarifications, like one
      that is missing or empty, cannot be acted on. */
  lemma HandleNothingToDo(prompt: string, interpret: string -> Option<Json>, c: Connectors)
    requires Strip(prompt) != []
    requires var s := interpret(Strip(prompt));
      s.Some? && s.value.JObj? && ActionsOf(s.value.fields) == [] && InterpretedClarifications(s.value.fields) == []
    ensures Handle(prompt, interpret, c) == Refused(BadRequest(UninterpretableMessage))
  {
  }

  /** A prompt the model turns into a non-empty dict is answered from that
      dict alone. */
  lemma HandleResponds(prompt: string, interpret: string -> Option<Json>, c: Connectors)
    requires Strip(prompt) != []
    requires var s := interpret(Strip(prompt)); s.Some? && s.value.JObj? && s.value.fields != []
    ensures Handle(prompt, interpret, c) == Respond(interpret(Strip(prompt)).value.fields, c)
  {
    assert Truthy(interpret(Strip(prompt)).value);
  }

  /** Clarifications without actions are answered as they are, and no
      connector is called. */
  lemma RespondClarificationsOnly(fields: seq<Field>, c: Connectors, other: Connectors)
    requires ActionsOf(fields) == [] && InterpretedClarifications(fields) != []
    ensures Respond(fields, c) == Answer(JObj([Field("clarifications", JList(InterpretedClarifications(fields)))]))
    ensures Respond(fields, c) == Respond(fields, other)
  {
  }

  /** With actions to run, the request is refused exactly when one of them
      stops the loop, with that step's failure; otherwise the answer
      assembles the entries and the clarifications, the interpretation's
      own clarifications first, one entry or clarification per action. */
  lemma RespondRunsActions(fields: seq<Field>, c: Connectors)
    requires ActionsOf(fields) != []
    ensures var actions := ActionsOf(fields);
      var given := InterpretedClarifications(fields);
      var o := Run(actions, NoContext, Rule(c), given, []);
      (Respond(fields, c).Refused? <==>
         exists k, at :: 0 <= k < |actions| && ReachesWith(actions, NoContext, Rule(c), k, at) && Rule(c)(actions[k], at).Stop?) &&
      (o.Halted? ==> Respond(fields, c) == Refused(o.failure)) &&
      (o.Finished? ==>
         Respond(fields, c) == Answer(Assemble(o.bundle, o.clarifications)) &&
         o.clarifications[..|given|] == given &&
         |o.clarifications| + |o.bundle| == |given| + |actions|)
  {
  }

  /** `record` is the clarification a step reached in the loop returned,
      and it echoes that step's payload sanitised. */
  ghost predicate ClarificationEchoed(actions: seq<Json>, c: Connectors, record: Json) {
    exists k, at :: 0 <= k < |actions| && ReachesWith(actions, NoContext, Rule(c), k, at) &&
      Rule(c)(actions[k], at) == Clarify(record) && EchoesScrubbed(record, 3, PayloadOf(actions[k]))
  }

  /** `record` is the entry a step reached in the loop returned; it echoes
      that step's payload sanitised or, for a pizza order, the payload
      `place_order` scrubbed, sanitised. */
  ghost predicate EntryEchoed(actions: seq<Json>, c: Connectors, record: Json) {
    exists k, at :: 0 <= k < |actions| && ReachesWith(actions, NoContext, Rule(c), k, at) &&
      Rule(c)(actions[k], at).Complete? && Rule(c)(actions[k], at).entry == record &&
      if Member(actions[k], "action") == JStr("order_pizza") then
        EchoesScrubbed(record, 1, Pizza.PlaceOrderResult(c.pizzaReady, c.pizzaLive, true, PayloadOf(actions[k]), c.env, c.store).1)
      else
        EchoesScrubbed(record, 1, PayloadOf(actions[k]))
  }

  /** In an answer assembled from a finished loop, every clarification the
      loop added and every entry comes from the step that produced it and
      echoes that step's payload only sanitised (a pizza order's entry:
      the payload after `place_order` scrubbed it). */
  lemma RespondEchoesSanitised(fields: seq<Field>, c: Connectors)
    requires ActionsOf(fields) != []
    requires Run(ActionsOf(fields), NoContext, Rule(c), InterpretedClarifications(fields), []).Finished?
    ensures var o := Run(ActionsOf(fields), NoContext, Rule(c), InterpretedClarifications(fields), []);
      Respond(fields, c) == Answer(Assemble(o.bundle, o.clarifications))
    ensures var o := Run(ActionsOf(fields), NoContext, Rule(c), InterpretedClarifications(fields), []);
      forall j :: |InterpretedClarifications(fields)| <= j < |o.clarifications| ==>
        ClarificationEchoed(ActionsOf(fields), c, o.clarifications[j])
    ensures var o := Run(ActionsOf(fields), NoContext, Rule(c), InterpretedClarifications(fields), []);
      forall j :: 0 <= j < |o.bundle| ==> EntryEchoed(ActionsOf(fields), c, o.bundle[j])
  {
    var actions := ActionsOf(fields);
    var given := InterpretedClarifications(fields);
    var o := Run(actions, NoContext, Rule(c), given, []);
    RunRecords(actions, NoContext, Rule(c), given, []);
    forall j | |given| <= j < |o.clarifications|
      ensures ClarificationEchoed(actions, c, o.clarifications[j])
    {
      assert ClarifiedBy(actions, NoContext, Rule(c), o.clarifications[j]);
      var k, at :| 0 <= k < |actions| && ReachesWith(actions, NoContext, Rule(c), k, at) &&
        Rule(c)(actions[k], at) == Clarify(o.clarifications[j]);
      StepScrubsPayload(actions[k], at, c);
    }
    forall j | 0 <= j < |o.bundle|
      ensures EntryEchoed(actions, c, o.bundle[j])
    {
      assert EnteredBy(actions, NoContext, Rule(c), o.bundle[j]);
      var k, at :| 0 <= k < |actions| && ReachesWith(actions, NoContext, Rule(c), k, at) &&
        Rule(c)(actions[k], at).Complete? && Rule(c)(actions[k], at).entry == o.bundle[j];
      StepScrubsPayload(actions[k], at, c);
    }
  }

  /** The action loop over a local context, the clarifications and the
      results bundle; `rule` carries out one action. */
  method RunActions(actions: seq<Json>, rule: (Json, Context) -> StepResult, clarifications0: seq<Json>)
    returns (o: Outcome)
    ensures o == Run(actions, NoContext, rule, clarifications0, [])
  {
    var clarifications := clarifications0;
    var context := NoContext;
    var bundle: seq<Json> := [];
    for i := 0 to |actions|
      invariant Run(actions[i..], context, rule, clarifications, bundle) == Run(actions, NoContext, rule, clarifications0, [])
    {
      assert actions[i..][1..] == actions[i + 1..];
      match rule(actions[i], context)
      case Stop(f) =>
        return Halted(f);
      case Clarify(cl) =>
        clarifications := clarifications + [cl];
      case Complete(entry, next) =>
        bundle := bundle + [entry];
        context := next;
    }
    o := Finished(clarifications, bundle);
  }

  /** The endpoint. */
  method HandlePrompt(prompt: string, interpret: string -> Option<Json>, c: Connectors)
    returns (response: Response)
    ensures response == Handle(prompt, interpret, c)
  {
    var instruction := Strip(prompt);
    if instruction == [] {
      return Refused(BadRequest(EmptyPromptMessage));
    }
    var structured := interpret(instruction);
    if structured.None? || !Truthy(structured.value) {
      return Refused(BadRequest(UninterpretableMessage));
    }
    if !structured.value.JObj? {
      return Refused(Crashed);
    }
    var fields := structured.value.fields;
    var actions := ActionsOf(fields);
    var clarifications := InterpretedClarifications(fields);
    if actions == [] {
      if clarifications != [] {
        return Answer(JObj([Field("clarifications", JList(clarifications))]));
      }
      return Refused(BadRequest(UninterpretableMessage));
    }
    var outcome := RunActions(actions, Rule(c), clarifications);
    match outcome
    case Halted(f) =>
      response := Refused(f);
    case Finished(cl, bundle) =>
      response := Answer(Assemble(bundle, cl));
  }

  // ---------------------------------------------------------------------
  // The order of the checks
  // ---------------------------------------------------------------------

  /** A missing recipient, or one without '@', is asked for, and nothing is
      sent: the outcome does not depend on the e-mail connector. */
  lemma RecipientRequired(payload: seq<Field>, ctx: Context, c: Connectors, send: (Json, Json, Body) -> Json)
    requires !Truthy(Recipient(payload)) || PyIn("@", Recipient(payload)) == Some(false)
    ensures SendEmail(payload, ctx, c) == Clarify(Clarification("send_email", "to", RecipientPrompt, JObj(payload)))
    ensures SendEmail(payload, ctx, c.(send := send)) == SendEmail(payload, ctx, c)
  {
  }

  /** A list of recipients is reduced to its first element. */
  lemma FirstRecipientOfList(payload: seq<Field>, items: seq<Json>)
    requires Get(payload, "to") == JList(items) && items != []
    ensures Recipient(payload) == items[0]
  {
  }

  /** Without a body, a meeting scheduled earlier in the same request is
      summarised in preference to a pizza order. */
  lemma MeetingNoteFirst(payload: seq<Field>, ctx: Context)
    requires !Truthy(Get(payload, "body")) && ctx.lastMeeting.JObj? && Truthy(ctx.lastMeeting)
    requires JoinsAsText(GetOr(ctx.lastMeeting.fields, "attendees", JList([])))
    ensures BodySource(payload, ctx) == Done(Some(MeetingNote(ctx.lastMeeting)))
  {
  }

  /** A stored meeting whose attendees are not all strings makes the
      summary raise, and the request ends with a server error before
      anything is sent. */
  lemma MeetingSummaryRaises(payload: seq<Field>, ctx: Context, c: Connectors, send: (Json, Json, Body) -> Json)
    requires Truthy(Recipient(payload)) && PyIn("@", Recipient(payload)) == Some(true)
    requires !Truthy(Get(payload, "body")) && ctx.lastMeeting.JObj? && Truthy(ctx.lastMeeting)
    requires !JoinsAsText(GetOr(ctx.lastMeeting.fields, "attendees", JList([])))
    ensures SendEmail(payload, ctx, c) == Stop(Crashed)
    ensures SendEmail(payload, ctx, c.(send := send)) == SendEmail(payload, ctx, c)
  {
  }

  /** Attendees are asked for before the start time, whatever the rest of
      the payload holds, and neither the date parser nor the calendar is
      consulted. */
  lemma AttendeesBeforeStart(payload: seq<Field>, ctx: Context, c: Connectors,
                             time: Json -> Option<int>, schedule: (Json, Json, int, int, seq<Json>) -> Json)
    requires !Truthy(Get(payload, "attendees"))
    ensures ScheduleMeeting(payload, ctx, c) ==
      Clarify(Clarification("schedule_meeting", "attendees", AttendeesPrompt, JObj(payload)))
    ensures ScheduleMeeting(payload, ctx, c.(time := time, schedule := schedule)) == ScheduleMeeting(payload, ctx, c)
  {
  }

  /** With attendees, a missing start time is asked for next. */
  lemma StartBeforeLength(payload: seq<Field>, ctx: Context, c: Connectors)
    requires Truthy(Get(payload, "attendees")) && !Truthy(Get(payload, "start_time"))
    ensures ScheduleMeeting(payload, ctx, c) ==
      Clarify(Clarification("schedule_meeting", "start_time", StartPrompt, JObj(payload)))
  {
  }

  /** A duration that reads as zero or less, with no end time, is asked for
      again and no meeting is scheduled. */
  lemma DurationMustBePositive(payload: seq<Field>, ctx: Context, c: Connectors,
                               schedule: (Json, Json, int, int, seq<Json>) -> Json)
    requires Truthy(Get(payload, "attendees")) && Truthy(Get(payload, "start_time"))
    requires c.time(Get(payload, "start_time")).Some?
    requires !Truthy(Get(payload, "end_time")) && Truthy(Get(payload, "duration_minutes"))
    requires IntOf(Get(payload, "duration_minutes")).Some? && IntOf(Get(payload, "duration_minutes")).value <= 0
    ensures ScheduleMeeting(payload, ctx, c) ==
      Clarify(Clarification("schedule_meeting", "duration_minutes", DurationPrompt, JObj(payload)))
    ensures ScheduleMeeting(payload, ctx, c.(schedule := schedule)) == ScheduleMeeting(payload, ctx, c)
  {
    var startAt := c.time(Get(payload, "start_time")).value;
    assert MeetingLength(payload, startAt, c) == NotPositive;
    assert MeetingLength(payload, startAt, c.(schedule := schedule)) == NotPositive;
  }

  /** With neither an end time nor a truthy duration the meeting lasts 30
      minutes; a duration of 0 is falsy and so also gives 30. */
  lemma DefaultLength(payload: seq<Field>, startAt: int, c: Connectors)
    requires !Truthy(Get(payload, "end_time"))
    requires !Truthy(Get(payload, "duration_minutes")) || Get(payload, "duration_minutes") == JNum(0)
    ensures MeetingLength(payload, startAt, c) == Minutes(30)
  {
  }

  /** A blank question is asked for before missing documents, and no
      document is read. */
  lemma PdfQuestionFirst(payload: seq<Field>, ctx: Context, c: Connectors, readPdfs: (string, Json) -> PdfOutcome)
    requires !Truthy(Get(payload, "question")) ||
             (Get(payload, "question").JStr? && Strip(Get(payload, "question").s) == [])
    ensures PdfQuestion(payload, ctx, c) ==
      Clarify(Clarification("pdf_question", "question", PdfQuestionPrompt, JObj(payload)))
    ensures PdfQuestion(payload, ctx, c.(readPdfs := readPdfs)) == PdfQuestion(payload, ctx, c)
  {
  }

  /** A question without documents asks for the documents. */
  lemma PdfDocumentsSecond(payload: seq<Field>, ctx: Context, c: Connectors)
    requires Get(payload, "question").JStr? && Strip(Get(payload, "question").s) != []
    requires !Truthy(Get(payload, "documents"))
    ensures PdfQuestion(payload, ctx, c) ==
      Clarify(Clarification("pdf_question", "documents", PdfDocumentsPrompt, JObj(payload)))
  {
    assert Truthy(Get(payload, "question"));
  }

  /** A search needs a query and an answer needs a question. */
  lemma QueryAndQuestionRequired(payload: seq<Field>, ctx: Context, c: Connectors)
    ensures !Truthy(Get(payload, "query")) ==>
      SearchWeb(payload, ctx, c) == Clarify(Clarification("search_web", "query", QueryPrompt, JObj(payload)))
    ensures !Truthy(Get(payload, "question")) ==>
      AnswerQuestion(payload, ctx, c) == Clarify(Clarification("answer_question", "question", AnswerPrompt, JObj(payload)))
  {
  }

  /** Only the six kinds complete; any other action is refused. */
  lemma OnlyKnownKinds(item: Json, ctx: Context, c: Connectors)
    requires IsAction(item)
    ensures !(Member(item, "action").JStr? && Member(item, "action").s in Kinds) ==>
      Step(item, ctx, c) == Stop(Unsupported(Member(item, "action")))
    ensures Step(item, ctx, c).Complete? ==> Member(item, "action").JStr? && Member(item, "action").s in Kinds
  {
  }

  /** What the step echoes of its payload is sanitised: a clarification
      carries the sanitised payload, and so does an entry for every kind but
      a pizza order, whose entry carries the payload after `place_order`
      scrubbed its special instructions. */
  lemma StepScrubsPayload(item: Json, ctx: Context, c: Connectors)
    ensures Member(item, "action") != JStr("order_pizza") ==> Scrubbed(Step(item, ctx, c), PayloadOf(item))
    ensures Step(item, ctx, c).Clarify? ==> EchoesScrubbed(Step(item, ctx, c).clarification, 3, PayloadOf(item))
    ensures Member(item, "action") == JStr("order_pizza") && Step(item, ctx, c).Complete? ==>
      EchoesScrubbed(Step(item, ctx, c).entry, 1,
                     Pizza.PlaceOrderResult(c.pizzaReady, c.pizzaLive, true, PayloadOf(item), c.env, c.store).1)
  {
  }
}
