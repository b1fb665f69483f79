# Privacy-aware command interpretation, modelled in Dafny

This project models the core of a personal-assistant server. A user types a
natural-language instruction. A `LocalModel` decides where the instruction
may be sent:

- Instructions that look private (passwords, card numbers, e-mail
  addresses, social security numbers) stay on the machine. They go to a
  local LLaMA runtime, or to a keyword-driven fallback parser.
- Other instructions go to a cloud planner, after e-mail addresses, phone
  numbers and card numbers have been swapped for `[LABEL_i]` placeholders.
  Those placeholders are restored in the planner's JSON reply.
- The result is normalised to `{actions, clarifications?}`.

The `handle_prompt` endpoint then works through the actions one at a time
(send an e-mail, schedule a meeting, search the web, answer from PDFs, order
a pizza, answer a question). Each action either asks for a missing field or
calls a connector. Every payload and result shown to the user is sanitised.
The pizza connector validates an order, scrubs its notes, normalises its
items and prices or places it.

Modules:

- `Text`: Python string operations, limited to ASCII letters: `lower`,
  `strip`, `splitlines`, `join`, `replace` and `str(int)`.
- `Json`: parsed JSON values, dict lookup and update, truthiness, `in`
  and `int()`.
- `Patterns`: the regular expressions of the privacy bank and of the
  placeholder pass. Each one is a per-position matcher, with `search`
  and `finditer` built on top.
- `Privacy`: the privacy bank, the classifier and the line redactor,
  including why the redaction sentinel is itself public.
- `Runner`: `LocalLlamaRunner`, the lazy local-runtime resolver. It is a
  class whose probe loop updates its fields in place.
- `Fallback`: the keyword parser `_fallback_interpret_instruction`.
- `Interpretation`: `_normalize_interpretation`, the placeholder vault,
  `_restore_placeholders`, routing, and the `LocalModel` class.
- `Scrub`: `_normalize_email`, `_mask_email` and `sanitize_data`.
- `Pizza`: `PizzaOrderer`, covering live mode, `_validate`,
  `_build_payment`, `_scrub` and `place_order`.
- `Server`: `handle_prompt`, covering action extraction, the ordered field
  checks of each action, the action loop and the response shape.

Code outside the model is passed in as function-valued parameters. This
covers the runtime loaders and their `run` calls, the cloud planner,
`json.loads`, the date parser, the e-mail, calendar, search and PDF
connectors, and the Domino's store. The model's properties therefore hold
for every behaviour of that code.

Behaviour of the code worth noting:

- `_redact_sensitive_info` is not idempotent on text whose last line is
  empty. `splitlines` drops a trailing empty line, so each pass removes
  one. See `Privacy.RedactNotIdempotentOnTrailingEmptyLine`.
- The fallback parser's e-mail subject and body need a `:` or `-` after
  the keyword. Without one, the body is the whole instruction.
- A meeting `duration_minutes` of `0` is falsy, so it falls back to the
  30-minute default instead of being rejected.
- `_placeholder_entities` replaces every occurrence of a matched value.
  When the same value matches twice, its later token is recorded in the
  vault but never appears in the text.
- When an e-mail has no body, the summary of an earlier meeting or pizza
  order is built inside the action loop. It raises, and the request ends
  with a server error, when the meeting's attendees are not all strings or
  the order's items are not a list of dicts.

## Model

Rows are given for the members that carry an `ensures`; definitions
without one (such as `Server.Step`, `Server.Handle`, `Server.Respond`,
`Interpretation.LocalResult` and `Pizza.PlaceOrderResult`) are described
by the lemmas about them listed here.

| member | source | states |
|---|---|---|
| Runner.LocalLlamaRunner.constructor | local_model.py:17-28 | the requested provider is the lower-cased, stripped `LLAMA2_PROVIDER`; the model name is `LLAMA2_MODEL` or "llama2"; the model path is the first non-empty of the three path variables; nothing is probed yet |
| Runner.ProviderSetting | local_model.py:18 | the requested provider has no upper-case letter and no surrounding whitespace |
| Runner.ModelSetting | local_model.py:19 | the model name is never empty, and is `LLAMA2_MODEL` whenever that is set and non-empty |
| Runner.PathSetting | local_model.py:20-24 | no path exactly when none of the three variables is set and non-empty; a path found is never empty |
| Runner.LocalLlamaRunner.Candidates | local_model.py:85-88 | the requested provider alone when one is set, otherwise ollama, llama_cpp, transformers in that order |
| Runner.WithError | local_model.py:90-94 | a non-empty earlier log is kept and the new message follows it after " \| "; otherwise the message alone |
| Runner.LocalLlamaRunner.AppendError | local_model.py:90-94 | only the error log changes, to the old log joined with the message |
| Runner.FirstReady | local_model.py:101-111 | the leftmost candidate that has a loader and whose loader returns an engine; none exactly when no candidate does |
| Runner.ProbeSelectsFirstReady | local_model.py:101-111 | the probe selects a runtime exactly when some candidate is ready, and then it selects the first ready one and clears the log |
| Runner.ProbeLogsEveryFailure | local_model.py:101-111 | when no candidate is ready, every loader's failure message is added to the log in candidate order |
| Runner.ResolveIsLatched | local_model.py:96-99 | after resolving, the state is marked loaded, and resolving again changes nothing |
| Runner.ResolveOutcome | local_model.py:96-117 | a first resolution either selects an engine with an empty log, or keeps the old engine and leaves a non-empty reason; the log is empty exactly when some candidate was ready |
| Runner.LocalLlamaRunner.EnsureEngine | local_model.py:96-117 | the candidate loop leaves the runner in the resolved state |
| Runner.LocalLlamaRunner.IsAvailable | local_model.py:33-36 | resolves, then reports whether an engine was found |
| Runner.LocalLlamaRunner.AvailabilityMessage | local_model.py:38-44 | resolves, then returns the non-empty error log, or the fixed "unable to initialize" message |
| Runner.LocalLlamaRunner.ProviderName | local_model.py:68-71 | resolves, then returns the selected provider |
| Runner.ExpectedReply | local_model.py:46-66 | a reply exists only when an engine and a known provider were resolved, and it is what that runtime replied |
| Runner.Generated | local_model.py:46-66 | `generate` changes neither the provider nor the engine, and changes nothing at all when the runtime replies |
| Runner.NoEngineNoReply | local_model.py:55-57 | when nothing was loaded and no candidate is ready, `generate` produces nothing |
| Runner.LocalLlamaRunner.Generate | local_model.py:46-66 | resolves, returns the runtime's reply, and leaves the state `Generated` describes |
| Runner.LocalLlamaRunner.ModelDescriptor | local_model.py:73-82 | never empty; "<uninitialised>" before a provider is chosen; the model name under ollama; under llama_cpp and transformers the configured path, else "<unknown GGUF>" / "<unknown checkpoint>" |
| Patterns.MatchEnd | local_model.py:416-435 | a pattern matched at a position consumes at least one character and stays inside the text |
| Patterns.Search | local_model.py:454-455 | `search` finds the leftmost position where the pattern matches, and none exactly when it matches nowhere |
| Patterns.FirstMatch | local_model.py:552-555 | a match exists exactly when the pattern is found, and the matched text is non-empty and occurs in the input |
| Patterns.FindAll | local_model.py:668 | `finditer` gives matching spans in order, without overlap, and none exactly when the pattern is not found |
| Patterns.MatchedTexts | local_model.py:669-670 | one matched text per span, each the span's slice of the input |
| Privacy.Classify | local_model.py:460-465 | "unknown" exactly for blank text, "private" exactly when the text is non-blank and some bank pattern matches, "public" otherwise |
| Privacy.BankKeywords | local_model.py:416-432 | each keyword pattern of the bank is one of the listed words; only "birth" carries the optional "date" suffix |
| Privacy.BankKeywordStem | local_model.py:416-432 | each keyword pattern begins with a lower-case letter |
| Privacy.BankPhrase | local_model.py:422 | the only phrase pattern is "social security" |
| Privacy.BankLeadsWithLetter | local_model.py:416-435 | every keyword and phrase pattern of the bank begins with a lower-case letter |
| Privacy.BankMatchStartsOnInk | local_model.py:416-435 | no bank pattern match begins on whitespace |
| Privacy.BlankIsNotPrivate | local_model.py:454-455 | whitespace-only text contains nothing private |
| Privacy.EmailIsPrivate | local_model.py:434 | any text holding an e-mail-shaped string is classified private |
| Privacy.SentinelChars | local_model.py:494 | the sentinel is exactly "[REDACTED SENSITIVE INFORMATION]" |
| Privacy.SentinelBoundaries | local_model.py:494 | the sentinel's word boundaries fall only at the edges of its three words |
| Privacy.SentinelHasNoDigit | local_model.py:494 | the sentinel has no digit and no '@' |
| Privacy.KeywordInitials | local_model.py:416-432 | no keyword begins with 'i', a space or ']'; only "routing" begins with 'r'; only "secret" and "ssn" begin with 's' |
| Privacy.SentinelNoKeyword | local_model.py:416-432 | no bank keyword occurs as a whole word in the sentinel |
| Privacy.SentinelNoPhrase | local_model.py:422 | "social security" occurs nowhere in the sentinel |
| Privacy.SentinelNoKeywordMatch | local_model.py:416-432 | no keyword pattern of the bank matches anywhere in the sentinel |
| Privacy.SentinelNoShape | local_model.py:433-435 | the card, e-mail and SSN shapes match nowhere in the sentinel |
| Privacy.SentinelMatchesNothing | local_model.py:416-435 | no bank pattern matches at any position of the sentinel |
| Privacy.SentinelIsPublic | local_model.py:416-436 | the sentinel contains nothing private |
| Privacy.SentinelIsOneLine | local_model.py:494 | the sentinel is a single non-empty line |
| Privacy.Redact | local_model.py:489-497 | the line loop builds the redacted text |
| Privacy.RedactLinesShape | local_model.py:489-497 | as many output lines as input lines; each is the line itself when public and the sentinel when private |
| Privacy.RedactedLinesArePublic | local_model.py:489-497 | no redacted line contains anything private |
| Privacy.RedactLinesIdempotent | local_model.py:489-497 | redacting already-redacted lines changes nothing |
| Privacy.RedactPublicLines | local_model.py:489-497 | text whose lines are all public comes back as its lines rejoined with "\n" |
| Privacy.RedactedLines | local_model.py:489-497 | when the last line is non-empty, splitting the redacted text gives back exactly the redacted lines |
| Privacy.RedactIdempotent | local_model.py:489-497 | redacting twice is redacting once, for text whose last line is non-empty |
| Privacy.RedactNotIdempotentOnTrailingEmptyLine | local_model.py:489-497 | for " \n\n", a second redaction drops another empty line |
| Fallback.KeepActions | local_model.py:540-550 | keeps exactly the dict entries that have an "action" key, taken from the input |
| Fallback.KeepActionsIdempotent | local_model.py:540-550 | filtering twice is filtering once |
| Fallback.KeepActionsAppend | local_model.py:540-550 | the filter distributes over concatenation, and keeps a single item exactly when it is an action entry |
| Fallback.ChooseKind | local_model.py:557-605 | the chosen action is the first, by priority (pizza, pdf+question/ask, search/look up, meeting/schedule, email/mail/address, answer), whose trigger fires |
| Fallback.QueryGroup | local_model.py:566-572 | the search query lies after the keyword, on one line |
| Fallback.SeparatedGroup | local_model.py:578-594 | a subject or body lies after a ':' or '-' that follows the keyword; a subject stays on one line |
| Fallback.GroupAt | local_model.py:566-594 | a regex group matched at a position lies after it, with the separator and line rules of its extractor |
| Fallback.FindGroup | local_model.py:566-594 | the regex finds a position where the group matches |
| Fallback.FindGroupLeftmost | local_model.py:566-594 | no position before the one found matches |
| Fallback.Extract | local_model.py:566-594 | the default when the regex does not match, otherwise the stripped leftmost group |
| Fallback.Dispatch | local_model.py:552-605 | one action object, named by the priority choice; `answer_question` carries the text as its question, `pdf_question` the text and no documents, `search_web` the extracted query (the text by default), `send_email` the e-mail payload, and meetings and pizza an empty payload |
| Fallback.PassThrough | local_model.py:531-550 | a dict naming an action comes back verbatim; otherwise a dict with an "actions" list becomes `{"actions": ...}` holding only its action entries; anything else gives None so the keyword dispatcher runs |
| Fallback.Interpret | local_model.py:526-605 | no interpretation exactly when the instruction is blank |
| Fallback.InterpretPicksByPriority | local_model.py:526-605 | a non-blank instruction that is not JSON gets exactly the action of highest priority whose trigger fires |
| Fallback.PizzaWins | local_model.py:557-558 | any mention of pizza gives `order_pizza` with an empty payload |
| Fallback.QueryShape | local_model.py:566-573 | the query is the whole text, or a stripped one-line part of it after the keyword |
| Fallback.EmailPayloadShape | local_model.py:578-603 | the e-mail payload has fields to, subject and body, in that order, and the body is never empty |
| Fallback.NoSeparatorEmail | local_model.py:578-603 | without ':' or '-' the subject is empty and the body is the whole text |
| Interpretation.Normalize | local_model.py:632-655 | the result is canonical; a list gives exactly its action entries and no clarifications, and a result exactly when some entry is an action; an "actions" dict gives exactly the action entries of its list and its own clarification list when it has one, and a result exactly when actions or clarifications remain; a bare action is wrapped as a one-element list with its clarifications; anything else gives nothing |
| Interpretation.KeepActionsKeepsAll | local_model.py:636-638 | a list of action entries is kept whole |
| Interpretation.CanonicalIsFixpoint | local_model.py:632-643 | a canonical interpretation normalises to itself |
| Interpretation.NormalizeIdempotent | local_model.py:632-655 | normalising twice is normalising once |
| Interpretation.Token | local_model.py:671 | a placeholder is bracketed |
| Interpretation.TokenInjective | local_model.py:671 | distinct match indexes give distinct placeholders |
| Interpretation.Values | local_model.py:668-670 | each matched value is non-empty and occurs in the text |
| Interpretation.LaterTokensDiffer | local_model.py:669-672 | a later match never reuses the current match's placeholder |
| Interpretation.SubstituteKeys | local_model.py:667-674 | after the loop, the vault's keys are the old keys plus one placeholder per match |
| Interpretation.SubstituteRecords | local_model.py:667-674 | after the loop, every match's placeholder maps to that match |
| Interpretation.SubstituteKeeps | local_model.py:667-674 | an earlier vault entry that is no match's placeholder is untouched |
| Interpretation.PlaceholderEntities | local_model.py:667-674 | the loop's text and vault are those of the substitution |
| Interpretation.SanitizeNothingToHide | local_model.py:676-691 | an instruction with no address, phone or card number is sent as it is, with an empty vault |
| Interpretation.LookupAll | local_model.py:747 | each string is replaced by its vault entry, or kept |
| Interpretation.LookupAllAppend | local_model.py:747 | the lookup distributes over concatenation |
| Interpretation.RestorePreservesShape | local_model.py:745-752 | restoring keeps every list, key and non-string value; each string changes exactly when it is a recorded placeholder |
| Interpretation.RestoreListPreservesShape | local_model.py:748-749 | the same property for a list |
| Interpretation.RestoreFieldsPreservesShape | local_model.py:750-751 | the same property for a dict |
| Interpretation.RouteOf | local_model.py:658-724 | private text always stays local; without a client, public text goes to the fallback parser; the cloud route is taken exactly when there is a client and both the instruction and its sanitised text are public, and the cloud gets only the sanitised text |
| Interpretation.StripFence | local_model.py:620-623 | unfenced text is unchanged, and stripping never lengthens |
| Interpretation.StripFenceRoundTrip | local_model.py:620-623 | a reply fenced as "```tag" newline body "```" gives back exactly the body, for a one-line tag without backticks and a body not ending in a backtick |
| Interpretation.FenceUnwrapped | local_model.py:620-621 | stripping the backticks of a fence leaves exactly the text it encloses |
| Interpretation.LocalResultNonBlank | local_model.py:614-628 | a missing or non-JSON local reply still interprets a non-blank instruction |
| Interpretation.StartRunner | local_model.py:409 | the model's runner is fresh and has probed nothing |
| Interpretation.LocalModel.constructor | local_model.py:391-418 | a client exactly when `OPENAI_API_KEY` is set and non-empty; a fresh, unresolved runner; an empty last-call record |
| Interpretation.LocalModel.RecordCall | local_model.py:441-446 | the last-call record becomes provider, engine and reason |
| Interpretation.LocalModel.LastCallInfo | local_model.py:448-449 | the last-call record |
| Interpretation.LocalModel.LocalCall | local_model.py:608-618 | "local_unavailable" with the runtime's name when the reply is missing or empty, otherwise "local" with the runner's `model_descriptor`, both with the interpretation reason |
| Interpretation.LocalModel.InterpretWithLocal | local_model.py:607-630 | the parsed local reply normalised, or the fallback parse when there is no reply or it is not JSON; the runner is left as `generate` leaves it, and the last call is the one `LocalCall` gives for the reply |
| Interpretation.LocalModel.InterpretInstruction | local_model.py:657-755 | the cloud sees text only on the cloud route, and then only sanitised, public text from a public instruction; on every route it states the result, the runner's new state and the last-call record: local (also after a failed or non-JSON cloud reply), fallback with "openai_unconfigured", or the restored-and-normalised cloud reply with "openai" and the runner untouched |
| Interpretation.LocalModel.PlanInCloud | local_model.py:723-755 | a failed call or a non-JSON reply falls back to the local model, with the runner state and last call that leaves; otherwise the reply with placeholders restored, normalised, recorded as "openai", and the runner untouched |
| Scrub.AddressCoreHasOneAt | mcp_server.py:42 | an address-shaped string has exactly one '@', with text on both sides |
| Scrub.NormalizeEmail | mcp_server.py:137-143 | Gmail and Googlemail addresses (domain checked case-insensitively) are stripped and lower-cased; anything else is only stripped |
| Scrub.NormalizeEmailIdempotent | mcp_server.py:137-143 | normalising twice is normalising once |
| Scrub.HostedMailLowered | mcp_server.py:140-142 | a normalised Gmail address has no upper-case letter |
| Scrub.FirstWord | mcp_server.py:150 | the first run of letters, which exists exactly when there is a letter |
| Scrub.FirstWordAt | mcp_server.py:150 | the word found is the letter run starting at the first letter |
| Scrub.LetterRun | mcp_server.py:150 | the longest prefix made only of letters |
| Scrub.Capitalize | mcp_server.py:153 | the same letters, the first upper-case and the rest lower-case |
| Scrub.RedactedName | mcp_server.py:154 | a name made of letters is the sentinel when it is private and itself otherwise, and never holds '@' |
| Scrub.Alias | mcp_server.py:153-154 | the alias is the capitalised word when that is public and the sentinel when it is private |
| Scrub.MaskEmail | mcp_server.py:146-154 | "Recipient", the sentinel or a capitalised word, and never an '@' |
| Scrub.MaskedAsFirstName | mcp_server.py:146-154 | an address whose local part has a letter is masked as the capitalised first letter run of its normalised local part, or the sentinel when that name is private |
| Scrub.MaskWithoutLetters | mcp_server.py:149-152 | a local part without letters gives "Recipient" |
| Scrub.SanitizeString | mcp_server.py:159-163 | an address-shaped string is masked as `_mask_email` masks it, losing its '@'; any other string is redacted line by line |
| Scrub.Sanitize | mcp_server.py:157-186 | strings stay strings, lists stay lists, dicts stay dicts; other scalars are unchanged |
| Scrub.SanitizeList | mcp_server.py:164-165 | one element out per element in |
| Scrub.SanitizeFields | mcp_server.py:166-185 | one field out per field in |
| Scrub.SanitizeDocuments | mcp_server.py:172-180 | one entry out per document |
| Scrub.DocumentNameIsName | mcp_server.py:175-177 | a document dict is reduced to its sanitised "name", or None without one |
| Scrub.SanitizeDocumentsAt | mcp_server.py:172-180 | each dict document becomes its sanitised name, any other document is sanitised as it is |
| Scrub.SanitizeListAt | mcp_server.py:164-165 | lists are sanitised element by element |
| Scrub.SanitizeFieldsAt | mcp_server.py:166-185 | dict keys are kept in order, and each value is sanitised by its key's rule |
| Scrub.ProtectedFieldsWithheld | mcp_server.py:169-182 | customer, address and payment become "[REDACTED]", and so does a "documents" value that is not a list |
| Scrub.SanitizedFind | mcp_server.py:166-185 | looking a key up in the sanitised dict gives the sanitised value |
| Scrub.AddressMasked | mcp_server.py:160-162 | an address-shaped string never reaches the user with its '@' |
| Scrub.OtherStringsRedacted | mcp_server.py:163 | other strings are redacted line by line, and no output line is private |
| Pizza.Unquoted | connectors/pizza_orderer.py:18 | stripping quotes never lengthens |
| Pizza.LiveFlagNumber | connectors/pizza_orderer.py:16-19 | a number turns live mode on exactly when it is 1 |
| Pizza.LiveFlagScalars | connectors/pizza_orderer.py:16-19 | a boolean is taken as it is; None is off |
| Pizza.PizzaOrderer.constructor | connectors/pizza_orderer.py:13-19 | live mode is read from the config's "live_mode", or from `PIZZA_LIVE_MODE`, or defaults to "false" |
| Pizza.KeysPresent | connectors/pizza_orderer.py:33-35 | accepted exactly when every key is `in` the data; raises exactly when there is a key and `in` is undefined on the data (not a dict, list or string); otherwise it reports a message naming one of the keys |
| Pizza.Missing | connectors/pizza_orderer.py:44-45 | exactly the required keys absent from the dict |
| Pizza.MissingSorted | connectors/pizza_orderer.py:50 | the missing keys of a sorted list stay sorted |
| Pizza.RequiredFieldsSorted | connectors/pizza_orderer.py:41-42 | the customer and address field lists are in sorted order |
| Pizza.Validate | connectors/pizza_orderer.py:32-59 | accepted exactly when the order has every required key and sub-field and a truthy `items` (any non-empty string, list or dict, a non-zero number, or True) |
| Pizza.ValidateReportsFirstMissingKey | connectors/pizza_orderer.py:33-35 | the first missing key among customer, address, items is the one reported |
| Pizza.ValidateReportsCustomerFieldsSorted | connectors/pizza_orderer.py:41-51 | missing customer fields are reported, comma-joined in sorted order, before any address field is checked |
| Pizza.BuildPayment | connectors/pizza_orderer.py:61-71 | card details exactly when each of the four values is given in the payload or set in the environment; raises on a non-dict payment |
| Pizza.Scrubbed | connectors/pizza_orderer.py:73-78 | only "special_instructions" changes, and it is redacted exactly when a model is attached and the notes are a string |
| Pizza.NormalizeItem | connectors/pizza_orderer.py:121-128 | raises exactly for a non-dict item, a non-string code or a quantity `int()` refuses; refused exactly when the stripped code is empty; otherwise a non-empty code and a quantity of at least 1 |
| Pizza.NormalizedItemShape | connectors/pizza_orderer.py:121-128 | the code is the first whitespace-separated token of the stripped raw code; the quantity is the given one raised to at least 1; no other key changes |
| Pizza.EntriesWellFormed | connectors/pizza_orderer.py:121-128 | every normalisation is well formed |
| Pizza.NormalizeItems | connectors/pizza_orderer.py:120-140 | a loop that gets through keeps earlier items and adds, per entry in order, that entry's normalised item, every entry having been normalised and recognised |
| Pizza.NormalizeItemsAreNormal | connectors/pizza_orderer.py:120-140 | every item a completed loop adds has a non-blank one-word code and a quantity of at least 1 |
| Pizza.PlacedItems | connectors/pizza_orderer.py:120-140 | a completed loop yields one item per requested item, item k being the normal form of requested item k |
| Pizza.NormalizeItemsStopsAtBlank | connectors/pizza_orderer.py:120-125 | the first item with an empty code, after recognised items, ends the loop with "Each item needs a Domino's menu or coupon code." |
| Pizza.PizzaOrderer.NormalizeAll | connectors/pizza_orderer.py:120-140 | the item loop gives the normalisation of all items |
| Pizza.Preview | connectors/pizza_orderer.py:148-156 | the unplaced answer: status "preview", the normalised items and the payment-missing message |
| Pizza.Ordered | connectors/pizza_orderer.py:158-167 | the placed answer: status "ordered", the store's confirmation and the normalised items |
| Pizza.Checkout | connectors/pizza_orderer.py:142-167 | a priced order lists the normalised items; it is a "preview" with the payment-missing message exactly when the card details are incomplete, an "ordered" dict carrying the store's confirmation when they are complete, and it raises exactly when reading the payment raises |
| Pizza.Fulfil | connectors/pizza_orderer.py:95-167 | a preview or placed order lists, for each requested item in order, exactly that item's normalisation, each with a non-empty one-word code and a quantity of at least 1 |
| Pizza.FulfilStopsAtBlank | connectors/pizza_orderer.py:107-125 | with a store found, the first item with an empty code after recognised items fails the order with the blank-code message |
| Pizza.PlaceOrderGuardOrder | connectors/pizza_orderer.py:80-95 | library first, then live mode, then validation, whose error is returned as it is; the payload is changed only for a complete order |
| Pizza.PizzaOrderer.PlaceOrder | connectors/pizza_orderer.py:80-167 | the response and the scrubbed payload |
| Pizza.PizzaOrderer.Submit | connectors/pizza_orderer.py:95-167 | the fulfilment of a validated order |
| Server.SendEmail | mcp_server.py:468-524 | the step echoes its payload only sanitised |
| Server.RecipientRequired | mcp_server.py:474-483 | a missing recipient, or one without '@', gives exactly the "to" clarification, and the e-mail connector is not used |
| Server.FirstRecipientOfList | mcp_server.py:469-471 | a recipient list is reduced to its first element |
| Server.BodySource | mcp_server.py:485-511 | the body is the given one, else a summary of an earlier meeting, else of an earlier order; building a summary raises exactly when the stored value is not a dict, the attendees cannot be joined as text, or the items are not a list of dicts |
| Server.MeetingSummaryRaises | mcp_server.py:485-487 | a stored meeting whose attendees are not all strings ends the request with a server error before anything is sent |
| Server.MeetingNoteFirst | mcp_server.py:485-496 | without a body, an earlier meeting of the same request supplies it |
| Server.MeetingLength | mcp_server.py:556-574 | from an end time, the whole minutes between start and end rounded down (or an unreadable end time); else a truthy duration as given when positive, clarified when not, an error when not an integer; else 30 minutes |
| Server.ScheduleMeeting | mcp_server.py:526-588 | the step echoes its payload only sanitised |
| Server.AttendeesBeforeStart | mcp_server.py:527-539 | missing attendees are asked for first, whatever the date parser and calendar do |
| Server.StartBeforeLength | mcp_server.py:545-554 | with attendees but no start time, the start time is asked for |
| Server.DurationMustBePositive | mcp_server.py:556-574 | a non-positive duration gives the "duration_minutes" clarification, and the calendar is not used |
| Server.DefaultLength | mcp_server.py:556-574 | with no end time and no (or a zero) duration, the meeting lasts 30 minutes |
| Server.SearchWeb | mcp_server.py:590-605 | the step echoes its payload only sanitised |
| Server.PdfAnswer | mcp_server.py:631-698 | the step echoes its payload only sanitised; unreadable documents give the "documents" clarification with the loop's prompt; otherwise the entry reports the question, the redacted answer and the document summaries, and the context is unchanged |
| Server.PdfQuestion | mcp_server.py:607-698 | the step echoes its payload only sanitised |
| Server.PdfQuestionFirst | mcp_server.py:608-618 | a missing, falsy or blank question is asked for before documents are looked at, and no document is read |
| Server.PdfDocumentsSecond | mcp_server.py:620-629 | with a question but no documents, the documents are asked for |
| Server.OrderPizza | mcp_server.py:700-717 | a clarification echoes the sanitised payload; an entry echoes the payload as the connector's scrub left it |
| Server.OrderPizzaRejected | mcp_server.py:700-711 | an order the validation rejects gives exactly the "order_details" clarification with the validation message, and the store and environment play no part |
| Server.AnswerQuestion | mcp_server.py:719-737 | the step echoes its payload only sanitised |
| Server.QueryAndQuestionRequired | mcp_server.py:590-605 | a missing search query or question gives that field's clarification |
| Server.OnlyKnownKinds | mcp_server.py:739-740 | an action outside the six kinds ends the request as unsupported; only those kinds complete |
| Server.StepScrubsPayload | mcp_server.py:742-751 | every clarification, and every entry other than a pizza order, echoes the payload only sanitised; a pizza order's entry echoes the payload `place_order` scrubbed, sanitised |
| Server.Actionable | mcp_server.py:429 | keeps exactly the dicts with a truthy "action", taken from the input |
| Server.ActionableAppend | mcp_server.py:429 | the comprehension distributes over concatenation, and keeps a single item exactly when it is an action |
| Server.ActionsOf | mcp_server.py:426-433 | only actions are extracted: from a list, a single dict, or the interpretation itself |
| Server.RestateAll | mcp_server.py:437-451 | at most one clarification per entry; a list of dicts gives one restated clarification per dict in order; a list without dicts gives none |
| Server.RestateAllAppend | mcp_server.py:437-451 | restating distributes over concatenation; a dict becomes its action, field and prompt with a sanitised payload, and anything else is dropped |
| Server.Run | mcp_server.py:458-751 | a finished loop keeps the clarifications and entries it was given as prefixes and adds one record per action (the counts add up); the request halts exactly when some reachable action stops it; the order of the added records is stated by `Server.RunInOrder` |
| Server.Results | mcp_server.py:462-751 | the trace of the loop holds at most one result per action, and is empty exactly when there are no actions |
| Server.ResultsTrace | mcp_server.py:462-751 | step k of the trace is the rule applied to action k in the context the earlier steps left; no step before the last stops, and a trace shorter than the actions ends with a stop |
| Server.RunInOrder | mcp_server.py:458-751 | a finished loop reached every action and none stopped; the clarifications it added are the clarifying steps' clarifications and the entries are the completed steps' entries, each in the order of the actions |
| Server.RunRecords | mcp_server.py:458-751 | every clarification and every entry a finished loop adds is what some step reached in that loop returned |
| Server.ReachesShift | mcp_server.py:462-751 | carrying out the first action moves the context on for the remaining ones |
| Server.RunActions | mcp_server.py:458-751 | the action loop computes the run |
| Server.Assemble | mcp_server.py:753-763 | with clarifications the body has them, and "actions" only when some action completed; otherwise a single entry is bare and several are wrapped in "actions" |
| Server.HandlePrompt | mcp_server.py:416-768 | the endpoint's response is `Handle`'s, whose outcomes the lemmas below state |
| Server.HandleEmptyPrompt | mcp_server.py:418-420 | an empty prompt is refused with "Prompt cannot be empty", whatever the model would say |
| Server.HandleNothingToDo | mcp_server.py:422-455 | an interpretation with neither actions nor clarifications is refused with "Unable to interpret the prompt" |
| Server.HandleResponds | mcp_server.py:418-424 | a non-empty dict from the model is answered from that dict alone |
| Server.RespondClarificationsOnly | mcp_server.py:452-454 | clarifications without actions are returned as `{"clarifications": ...}` and no connector is used |
| Server.RespondEchoesSanitised | mcp_server.py:457-768 | in an answer from a finished loop, every clarification the loop added and every entry is what a reached step returned, and it echoes that step's payload sanitised (for a pizza order, the payload after `place_order` scrubbed it, sanitised) |
| Server.RespondRunsActions | mcp_server.py:457-768 | with actions, the request is refused exactly when some reachable action stops it, with that failure; otherwise the answer assembles the entries and clarifications, the interpretation's own first |
| Json.Find | connectors/pizza_orderer.py:37-39 | a key is found exactly when present, with the value of a field under it |
| Json.FindAt | connectors/pizza_orderer.py:37-39 | the first field under a key gives its value |
| Json.With | connectors/pizza_orderer.py:78 | after the assignment, the key holds the new value |
| Json.WithElsewhere | connectors/pizza_orderer.py:78 | the assignment leaves every other key's value alone |
| Json.WithSameKeys | connectors/pizza_orderer.py:78 | assigning an existing key keeps the keys and their order |
| Json.PyIn | connectors/pizza_orderer.py:33-35 | `in` is defined on dicts, lists and strings, and raises on anything else |
| Json.IntOf | connectors/pizza_orderer.py:123 | `int()` keeps an integer, gives 0/1 for a boolean, reads a string as a stripped, optionally signed decimal numeral (raising otherwise), and raises on None, a list or a dict |
| Json.ParseIntRoundTrip | connectors/pizza_orderer.py:123 | `int(str(n))` is `n` |
| Text.StripEmptyIffBlank | local_model.py:527-529 | stripping gives the empty string exactly for whitespace-only text |
| Text.StripIdempotent | local_model.py:527-530 | stripping twice is stripping once |
| Text.SplitJoinRoundTrip | local_model.py:490-497 | splitting lines that were joined with "\n" gives them back, when the last one is non-empty |
| Text.ReplaceAbsent | local_model.py:673 | replacing a value that does not occur changes nothing |
| Text.NatToStringInjective | local_model.py:671 | distinct numbers print differently |
| Text.DigitsValueOfNatToString | local_model.py:671 | reading back a printed number gives the number |
| Text.FirstToken | connectors/pizza_orderer.py:127 | the longest prefix without whitespace |
| Text.BeforeFirst | mcp_server.py:149 | the text before the first separator, which it never contains |

## Left out

- Calls into the local runtimes (ollama, llama.cpp, transformers) are left out. Their loaders and their prompt runs are oracle parameters (`init`, `run`), so the adapters and their reply-shape probing are not modelled.
- The cloud planner's chat completion is an oracle (`cloud`). The OpenAI client's construction, its optional project and organisation settings, and the handling of a missing `openai` package are not modelled. The client exists exactly when the API key is set.
- Interpretation.LocalModel.PlanInCloud: the model name is read from `OPENAI_MODEL` once, at construction, rather than at each call. The `str(exc)` reason of a failure is the oracle's message, and a JSON decoding failure is recorded as "JSONDecodeError".
- `complete`, `_process_private_data_locally` and `answer_from_documents` are not modelled: they only forward to the runtime or the cloud. In the server, their answers come from the `ask` oracle.
- `json.loads` is an oracle (`parse`). JSON numbers are integers, floats are not modelled, and dict keys are assumed unique.
- Datetime parsing is the `time` oracle, giving seconds. Duration arithmetic on datetimes is reduced to those seconds.
- The PDF document loop, path resolution and text extraction are the `readPdfs` oracle. It gives an answer, a clarification prompt, or a crash.
- The text of the e-mail summarising an earlier meeting or pizza order is not modelled. The `Body` variants `MeetingNote` and `OrderNote` stand for it; only when building it raises is modelled.
- The e-mail, calendar and search connectors, and the Domino's store (locating, pricing, adding items and coupons, placing), are oracles.
- HTTP status codes and FastAPI routing are reduced to the `Failure` datatype.
- Case mapping and the letter, digit and word classes are ASCII-only: Python's Unicode `lower`, `isalpha`, `isdigit` and `\w` are not modelled beyond ASCII. Whitespace (`isspace`, `strip` and the regex `\s`) is the full Unicode set.
- `int()` on strings with underscores or non-ASCII digits is not modelled.
- Concurrency is not modelled: the source has no locking, and the components are treated as single-threaded.
- Privacy.RedactIdempotent: it requires the text's last line to be non-empty. With a trailing empty line, `splitlines` drops one line per pass, as `Privacy.RedactNotIdempotentOnTrailingEmptyLine` shows.
- Json.With: it states that the key holds the new value, but not that a missing key is appended at the end.
- Scrub.SanitizeList and Scrub.SanitizeFields: their own contracts state only lengths. The element-wise content is stated by `Scrub.SanitizeListAt` and `Scrub.SanitizeFieldsAt`.
- Server.SendEmail, Server.ScheduleMeeting, Server.SearchWeb, Server.PdfQuestion and Server.AnswerQuestion: their own contracts state only that payloads are echoed sanitised. The order of the checks is stated by the lemmas beside them.
