/** `PizzaOrderer` (connectors/pizza_orderer.py): the live-mode switch, the
    order validation, the payment completeness check and `place_order`'s
    guards and item normalisation. The Domino's library (store lookup,
    adding codes, pricing, placing) is an oracle. */
module Pizza {
  import opened Wrappers
  import opened Text
  import opened Json
  import opened Privacy

  // ---------------------------------------------------------------------
  // Live mode
  // ---------------------------------------------------------------------

  const LiveWords: seq<string> := ["1", "true", "yes", "on"]

  /** `s.strip().strip('"').strip("'")`. */
  function Unquoted(s: string): (r: string)
    ensures |r| <= |s|
  {
    StripWhere(StripWhere(Strip(s), c => c == '"'), c => c == '\'')
  }

  /** `str(v)` after the quote stripping `__init__` applies to strings, for
      the scalar values; lists and dicts print with a leading bracket or
      brace, which no live word has, and give `None`. */
  function ScalarText(v: Json): Option<string> {
    match v
    case JNull => Some("None")
    case JBool(b) => Some(if b then "True" else "False")
    case JNum(n) => Some(IntToString(n))
    case JStr(s) => Some(Unquoted(s))
    case _ => None
  }

  /** The live-mode flag `__init__` derives from the configured value. */
  predicate LiveFlag(raw: Json) {
    var t := ScalarText(raw);
    t.Some? && Lower(t.value) in LiveWords
  }

  lemma LowerKeepsNonLetters(s: string)
    requires forall c :: c in s ==> !IsUpper(c)
    ensures Lower(s) == s
  {
    if s != [] {
      assert s[0] in s;
      LowerKeepsNonLetters(s[1..]);
    }
  }

  /** A number switches live mode on exactly when it is 1. */
  lemma LiveFlagNumber(n: int)
    ensures LiveFlag(JNum(n)) <==> n == 1
  {
    var t := IntToString(n);
    assert forall c :: c in t ==> IsDigit(c) || c == '-' by {
      if n < 0 {
        assert t == "-" + NatToString(-n);
        forall c | c in t ensures IsDigit(c) || c == '-' {
          if c != '-' {
            assert c in NatToString(-n);
          }
        }
      }
    }
    LowerKeepsNonLetters(t);
    assert 't' !in t && 'y' !in t && 'o' !in t;
    assert t != "true" by { assert "true"[0] == 't'; }
    assert t != "yes" by { assert "yes"[0] == 'y'; }
    assert t != "on" by { assert "on"[0] == 'o'; }
    if t == "1" {
      ParseIntRoundTrip(n);
      assert ParseInt("1") == Some(1) by {
        assert DigitsValue("1") == DigitsValue("1"[..0]) * 10 + 1;
      }
    }
    if n == 1 {
      assert t == [DigitChar(1)];
    }
  }

  /** A boolean is live exactly when it is `True`; `None` is never live. */
  lemma LiveFlagScalars(b: bool)
    ensures LiveFlag(JBool(b)) == b
    ensures !LiveFlag(JNull)
  {
    assert Lower("True") == "true";
    assert Lower("False") == "false";
    assert Lower("None") == "none";
  }

  // ---------------------------------------------------------------------
  // Validation
  // ---------------------------------------------------------------------

  const TopLevelKeys: seq<string> := ["customer", "address", "items"]
  const CustomerFields: seq<string> := ["email", "first_name", "last_name", "phone"]
  const AddressFields: seq<string> := ["city", "postal_code", "region", "street"]
  const EmptyItemsMessage := "Add at least one Domino's menu code to items."

  function MissingKeyMessage(key: string): string {
    "Missing " + key + " details for the order."
  }

  /** What `_validate` decides: `None` (accepted), an error dict, or an
      exception raised on a value of the wrong shape. */
  datatype Verdict = Accepted | Rejected(message: string) | Raises

  /** The loop over the top-level keys, with Python's `in`. */
  function KeysPresent(data: Json, keys: seq<string>): (v: Verdict)
    ensures v.Accepted? <==> forall k :: 0 <= k < |keys| ==> PyIn(keys[k], data) == Some(true)
    ensures v.Rejected? ==> exists k :: 0 <= k < |keys| && v.message == MissingKeyMessage(keys[k])
    ensures v.Raises? <==> keys != [] && !(data.JObj? || data.JList? || data.JStr?)
  {
    if keys == [] then Accepted
    else match PyIn(keys[0], data)
      case None => Raises
      case Some(present) =>
        if !present then Rejected(MissingKeyMessage(keys[0]))
        else
          var rest := KeysPresent(data, keys[1..]);
          assert rest.Accepted? <==> forall k :: 1 <= k < |keys| ==> PyIn(keys[k], data) == Some(true) by {
            forall k | 1 <= k < |keys| ensures keys[k] == keys[1..][k - 1] {
            }
          }
          assert rest.Rejected? ==> exists k :: 0 <= k < |keys| && rest.message == MissingKeyMessage(keys[k]) by {
            if rest.Rejected? {
              var j :| 0 <= j < |keys| - 1 && rest.message == MissingKeyMessage(keys[1..][j]);
              assert keys[1..][j] == keys[j + 1];
            }
          }
          rest
  }

  /** `required - set(d.keys())`, in the order of `required`. */
  function Missing(required: seq<string>, fields: seq<Field>): (missing: seq<string>)
    ensures forall x :: x in missing <==> x in required && !HasKey(fields, x)
  {
    if required == [] then []
    else (if HasKey(fields, required[0]) then [] else [required[0]]) + Missing(required[1..], fields)
  }

  /** Filtering a sorted list keeps it sorted, so listing the missing fields
      in the order of a sorted constant is what `sorted` would print. */
  lemma {:induction false} MissingSorted(required: seq<string>, fields: seq<Field>)
    requires Sorted(required)
    ensures Sorted(Missing(required, fields))
  {
    if required != [] {
      var rest := Missing(required[1..], fields);
      assert Sorted(required[1..]) by {
        forall i, j | 0 <= i < j < |required| - 1 ensures StrLess(required[1..][i], required[1..][j]) {
          assert required[1..][i] == required[i + 1] && required[1..][j] == required[j + 1];
        }
      }
      MissingSorted(required[1..], fields);
      var m := Missing(required, fields);
      if !HasKey(fields, required[0]) {
        assert m == [required[0]] + rest;
        forall i, j | 0 <= i < j < |m| ensures StrLess(m[i], m[j]) {
          if i == 0 {
            assert m[j] == rest[j - 1] && m[j] in required[1..];
            var k :| 0 <= k < |required| - 1 && required[1..][k] == m[j];
            assert required[k + 1] == m[j];
          } else {
            assert m[i] == rest[i - 1] && m[j] == rest[j - 1];
          }
        }
      }
    }
  }

  lemma RequiredFieldsSorted()
    ensures Sorted(CustomerFields) && Sorted(AddressFields)
  {
    assert StrLess("email", "first_name") && StrLess("first_name", "last_name") && StrLess("last_name", "phone");
    assert StrLess("email", "last_name") && StrLess("email", "phone") && StrLess("first_name", "phone");
    assert StrLess("city", "postal_code") && StrLess("postal_code", "region") && StrLess("region", "street");
    assert StrLess("city", "region") && StrLess("city", "street") && StrLess("postal_code", "street");
  }

  /** Everything `_validate` asks of an order. */
  predicate IsCompleteOrder(data: Json) {
    data.JObj? &&
    (forall k :: 0 <= k < |TopLevelKeys| ==> HasKey(data.fields, TopLevelKeys[k])) &&
    Get(data.fields, "customer").JObj? && Get(data.fields, "address").JObj? &&
    (forall k :: 0 <= k < |CustomerFields| ==> HasKey(Get(data.fields, "customer").fields, CustomerFields[k])) &&
    (forall k :: 0 <= k < |AddressFields| ==> HasKey(Get(data.fields, "address").fields, AddressFields[k])) &&
    Truthy(Get(data.fields, "items"))
  }

  /** `_validate`. */
  function Validate(data: Json): (v: Verdict)
    ensures v.Accepted? <==> IsCompleteOrder(data)
  {
    match KeysPresent(data, TopLevelKeys)
    case Raises => Raises
    case Rejected(m) => Rejected(m)
    case Accepted =>
      if !data.JObj? then Raises  // `data["customer"]` on a string or a list
      else
        var customer := Get(data.fields, "customer");
        var address := Get(data.fields, "address");
        if !customer.JObj? || !address.JObj? then Raises  // `.keys()`
        else
          var missingCustomer := Missing(CustomerFields, customer.fields);
          var missingAddress := Missing(AddressFields, address.fields);
          assert missingCustomer == [] <==> forall k :: 0 <= k < |CustomerFields| ==> HasKey(customer.fields, CustomerFields[k]) by {
            if missingCustomer != [] {
              assert missingCustomer[0] in missingCustomer;
            }
          }
          assert missingAddress == [] <==> forall k :: 0 <= k < |AddressFields| ==> HasKey(address.fields, AddressFields[k]) by {
            if missingAddress != [] {
              assert missingAddress[0] in missingAddress;
            }
          }
          if missingCustomer != [] then
            Rejected("Customer details missing: " + Join(", ", missingCustomer) + ".")
          else if missingAddress != [] then
            Rejected("Address details missing: " + Join(", ", missingAddress) + ".")
          else if !Truthy(Get(data.fields, "items")) then Rejected(EmptyItemsMessage)
          else Accepted
  }

  /** The first top-level key an order lacks is the one reported, in the
      order customer, address, items. */
  lemma ValidateReportsFirstMissingKey(fields: seq<Field>, i: nat)
    requires i < |TopLevelKeys| && !HasKey(fields, TopLevelKeys[i])
    requires forall j :: 0 <= j < i ==> HasKey(fields, TopLevelKeys[j])
    ensures Validate(JObj(fields)) == Rejected(MissingKeyMessage(TopLevelKeys[i]))
  {
    var data := JObj(fields);
    assert KeysPresent(data, TopLevelKeys[2..]) == KeysPresent(data, ["items"]);
    assert KeysPresent(data, TopLevelKeys[1..]) == KeysPresent(data, ["address", "items"]);
  }

  /** Missing customer fields are reported, all of them and sorted, before
      the address is looked at. */
  lemma ValidateReportsCustomerFieldsSorted(data: Json)
    requires data.JObj? && forall k :: 0 <= k < |TopLevelKeys| ==> HasKey(data.fields, TopLevelKeys[k])
    requires Get(data.fields, "customer").JObj? && Get(data.fields, "address").JObj?
    requires Missing(CustomerFields, Get(data.fields, "customer").fields) != []
    ensures var missing := Missing(CustomerFields, Get(data.fields, "customer").fields);
      Validate(data) == Rejected("Customer details missing: " + Join(", ", missing) + ".") &&
      Sorted(missing) &&
      forall x :: x in missing <==> x in CustomerFields && !HasKey(Get(data.fields, "customer").fields, x)
  {
    assert TopLevelKeys[0] == "customer" && TopLevelKeys[1] == "address" && TopLevelKeys[2] == "items";
    assert KeysPresent(data, TopLevelKeys[2..]) == KeysPresent(data, ["items"]);
    assert KeysPresent(data, TopLevelKeys[1..]) == KeysPresent(data, ["address", "items"]);
    assert KeysPresent(data, ["items"][1..]) == Accepted;
    RequiredFieldsSorted();
    MissingSorted(CustomerFields, Get(data.fields, "customer").fields);
  }

  // ---------------------------------------------------------------------
  // Payment
  // ---------------------------------------------------------------------

  const PaymentKeys: seq<string> := ["card_number", "card_expiration", "card_cvv", "billing_postal_code"]
  const PaymentVariables: seq<string> :=
    ["PIZZA_CARD_NUMBER", "PIZZA_CARD_EXPIRATION", "PIZZA_CARD_CVV", "PIZZA_BILLING_POSTAL_CODE"]

  /** The `k`-th card value: from the payload when truthy, else from the
      environment. */
  function PaymentValue(payment: seq<Field>, env: map<string, string>, k: nat): Json
    requires k < 4
  {
    var given := Get(payment, PaymentKeys[k]);
    if Truthy(given) then given
    else if PaymentVariables[k] in env then JStr(env[PaymentVariables[k]]) else JNull
  }

  /** `_build_payment`: the four card values when all are present, `None`
      otherwise; a truthy `payment` that is not a dict raises. */
  function BuildPayment(data: seq<Field>, env: map<string, string>): (r: Attempt<Option<seq<Json>>>)
    ensures var p := Get(data, "payment");
      r.Thrown? <==> Truthy(p) && !p.JObj?
    ensures r.Done? && r.value.Some? ==>
      (|r.value.value| == 4 && forall k :: 0 <= k < 4 ==> Truthy(r.value.value[k]))
    ensures var p := Get(data, "payment");
      var payment := if Truthy(p) && p.JObj? then p.fields else [];
      r.Done? ==> (r.value.Some? <==>
        forall k :: 0 <= k < 4 ==>
          Truthy(Get(payment, PaymentKeys[k])) || (PaymentVariables[k] in env && env[PaymentVariables[k]] != []))
  {
    var p := Get(data, "payment");
    if Truthy(p) && !p.JObj? then Thrown
    else
      var payment := if Truthy(p) then p.fields else [];
      var values := seq(4, k requires 0 <= k < 4 => PaymentValue(payment, env, k));
      assert forall k :: 0 <= k < 4 ==> (Truthy(values[k]) <==>
        Truthy(Get(payment, PaymentKeys[k])) || (PaymentVariables[k] in env && env[PaymentVariables[k]] != []));
      if forall k :: 0 <= k < 4 ==> Truthy(values[k]) then Done(Some(values)) else Done(None)
  }

  // ---------------------------------------------------------------------
  // Placing an order
  // ---------------------------------------------------------------------

  /** `_scrub` on the payload dict: string special instructions go through
      the line redactor when a model is attached. */
  function Scrubbed(data: seq<Field>, hasModel: bool): (r: seq<Field>)
    ensures Keys(r) == Keys(data)
    ensures forall k :: k != "special_instructions" ==> Find(r, k) == Find(data, k)
    ensures var notes := Get(data, "special_instructions");
      Get(r, "special_instructions") == if hasModel && notes.JStr? then JStr(Redacted(notes.s)) else notes
  {
    var notes := Get(data, "special_instructions");
    if hasModel && notes.JStr? then
      var r := With(data, "special_instructions", JStr(Redacted(notes.s)));
      WithSameKeys(data, "special_instructions", JStr(Redacted(notes.s)));
      assert forall k :: k != "special_instructions" ==> Find(r, k) == Find(data, k) by {
        forall k | k != "special_instructions" ensures Find(r, k) == Find(data, k) {
          WithElsewhere(data, "special_instructions", JStr(Redacted(notes.s)), k);
        }
      }
      r
    else data
  }

  /** One entry of the item loop. */
  datatype ItemResult = Normalized(item: Json, code: string, quantity: int) | BlankCode | ItemRaises

  /** `item.get("code") or ""`. */
  function CodeOf(fields: seq<Field>): Json {
    var raw := Get(fields, "code");
    if Truthy(raw) then raw else JStr("")
  }

  /** `int(item.get("quantity", 1))`, None where the conversion raises. */
  function QuantityOf(fields: seq<Field>): Option<int> {
    IntOf(GetOr(fields, "quantity", JNum(1)))
  }

  /** `code_raw`, `quantity` and `base_code` for one item, and the item dict
      with both replaced. Reading the code or the quantity raises on an item
      that is not a dict, a code that is not a string and a quantity that is
      not a number; the item is refused when its code is empty once
      stripped. */
  function NormalizeItem(item: Json): (r: ItemResult)
    ensures r.ItemRaises? <==> !item.JObj? || !CodeOf(item.fields).JStr? || QuantityOf(item.fields).None?
    ensures r.BlankCode? <==>
      (item.JObj? && CodeOf(item.fields).JStr? && QuantityOf(item.fields).Some? && Strip(CodeOf(item.fields).s) == [])
    ensures r.Normalized? ==> item.JObj? && r.item.JObj? && r.quantity >= 1 && r.code != []
  {
    if !item.JObj? then ItemRaises
    else
      var code := CodeOf(item.fields);
      if !code.JStr? then ItemRaises
      else
        var q := QuantityOf(item.fields);
        if q.None? then ItemRaises
        else
          var stripped := Strip(code.s);
          if stripped == [] then BlankCode
          else
            var base := FirstToken(stripped);
            var quantity := if q.value < 1 then 1 else q.value;
            Normalized(JObj(With(With(item.fields, "code", JStr(base)), "quantity", JNum(quantity))), base, quantity)
  }

  /** The normalised item is the original with "code" replaced by the first
      whitespace-separated word of the stripped code and "quantity" by the
      given one raised to at least 1; no other key changes. */
  lemma NormalizedItemShape(item: Json)
    requires NormalizeItem(item).Normalized?
    ensures var r := NormalizeItem(item);
      (forall c :: c in r.code ==> !IsSpace(c)) &&
      Get(r.item.fields, "code") == JStr(r.code) && Get(r.item.fields, "quantity") == JNum(r.quantity) &&
      forall k :: k != "code" && k != "quantity" ==> Find(r.item.fields, k) == Find(item.fields, k)
    ensures var r := NormalizeItem(item);
      var raw := Get(item.fields, "code");
      raw.JStr? && StartsWith(Strip(raw.s), r.code) &&
      (|r.code| == |Strip(raw.s)| || IsSpace(Strip(raw.s)[|r.code|]))
    ensures var r := NormalizeItem(item);
      var q := IntOf(GetOr(item.fields, "quantity", JNum(1)));
      q.Some? && r.quantity == (if q.value < 1 then 1 else q.value)
  {
    var r := NormalizeItem(item);
    var once := With(item.fields, "code", JStr(r.code));
    WithElsewhere(once, "quantity", JNum(r.quantity), "code");
    forall k | k != "code" && k != "quantity" ensures Find(r.item.fields, k) == Find(item.fields, k) {
      WithElsewhere(once, "quantity", JNum(r.quantity), k);
      WithElsewhere(item.fields, "code", JStr(r.code), k);
    }
  }

  /** The Domino's library: the closest store for an address (its id), whether
      a code is accepted (as a coupon when it is all digits), the customer
      total for the items, and the order id and estimates once placed. */
  datatype Store = Store(
    locate: Json -> Option<Json>,
    recognises: (string, bool) -> bool,
    quote: seq<Json> -> Json,
    place: (seq<Json>, seq<Json>) -> (Json, Json))

  predicate AllDigits(s: string) {
    forall c :: c in s ==> IsDigit(c)
  }

  const BlankCodeMessage := "Each item needs a Domino's menu or coupon code."

  function UnknownCodeMessage(code: string): string {
    "Domino's did not recognize the code '" + code + "'. Please confirm it in the Domino's menu or coupon list."
  }

  datatype ItemsResult = ItemsDone(items: seq<Json>) | ItemsFailed(message: string) | ItemsRaise

  /** What an entry of `normalized_items` looks like: a dict whose "code" is
      one non-blank word and whose "quantity" is at least 1. */
  predicate IsNormalItem(n: Json) {
    n.JObj? &&
    var code := Get(n.fields, "code");
    var quantity := Get(n.fields, "quantity");
    code.JStr? && code.s != [] && (forall c :: c in code.s ==> !IsSpace(c)) &&
    quantity.JNum? && quantity.n >= 1
  }

  /** What the loop makes of each item, in order; the loop stops at the
      first entry that is not `Normalized`. */
  function Entries(items: seq<Json>): (es: seq<ItemResult>)
    ensures |es| == |items| && forall k :: 0 <= k < |items| ==> es[k] == NormalizeItem(items[k])
  {
    seq(|items|, k requires 0 <= k < |items| => NormalizeItem(items[k]))
  }

  predicate WellFormed(e: ItemResult) {
    e.Normalized? ==> IsNormalItem(e.item)
  }

  lemma EntriesWellFormed(items: seq<Json>)
    ensures forall k :: 0 <= k < |items| ==> WellFormed(Entries(items)[k])
  {
    forall k | 0 <= k < |items| ensures WellFormed(Entries(items)[k]) {
      if NormalizeItem(items[k]).Normalized? {
        NormalizedItemShape(items[k]);
      }
    }
  }

  /** The item loop of `place_order` from the current entry on, `done`
      holding the items already normalised; a loop that gets through keeps
      them and adds one item per remaining entry. */
  function NormalizeItems(entries: seq<ItemResult>, store: Store, done: seq<Json>): (r: ItemsResult)
    ensures r.ItemsDone? ==> |r.items| == |done| + |entries| && r.items[..|done|] == done
    ensures r.ItemsDone? ==>
      forall k :: 0 <= k < |entries| ==>
        entries[k].Normalized? && store.recognises(entries[k].code, AllDigits(entries[k].code)) &&
        r.items[|done| + k] == entries[k].item
  {
    if entries == [] then ItemsDone(done)
    else match entries[0]
      case ItemRaises => ItemsRaise
      case BlankCode => ItemsFailed(BlankCodeMessage)
      case Normalized(n, code, _) =>
        if !store.recognises(code, AllDigits(code)) then ItemsFailed(UnknownCodeMessage(code))
        else
          var rest := NormalizeItems(entries[1..], store, done + [n]);
          assert rest.ItemsDone? ==> rest.items[..|done|] == (done + [n])[..|done|] && rest.items[|done|] == n;
          assert forall k :: 1 <= k < |entries| ==> entries[k] == entries[1..][k - 1];
          rest
  }

  /** A loop that gets through over well-formed entries adds only normal
      items. */
  lemma NormalizeItemsAreNormal(entries: seq<ItemResult>, store: Store, done: seq<Json>)
    requires NormalizeItems(entries, store, done).ItemsDone?
    requires forall k :: 0 <= k < |entries| ==> WellFormed(entries[k])
    ensures var r := NormalizeItems(entries, store, done).items;
      forall k :: |done| <= k < |r| ==> IsNormalItem(r[k])
  {
    var r := NormalizeItems(entries, store, done).items;
    forall k | |done| <= k < |r| ensures IsNormalItem(r[k]) {
      assert r[|done| + (k - |done|)] == entries[k - |done|].item;
    }
  }

  /** The loop stops at the first item with an empty code, once every item
      before it has been recognised, with the blank-code failure. */
  lemma {:induction false} NormalizeItemsStopsAtBlank(entries: seq<ItemResult>, store: Store, done: seq<Json>, i: nat)
    requires i < |entries| && entries[i].BlankCode?
    requires forall k :: 0 <= k < i ==>
      entries[k].Normalized? && store.recognises(entries[k].code, AllDigits(entries[k].code))
    ensures NormalizeItems(entries, store, done) == ItemsFailed(BlankCodeMessage)
  {
    if i > 0 {
      assert forall k :: 0 <= k < i - 1 ==> entries[1..][k] == entries[k + 1];
      NormalizeItemsStopsAtBlank(entries[1..], store, done + [entries[0].item], i - 1);
    }
  }

  function Status(status: string, rest: seq<Field>): Json {
    JObj([Field("status", JStr(status))] + rest)
  }

  function Failed(message: string): (r: Json)
  {
    Status("failed", [Field("error", JStr(message))])
  }

  const NotInstalledMessage := "pizzapi package is not installed."
  const DisabledMessage := "Live pizza ordering is switched off. Set PIZZA_LIVE_MODE=true when you are ready."
  const NoStoreMessage := "Could not locate a Domino's store for that address."
  const PreviewMessage := "Payment info missing. Add card details or set environment variables to place the order."

  /** The answer for an order priced but not placed. */
  function Preview(storeId: Json, total: Json, normalized: seq<Json>): (r: Json)
    ensures r.JObj? && |r.fields| == 6 && r.fields[0].value == JStr("preview")
    ensures Get(r.fields, "items") == JList(normalized) && Get(r.fields, "message") == JStr(PreviewMessage)
  {
    var r := Status("preview", [Field("store_id", storeId), Field("total", total), Field("currency", JStr("USD")),
                                Field("items", JList(normalized)), Field("message", JStr(PreviewMessage))]);
    FindAt(r.fields, "items", 4);
    FindAt(r.fields, "message", 5);
    r
  }

  /** The answer for a placed order. */
  function Ordered(storeId: Json, confirmation: Json, total: Json, normalized: seq<Json>, estimates: Json): (r: Json)
    ensures r.JObj? && |r.fields| == 7 && r.fields[0].value == JStr("ordered")
    ensures Get(r.fields, "items") == JList(normalized) && Get(r.fields, "confirmation") == confirmation
  {
    var r := Status("ordered", [Field("store_id", storeId), Field("confirmation", confirmation), Field("total", total),
                                Field("currency", JStr("USD")), Field("items", JList(normalized)),
                                Field("estimates", estimates)]);
    FindAt(r.fields, "items", 5);
    FindAt(r.fields, "confirmation", 2);
    r
  }

  /** Pricing the normalised items and, when the card details are
      complete, placing the order. */
  function Checkout(storeId: Json, normalized: seq<Json>, fields: seq<Field>, env: map<string, string>,
                    store: Store): (r: Attempt<Json>)
    ensures r.Done? ==>
      (r.value.JObj? && |r.value.fields| >= 5 &&
       r.value.fields[0].value in {JStr("preview"), JStr("ordered")} && Get(r.value.fields, "items") == JList(normalized))
    // the card details decide: a preview without them, a placed order with them
    ensures r.Thrown? <==> BuildPayment(fields, env).Thrown?
    ensures BuildPayment(fields, env) == Done(None) ==>
      r.Done? && r.value.fields[0].value == JStr("preview") &&
      Get(r.value.fields, "message") == JStr(PreviewMessage)
    ensures BuildPayment(fields, env).Done? && BuildPayment(fields, env).value.Some? ==>
      r.Done? && r.value.fields[0].value == JStr("ordered") &&
      Get(r.value.fields, "confirmation") == store.place(normalized, BuildPayment(fields, env).value.value).0
  {
    var total := store.quote(normalized);
    var payment := BuildPayment(fields, env);
    if payment.Thrown? then Thrown
    else if payment.value.None? then Done(Preview(storeId, total, normalized))
    else
      var (confirmation, estimates) := store.place(normalized, payment.value.value);
      Done(Ordered(storeId, confirmation, total, normalized, estimates))
  }

  /** What `place_order` does once the order has passed validation and been
      scrubbed. A priced or placed order lists one item per requested item,
      each with a non-blank single-word code and a quantity of at least 1. */
  function Fulfil(fields: seq<Field>, env: map<string, string>, store: Store): (r: Attempt<Json>)
    ensures r.Done? ==> r.value.JObj? && r.value.fields != []
    ensures r.Done? && r.value.fields[0].value != JStr("failed") ==>
      var placed := Get(r.value.fields, "items");
      Get(fields, "items").JList? && placed.JList? && |placed.items| == |Get(fields, "items").items| &&
      forall k :: 0 <= k < |placed.items| ==> IsNormalItem(placed.items[k])
    ensures r.Done? && r.value.fields[0].value != JStr("failed") ==>
      var items := Get(fields, "items").items;
      forall k :: 0 <= k < |items| ==>
        NormalizeItem(items[k]).Normalized? && Get(r.value.fields, "items").items[k] == NormalizeItem(items[k]).item
  {
    match store.locate(Get(fields, "address"))
    case None => Done(Failed(NoStoreMessage))
    case Some(storeId) =>
      var items := Get(fields, "items");
      if !items.JList? then Thrown  // iterating a dict, string or number item by item raises
      else
        match NormalizeItems(Entries(items.items), store, [])
        case ItemsRaise => Thrown
        case ItemsFailed(m) => Done(Failed(m))
        case ItemsDone(normalized) =>
          PlacedItems(items.items, store, normalized);
          Checkout(storeId, normalized, fields, env, store)
  }

  /** A loop over the requested items that gets through yields, item by
      item, each one's normal form. */
  lemma PlacedItems(items: seq<Json>, store: Store, normalized: seq<Json>)
    requires NormalizeItems(Entries(items), store, []) == ItemsDone(normalized)
    ensures |normalized| == |items|
    ensures forall k :: 0 <= k < |items| ==>
      IsNormalItem(normalized[k]) && NormalizeItem(items[k]).Normalized? && normalized[k] == NormalizeItem(items[k]).item
  {
    EntriesWellFormed(items);
    NormalizeItemsAreNormal(Entries(items), store, []);
    forall k | 0 <= k < |items|
      ensures IsNormalItem(normalized[k]) && NormalizeItem(items[k]).Normalized? && normalized[k] == NormalizeItem(items[k]).item
    {
      assert normalized[0 + k] == Entries(items)[k].item;
    }
  }

  /** With a store found, the first item whose code is empty, after items
      that were all recognised, ends the order with the blank-code failure. */
  lemma FulfilStopsAtBlank(fields: seq<Field>, env: map<string, string>, store: Store, i: nat)
    requires store.locate(Get(fields, "address")).Some? && Get(fields, "items").JList?
    requires var items := Get(fields, "items").items;
      i < |items| && NormalizeItem(items[i]).BlankCode? &&
      forall k :: 0 <= k < i ==>
        NormalizeItem(items[k]).Normalized? &&
        store.recognises(NormalizeItem(items[k]).code, AllDigits(NormalizeItem(items[k]).code))
    ensures Fulfil(fields, env, store) == Done(Failed(BlankCodeMessage))
  {
    NormalizeItemsStopsAtBlank(Entries(Get(fields, "items").items), store, [], i);
  }

  /** `place_order`: its response, and the payload as the in-place scrub
      leaves it for the caller. */
  function PlaceOrderResult(ready: bool, live: bool, hasModel: bool, payload: Json,
                            env: map<string, string>, store: Store): (Attempt<Json>, Json)
  {
    if !ready then (Done(Failed(NotInstalledMessage)), payload)
    else if !live then (Done(Status("disabled", [Field("error", JStr(DisabledMessage))])), payload)
    else match Validate(payload)
      case Raises => (Thrown, payload)
      case Rejected(m) => (Done(Failed(m)), payload)
      case Accepted =>
        var fields := Scrubbed(payload.fields, hasModel);
        (Fulfil(fields, env, store), JObj(fields))
  }

  /** The guards come in a fixed order: the library, then live mode, then
      validation, whose error is returned as it is; none of them touches the
      payload. */
  lemma PlaceOrderGuardOrder(ready: bool, live: bool, hasModel: bool, payload: Json,
                             env: map<string, string>, store: Store)
    ensures !ready ==>
      PlaceOrderResult(ready, live, hasModel, payload, env, store) == (Done(Failed(NotInstalledMessage)), payload)
    ensures ready && !live ==>
      PlaceOrderResult(ready, live, hasModel, payload, env, store).0 ==
        Done(Status("disabled", [Field("error", JStr(DisabledMessage))]))
    ensures ready && live && Validate(payload).Rejected? ==>
      PlaceOrderResult(ready, live, hasModel, payload, env, store) == (Done(Failed(Validate(payload).message)), payload)
    ensures PlaceOrderResult(ready, live, hasModel, payload, env, store).1 != payload ==>
      ready && live && IsCompleteOrder(payload)
  {
  }

  // ---------------------------------------------------------------------
  // The connector object
  // ---------------------------------------------------------------------

  class PizzaOrderer {
    const liveMode: bool
    /** Whether the Domino's library could be imported. */
    const ready: bool
    /** Whether a model (and so the line redactor) is attached. */
    const hasModel: bool
    const env: map<string, string>

    /** `__init__` with `cfg` as a dict (`None` is the empty one). */
    constructor (cfg: seq<Field>, env: map<string, string>, ready: bool, hasModel: bool)
      ensures liveMode == LiveFlag(GetOr(cfg, "live_mode",
        JStr(if "PIZZA_LIVE_MODE" in env then env["PIZZA_LIVE_MODE"] else "false")))
      ensures this.env == env && this.ready == ready && this.hasModel == hasModel
    {
      var raw := GetOr(cfg, "live_mode", JStr(if "PIZZA_LIVE_MODE" in env then env["PIZZA_LIVE_MODE"] else "false"));
      liveMode := LiveFlag(raw);
      this.env := env;
      this.ready := ready;
      this.hasModel := hasModel;
    }

    /** `place_order`; `scrubbed` is the payload after `_scrub` rewrote it. */
    method PlaceOrder(payload: Json, store: Store) returns (response: Attempt<Json>, scrubbed: Json)
      ensures (response, scrubbed) == PlaceOrderResult(ready, liveMode, hasModel, payload, env, store)
    {
      scrubbed := payload;
      if !ready {
        return Done(Failed(NotInstalledMessage)), scrubbed;
      }
      if !liveMode {
        return Done(Status("disabled", [Field("error", JStr(DisabledMessage))])), scrubbed;
      }
      var verdict := Validate(payload);
      if verdict.Raises? {
        return Thrown, scrubbed;
      }
      if verdict.Rejected? {
        return Done(Failed(verdict.message)), scrubbed;
      }
      var fields := Scrubbed(payload.fields, hasModel);
      scrubbed := JObj(fields);
      response := Submit(fields, store);
    }

    /** Everything after the scrub: the store, the item loop and the
        checkout. */
    method Submit(fields: seq<Field>, store: Store) returns (response: Attempt<Json>)
      ensures response == Fulfil(fields, env, store)
    {
      var found := store.locate(Get(fields, "address"));
      if found.None? {
        return Done(Failed(NoStoreMessage));
      }
      var itemsValue := Get(fields, "items");
      if !itemsValue.JList? {
        return Thrown;
      }
      var outcome := NormalizeAll(itemsValue.items, store);
      match outcome
      case ItemsRaise =>
        response := Thrown;
      case ItemsFailed(m) =>
        response := Done(Failed(m));
      case ItemsDone(normalized) =>
        response := Checkout(found.value, normalized, fields, env, store);
    }

    /** The item loop of `place_order`: normalise each item, stop at a blank
        code or an unknown one. */
    method NormalizeAll(items: seq<Json>, store: Store) returns (outcome: ItemsResult)
      ensures outcome == NormalizeItems(Entries(items), store, [])
    {
      ghost var entries := Entries(items);
      var normalized: seq<Json> := [];
      var i := 0;
      while i < |items|
        invariant 0 <= i <= |items|
        invariant NormalizeItems(entries[i..], store, normalized) == NormalizeItems(entries, store, [])
      {
        assert entries[i..][1..] == entries[i + 1..];
        var entry := NormalizeItem(items[i]);
        assert entry == entries[i..][0];
        if entry.ItemRaises? {
          return ItemsRaise;
        }
        if entry.BlankCode? {
          return ItemsFailed(BlankCodeMessage);
        }
        normalized := normalized + [entry.item];
        if !store.recognises(entry.code, AllDigits(entry.code)) {
          return ItemsFailed(UnknownCodeMessage(entry.code));
        }
        i := i + 1;
      }
      assert entries[i..] == [];
      outcome := ItemsDone(normalized);
    }
  }
}
