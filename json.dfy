/** Parsed JSON values as the Python code handles them after `json.loads`:
    `None`, booleans, numbers, strings, lists and dicts. A dict keeps its
    insertion order, so an object is a sequence of fields. */
module Json {
  import opened Wrappers
  import opened Text

  datatype Json =
    | JNull
    | JBool(b: bool)
    | JNum(n: int)
    | JStr(s: string)
    | JList(items: seq<Json>)
    | JObj(fields: seq<Field>)

  datatype Field = Field(key: string, value: Json)

  /** A computation that returns a value or raises (`TypeError`,
      `AttributeError`, `ValueError` on values of the wrong shape). */
  datatype Attempt<+T> = Done(value: T) | Thrown

  /** Python truthiness: `None`, `False`, `0`, `""`, `[]` and `{}` are false. */
  predicate Truthy(v: Json) {
    match v
    case JNull => false
    case JBool(b) => b
    case JNum(n) => n != 0
    case JStr(s) => s != []
    case JList(items) => items != []
    case JObj(fields) => fields != []
  }

  /** `key in d`. */
  predicate HasKey(fields: seq<Field>, key: string) {
    exists i :: 0 <= i < |fields| && fields[i].key == key
  }

  /** `d[key]` when present. */
  function Find(fields: seq<Field>, key: string): (r: Option<Json>)
    ensures r.Some? <==> HasKey(fields, key)
    ensures r.Some? ==> exists i :: 0 <= i < |fields| && fields[i] == Field(key, r.value)
  {
    if fields == [] then None
    else if fields[0].key == key then Some(fields[0].value)
    else Find(fields[1..], key)
  }

  /** The value found is that of the first field with the key. */
  lemma {:induction false} FindAt(fields: seq<Field>, key: string, i: nat)
    requires i < |fields| && fields[i].key == key
    requires forall j :: 0 <= j < i ==> fields[j].key != key
    ensures Find(fields, key) == Some(fields[i].value)
  {
    if i > 0 {
      FindAt(fields[1..], key, i - 1);
    }
  }

  /** `d.get(key, default)`. */
  function GetOr(fields: seq<Field>, key: string, default: Json): Json {
    Find(fields, key).GetOr(default)
  }

  /** `d.get(key)`. */
  function Get(fields: seq<Field>, key: string): Json {
    GetOr(fields, key, JNull)
  }

  /** `isinstance(v, dict) and key in v`. */
  predicate IsObjWith(v: Json, key: string) {
    v.JObj? && HasKey(v.fields, key)
  }

  /** `v.get(key)` on a value already known to be a dict, `None` otherwise. */
  function Member(v: Json, key: string): Json {
    if v.JObj? then Get(v.fields, key) else JNull
  }

  /** The keys of a dict, in insertion order. */
  function Keys(fields: seq<Field>): (ks: seq<string>)
    ensures |ks| == |fields| && forall k :: 0 <= k < |fields| ==> ks[k] == fields[k].key
  {
    if fields == [] then [] else [fields[0].key] + Keys(fields[1..])
  }

  /** `d[key] = value`: a key already present keeps its place, a new one
      goes last. */
  function With(fields: seq<Field>, key: string, value: Json): (r: seq<Field>)
    ensures Find(r, key) == Some(value)
  {
    if fields == [] then [Field(key, value)]
    else if fields[0].key == key then [Field(key, value)] + fields[1..]
    else
      var rest := With(fields[1..], key, value);
      var r := [fields[0]] + rest;
      assert r[1..] == rest;
      r
  }

  /** The assignment leaves every other key as it was. */
  lemma {:induction false} WithElsewhere(fields: seq<Field>, key: string, value: Json, other: string)
    requires other != key
    ensures Find(With(fields, key, value), other) == Find(fields, other)
  {
    if fields != [] && fields[0].key != key {
      var r := With(fields, key, value);
      assert r[1..] == With(fields[1..], key, value);
      WithElsewhere(fields[1..], key, value, other);
    }
  }

  /** Assigning to a key already present keeps the keys and their order. */
  lemma {:induction false} WithSameKeys(fields: seq<Field>, key: string, value: Json)
    requires HasKey(fields, key)
    ensures Keys(With(fields, key, value)) == Keys(fields)
  {
    var r := With(fields, key, value);
    if fields[0].key == key {
      assert forall k :: 0 <= k < |r| ==> r[k].key == fields[k].key;
    } else {
      var i :| 0 <= i < |fields| && fields[i].key == key;
      assert fields[1..][i - 1].key == key;
      WithSameKeys(fields[1..], key, value);
      assert r[1..] == With(fields[1..], key, value);
      assert forall k :: 0 <= k < |r| ==> r[k].key == fields[k].key by {
        forall k | 0 <= k < |r| ensures r[k].key == fields[k].key {
          if k > 0 {
            assert r[k] == r[1..][k - 1];
            assert Keys(r[1..])[k - 1] == Keys(fields[1..])[k - 1];
          }
        }
      }
    }
  }

  /** Python's `key in v` for a string `key`: a dict's keys, a list's
      elements, a substring of a string; `None` where Python raises. */
  function PyIn(key: string, v: Json): (r: Option<bool>)
    ensures r.None? <==> !(v.JObj? || v.JList? || v.JStr?)
  {
    match v
    case JObj(fields) => Some(HasKey(fields, key))
    case JList(items) => Some(JStr(key) in items)
    case JStr(s) => Some(Contains(s, key))
    case _ => None
  }

  /** `str(n)` for an integer. */
  function IntToString(n: int): string {
    if n < 0 then "-" + NatToString(-n) else NatToString(n)
  }

  /** `int(t)` for a string already stripped of surrounding whitespace: an
      optional sign and decimal digits. */
  function ParseInt(t: string): Option<int> {
    var digits := if t != [] && (t[0] == '-' || t[0] == '+') then t[1..] else t;
    if digits != [] && forall c :: c in digits ==> IsDigit(c) then
      var magnitude: int := DigitsValue(digits);
      Some(if t[0] == '-' then -magnitude else magnitude)
    else None
  }

  /** Parsing what `str` printed gives the number back. */
  lemma ParseIntRoundTrip(n: int)
    ensures ParseInt(IntToString(n)) == Some(n)
  {
    if n < 0 {
      var t := IntToString(n);
      assert t[1..] == NatToString(-n);
      DigitsValueOfNatToString(-n);
    } else {
      var t := NatToString(n);
      assert IsDigit(t[0]);
      DigitsValueOfNatToString(n);
    }
  }

  /** Python's `int(v)`, or `None` where it raises. */
  function IntOf(v: Json): (r: Option<int>)
    ensures v.JNum? ==> r == Some(v.n)
    ensures v.JNull? || v.JList? || v.JObj? ==> r.None?
    ensures v.JBool? ==> r == Some(if v.b then 1 else 0)
    // a string is read as a stripped, optionally signed run of decimal digits
    ensures v.JStr? ==> r == ParseInt(Strip(v.s))
    ensures v.JStr? && r.Some? ==> Strip(v.s) != [] && IsDigit(Strip(v.s)[|Strip(v.s)| - 1])
  {
    match v
    case JBool(b) => Some(if b then 1 else 0)
    case JNum(n) => Some(n)
    case JStr(s) => ParseInt(Strip(s))
    case _ => None
  }

  /** The same value with every string replaced by "": what a traversal that
      only rewrites strings must preserve. */
  function Skeleton(v: Json): Json {
    match v
    case JStr(_) => JStr("")
    case JList(items) => JList(SkeletonList(items))
    case JObj(fields) => JObj(SkeletonFields(fields))
    case _ => v
  }

  function SkeletonList(items: seq<Json>): seq<Json> {
    if items == [] then [] else [Skeleton(items[0])] + SkeletonList(items[1..])
  }

  function SkeletonFields(fields: seq<Field>): seq<Field> {
    if fields == [] then []
    else [Field(fields[0].key, Skeleton(fields[0].value))] + SkeletonFields(fields[1..])
  }

  /** The strings a value holds, in document order (keys excluded). */
  function Strings(v: Json): seq<string> {
    match v
    case JStr(s) => [s]
    case JList(items) => StringsOfList(items)
    case JObj(fields) => StringsOfFields(fields)
    case _ => []
  }

  function StringsOfList(items: seq<Json>): seq<string> {
    if items == [] then [] else Strings(items[0]) + StringsOfList(items[1..])
  }

  function StringsOfFields(fields: seq<Field>): seq<string> {
    if fields == [] then [] else Strings(fields[0].value) + StringsOfFields(fields[1..])
  }
}
