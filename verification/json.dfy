/**
  The parsed JSON request body as the handler sees it (a Python value produced
  by the JSON decoder), with the two Python behaviours the handler relies on:
  truthiness (`if not data`, `if data.get(k)`) and `str()` rendering inside an
  f-string.
*/
module Json {
  import opened Wrappers

  /** A decoded JSON value. An object keeps its members in source order; as in
      Python's decoder, a repeated key is looked up by its last occurrence. */
  datatype Value =
    | Null
    | Bool(b: bool)
    | Number(n: int)
    | String(s: string)
    | Array(items: seq<Value>)
    | Object(fields: seq<(string, Value)>)

  /** Python's `bool(v)`: `None`, `False`, zero and empty containers are false. */
  predicate Truthy(v: Value) {
    match v
    case Null => false
    case Bool(b) => b
    case Number(n) => n != 0
    case String(s) => |s| > 0
    case Array(items) => |items| > 0
    case Object(fields) => |fields| > 0
  }

  /** Truthiness of `data.get(key)`: a missing key reads as `None`. */
  predicate Present(v: Option<Value>) {
    v.Some? && Truthy(v.value)
  }

  /** `data.get(key)` on a decoded object: the value of the last member named `key` */
  function Lookup(fields: seq<(string, Value)>, key: string): (r: Option<Value>)
    ensures r.None? <==> forall i :: 0 <= i < |fields| ==> fields[i].0 != key
    ensures r.Some? ==> (key, r.value) in fields
  {
    if |fields| == 0 then None
    else if fields[|fields| - 1].0 == key then Some(fields[|fields| - 1].1)
    else
      var r := Lookup(fields[..|fields| - 1], key);
      assert forall i :: 0 <= i < |fields| - 1 ==> fields[..|fields| - 1][i] == fields[i];
      r
  }

  /** The member that answers a lookup is the last one with that key */
  lemma {:induction false} LookupFindsLast(fields: seq<(string, Value)>, key: string, i: int)
    requires 0 <= i < |fields| && fields[i].0 == key
    requires forall j :: i < j < |fields| ==> fields[j].0 != key
    ensures Lookup(fields, key) == Some(fields[i].1)
  {
    if i < |fields| - 1 {
      var init := fields[..|fields| - 1];
      assert init[i] == fields[i];
      LookupFindsLast(init, key, i);
    }
  }

  /** Adding a member at the end: it answers for its own key and leaves the other keys alone */
  lemma LookupAppend(fields: seq<(string, Value)>, key: string, value: Value, k: string)
    ensures Lookup(fields + [(key, value)], k) == if key == k then Some(value) else Lookup(fields, k)
  {
    assert (fields + [(key, value)])[..|fields|] == fields;
  }

  /** `type(v).__name__`, as quoted in an `AttributeError` message. */
  function TypeName(v: Value): string {
    match v
    case Null => "NoneType"
    case Bool(_) => "bool"
    case Number(_) => "int"
    case String(_) => "str"
    case Array(_) => "list"
    case Object(_) => "dict"
  }

  /** The decimal digit for `d` */
  function Digit(d: nat): char
    requires d < 10
  {
    "0123456789"[d]
  }

  /** Decimal notation of a natural number, without leading zeros */
  function Natural(n: nat): (r: string)
    ensures |r| > 0
    ensures forall i :: 0 <= i < |r| ==> '0' <= r[i] <= '9'
    ensures |r| > 1 ==> r[0] != '0'
  {
    if n < 10 then [Digit(n)] else Natural(n / 10) + [Digit(n % 10)]
  }

  /** The number a string of decimal digits denotes, most significant digit first */
  function DigitsValue(s: string): nat
    requires forall i :: 0 <= i < |s| ==> '0' <= s[i] <= '9'
  {
    if |s| == 0 then 0
    else
      var init := s[..|s| - 1];
      assert forall i :: 0 <= i < |init| ==> init[i] == s[i];
      DigitsValue(init) * 10 + (s[|s| - 1] as int - '0' as int)
  }

  /** The decimal text of `n` denotes `n` */
  lemma {:induction false} NaturalDenotes(n: nat)
    ensures DigitsValue(Natural(n)) == n
  {
    var r := Natural(n);
    if n >= 10 {
      NaturalDenotes(n / 10);
      assert r[..|r| - 1] == Natural(n / 10);
    }
  }

  /** Python's `str(n)` for an integer */
  function Decimal(n: int): string {
    if n < 0 then "-" + Natural(-n) else Natural(n)
  }

  /** `str(v)` for the values that are not containers */
  function ScalarText(v: Value): string
    requires !v.Array? && !v.Object?
  {
    match v
    case Null => "None"
    case Bool(b) => if b then "True" else "False"
    case Number(n) => Decimal(n)
    case String(s) => s
  }

  /** `str(v)`, which is what an f-string inserts for `{v}` */
  function Str(v: Value): string {
    if v.Array? || v.Object? then Repr(v) else ScalarText(v)
  }

  /** `repr(v)`, as used for the elements of a list or dict */
  function Repr(v: Value): string
    decreases v
  {
    match v
    case String(s) => "'" + s + "'"
    case Array(items) => "[" + ReprItems(items) + "]"
    case Object(fields) => "{" + ReprFields(fields) + "}"
    case _ => ScalarText(v)
  }

  /** The comma-separated `repr` of list elements */
  function ReprItems(items: seq<Value>): string
    decreases items
  {
    if |items| == 0 then ""
    else if |items| == 1 then Repr(items[0])
    else Repr(items[0]) + ", " + ReprItems(items[1..])
  }

  /** The comma-separated `key: value` pairs of a dict */
  function ReprFields(fields: seq<(string, Value)>): string
    decreases fields
  {
    if |fields| == 0 then ""
    else
      var (key, value) := fields[0];
      assert value < fields[0];
      var entry := "'" + key + "': " + Repr(value);
      if |fields| == 1 then entry else entry + ", " + ReprFields(fields[1..])
  }
}
