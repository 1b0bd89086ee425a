/** JSON-like values as the handlers see them after `await res.json()`, with
    the bigints the token-metadata library puts into an asset snapshot, and the
    JavaScript operations the handlers apply to them: truthiness, property
    access, `?.[0]`, object spread, and the bigint-to-string serialiser of the
    NFT and collection routes. */
module Json {

  import opened Wrappers
  import opened Js

  /** A value; numbers are integers and objects keep their keys in insertion
      order. `JBigInt` only occurs in snapshots before serialisation. */
  datatype Json =
    | JNull
    | JBool(b: bool)
    | JNum(n: int)
    | JBigInt(i: int)
    | JStr(s: string)
    | JArr(items: seq<Json>)
    | JObj(fields: seq<Field>)

  datatype Field = Field(key: string, value: Json)

  /** JavaScript truthiness; an absent property (`undefined`) is `None`. */
  predicate Truthy(v: Option<Json>) {
    match v
    case None => false
    case Some(JNull) => false
    case Some(JBool(b)) => b
    case Some(JNum(n)) => n != 0
    case Some(JBigInt(i)) => i != 0
    case Some(JStr(s)) => s != ""
    case Some(JArr(_)) => true
    case Some(JObj(_)) => true
  }

  /** The value stored under `key` among `fields`, or None. */
  function FieldValue(fields: seq<Field>, key: string): Option<Json> {
    if |fields| == 0 then None
    else if fields[0].key == key then Some(fields[0].value)
    else FieldValue(fields[1..], key)
  }

  /** Looking a key up in two runs of fields: the first run wins. */
  lemma {:induction false} FieldValueAppend(a: seq<Field>, b: seq<Field>, key: string)
    ensures FieldValue(a + b, key) == if FieldValue(a, key).Some? then FieldValue(a, key) else FieldValue(b, key)
  {
    if |a| > 0 {
      assert (a + b)[0] == a[0];
      assert (a + b)[1..] == a[1..] + b;
      FieldValueAppend(a[1..], b, key);
    } else {
      assert a + b == b;
    }
  }

  /** A key that occurs among the fields is found. */
  lemma {:induction false} FieldValueFound(fields: seq<Field>, i: nat, key: string)
    requires i < |fields| && fields[i].key == key
    ensures FieldValue(fields, key).Some?
  {
    if fields[0].key != key {
      FieldValueFound(fields[1..], i - 1, key);
    }
  }

  /** `v.key` (also `v?.key`) on an own property: defined only on objects. */
  function Get(v: Option<Json>, key: string): (r: Option<Json>)
    ensures r.Some? ==> v.Some? && v.value.JObj?
    ensures v.Some? && v.value.JObj? ==> r == FieldValue(v.value.fields, key)
  {
    match v
    case Some(JObj(fs)) => FieldValue(fs, key)
    case _ => None
  }

  /** `v?.[0]`: the first array element, the own property "0" of an object,
      the first character of a string; otherwise `undefined`. */
  function First(v: Option<Json>): (r: Option<Json>)
    ensures v.Some? && v.value.JArr? && |v.value.items| > 0 ==> r == Some(v.value.items[0])
    ensures v.Some? && v.value.JArr? && |v.value.items| == 0 ==> r.None?
    ensures v.None? || v == Some(JNull) ==> r.None?
  {
    match v
    case Some(JArr(xs)) => if |xs| > 0 then Some(xs[0]) else None
    case Some(JObj(fs)) => FieldValue(fs, "0")
    case Some(JStr(s)) => if |s| > 0 then Some(JStr([s[0]])) else None
    case _ => None
  }

  /** The object `{...fields, [key]: value}`: an existing key keeps its place
      and takes the new value, a new key goes last. */
  function Set(fields: seq<Field>, key: string, value: Json): (r: seq<Field>)
    ensures FieldValue(r, key) == Some(value)
    ensures forall k :: k != key ==> FieldValue(r, k) == FieldValue(fields, k)
    ensures |r| == |fields| + (if FieldValue(fields, key).Some? then 0 else 1)
    ensures forall i :: 0 <= i < |fields| ==> r[i].key == fields[i].key
  {
    if |fields| == 0 then [Field(key, value)]
    else if fields[0].key == key then [Field(key, value)] + fields[1..]
    else [fields[0]] + Set(fields[1..], key, value)
  }

  /** The own enumerable properties `{...v}` copies: an object's fields, an
      array's or a string's elements under their decimal indices, and nothing
      for any other value. */
  function Spread(v: Json): (r: seq<Field>)
    ensures v.JObj? ==> r == v.fields
    ensures v.JArr? ==>
              && |r| == |v.items|
              && forall i :: 0 <= i < |r| ==> r[i] == Field(NatToString(i), v.items[i])
    ensures !v.JObj? && !v.JArr? && !v.JStr? ==> r == []
  {
    match v
    case JObj(fs) => fs
    case JArr(xs) => seq(|xs|, i requires 0 <= i < |xs| => Field(NatToString(i), xs[i]))
    case JStr(s) => seq(|s|, i requires 0 <= i < |s| => Field(NatToString(i), JStr([s[i]])))
    case _ => []
  }

  /** A property as `JSON.stringify` writes it: an undefined value drops
      the key. */
  function Defined(key: string, v: Option<Json>): (r: seq<Field>)
    ensures FieldValue(r, key) == v
  {
    if v.Some? then [Field(key, v.value)] else []
  }

  /** `${v}`: how a template literal renders a value. */
  function Template(v: Option<Json>): string {
    match v
    case None => "undefined"
    case Some(j) => Text(j)
  }

  /** `String(v)` for integral numbers, strings, arrays and objects. */
  function Text(v: Json): string
    decreases v, 1
  {
    match v
    case JNull => "null"
    case JBool(b) => if b then "true" else "false"
    case JNum(n) => IntToString(n)
    case JBigInt(i) => IntToString(i)
    case JStr(s) => s
    case JArr(xs) => ItemsText(xs)
    case JObj(_) => "[object Object]"
  }

  /** `Array.prototype.join(",")`, where a null item renders as nothing. */
  function ItemsText(xs: seq<Json>): string
    decreases xs, 0
  {
    if |xs| == 0 then ""
    else
      (if xs[0].JNull? then "" else Text(xs[0])) + (if |xs| == 1 then "" else "," + ItemsText(xs[1..]))
  }

  /** A single-field error body `{ error: message }`. */
  function ErrorBody(message: string): (r: Json)
    ensures Get(Some(r), "error") == Some(JStr(message))
  {
    JObj([Field("error", JStr(message))])
  }

  // ---------------------------------------------------------------------------
  // serializeNftResponse

  /** True when a bigint occurs anywhere in `v`. */
  predicate HasBigInt(v: Json) {
    match v
    case JBigInt(_) => true
    case JArr(xs) => exists i :: 0 <= i < |xs| && HasBigInt(xs[i])
    case JObj(fs) => exists i :: 0 <= i < |fs| && HasBigInt(fs[i].value)
    case _ => false
  }

  /** `JSON.parse(JSON.stringify(v, bigint => bigint.toString()))`: every
      bigint leaf becomes its decimal string; arrays keep their length, objects
      their keys in order, and every other leaf stays as it is. */
  function StringifyBigInts(v: Json): (r: Json)
    ensures !HasBigInt(r)
    ensures !HasBigInt(v) ==> r == v
    ensures v.JBigInt? ==> r == JStr(IntToString(v.i))
    ensures v.JArr? ==> r.JArr? && |r.items| == |v.items|
    ensures v.JObj? ==>
              && r.JObj? && |r.fields| == |v.fields|
              && forall i :: 0 <= i < |v.fields| ==> r.fields[i].key == v.fields[i].key
    ensures !v.JArr? && !v.JObj? && !v.JBigInt? ==> r == v
    decreases v, 1
  {
    match v
    case JBigInt(i) => JStr(IntToString(i))
    case JArr(xs) => JArr(StringifyItems(xs))
    case JObj(fs) => JObj(StringifyFields(fs))
    case _ => v
  }

  function StringifyItems(xs: seq<Json>): (r: seq<Json>)
    ensures |r| == |xs|
    ensures forall i :: 0 <= i < |r| ==> !HasBigInt(r[i])
    ensures forall i :: 0 <= i < |r| ==> r[i] == StringifyBigInts(xs[i])
    decreases xs, 0
  {
    if |xs| == 0 then []
    else [StringifyBigInts(xs[0])] + StringifyItems(xs[1..])
  }

  function StringifyFields(fs: seq<Field>): (r: seq<Field>)
    ensures |r| == |fs|
    ensures forall i :: 0 <= i < |r| ==> !HasBigInt(r[i].value)
    ensures forall i :: 0 <= i < |r| ==> r[i] == Field(fs[i].key, StringifyBigInts(fs[i].value))
    decreases fs, 0
  {
    if |fs| == 0 then []
    else [Field(fs[0].key, StringifyBigInts(fs[0].value))] + StringifyFields(fs[1..])
  }

  /** Serialising an already serialised response changes nothing. */
  lemma StringifyIdempotent(v: Json)
    ensures StringifyBigInts(StringifyBigInts(v)) == StringifyBigInts(v)
  {
  }

  /** Each string that replaced a bigint reads back as that bigint. */
  lemma BigIntLeafReadsBack(i: int)
    ensures StringifyBigInts(JBigInt(i)).JStr?
    ensures SignedDecimalValue(StringifyBigInts(JBigInt(i)).s) == i
  {
    IntToStringRoundTrip(i);
  }
}
