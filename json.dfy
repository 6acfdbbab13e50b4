/** Vert.x JSON values and the typed getters of JsonObject that the customer code relies on. */
module Json {
  import opened Wrappers

  /** java.lang.Integer: a 32-bit two's complement integer. */
  newtype Int32 = x: int | -0x8000_0000 <= x < 0x8000_0000

  const TwoTo32: int := 0x1_0000_0000

  /** A JSON value as held inside a JsonObject or JsonArray (floating-point numbers are not modelled). */
  datatype JsonValue =
    | JNull
    | JBool(b: bool)
    | JInt(n: int)
    | JStr(s: string)
    | JArr(elems: seq<JsonValue>)
    | JObj(fields: JsonObject)

  /** A JsonObject: its keys and values; a key put with a null value is present and maps to JNull. */
  type JsonObject = map<string, JsonValue>

  /** Number.intValue() on an integral number: the unique Int32 congruent to n modulo 2^32. */
  function IntValue(n: int): (r: Int32)
    ensures (n - r as int) % TwoTo32 == 0
    ensures -0x8000_0000 <= n < 0x8000_0000 ==> r as int == n
  {
    var low := n % TwoTo32;
    if low < 0x8000_0000 then low as Int32 else (low - TwoTo32) as Int32
  }

  /** The value kinds getString accepts without a ClassCastException. */
  predicate StringOrAbsent(o: JsonObject, key: string) {
    key in o ==> o[key].JNull? || o[key].JStr?
  }

  /** The value kinds getInteger accepts without a ClassCastException. */
  predicate IntegerOrAbsent(o: JsonObject, key: string) {
    key in o ==> o[key].JNull? || o[key].JInt?
  }

  /** JsonObject.getString(key): null both for a missing key and for an explicit null. */
  function GetString(o: JsonObject, key: string): (r: Option<string>)
    requires StringOrAbsent(o, key)
    ensures r.None? <==> key !in o || o[key] == JNull
    ensures r.Some? ==> o[key] == JStr(r.value)
  {
    if key in o && o[key].JStr? then Some(o[key].s) else None
  }

  /** JsonObject.getInteger(key): null for a missing key or an explicit null, otherwise intValue(). */
  function GetInteger(o: JsonObject, key: string): (r: Option<Int32>)
    requires IntegerOrAbsent(o, key)
    ensures r.None? <==> key !in o || o[key] == JNull
    ensures r.Some? ==> o[key].JInt? && (o[key].n - r.value as int) % TwoTo32 == 0
  {
    if key in o && o[key].JInt? then Some(IntValue(o[key].n)) else None
  }

  /** JsonObject.getInteger(key, def): the default only when the key is absent; an explicit null stays null. */
  function GetIntegerOr(o: JsonObject, key: string, def: Int32): (r: Option<Int32>)
    requires IntegerOrAbsent(o, key)
    ensures key !in o ==> r == Some(def)
    ensures key in o ==> r == GetInteger(o, key)
  {
    if key in o then GetInteger(o, key) else Some(def)
  }

  /** The value JsonObject.put(key, String) stores: JNull for null. */
  function StringValue(s: Option<string>): (v: JsonValue)
    ensures v.JNull? <==> s.None?
    ensures v.JNull? || v.JStr?
    ensures s.Some? ==> v.s == s.value
  {
    match s
    case None => JNull
    case Some(t) => JStr(t)
  }

  /** The value JsonObject.put(key, Integer) stores: JNull for null. */
  function IntegerValue(i: Option<Int32>): (v: JsonValue)
    ensures v.JNull? <==> i.None?
    ensures v.JNull? || v.JInt?
    ensures i.Some? ==> v.n == i.value as int
  {
    match i
    case None => JNull
    case Some(n) => JInt(n as int)
  }
}
