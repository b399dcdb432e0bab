/**
 * The JSON values the core receives, and the three nlohmann::json accessors it relies on:
 * `contains`, `is_boolean` and `value(key, default)`.
 */
module Json {
  import opened Wrappers

  /** A JSON value; numbers are integers here (both sides only exchange integer timestamps). */
  datatype Value =
    | JNull
    | JBool(b: bool)
    | JNumber(n: int)
    | JString(s: string)
    | JArray(items: seq<Value>)
    | JObject(members: map<string, Value>)

  /** A JSON object: the shape of every message the core handles. */
  type Object = map<string, Value>

  /** The type_error nlohmann::json throws when a present member has the wrong type. */
  datatype TypeError = TypeError(key: string)

  /** The bounds of a C++ `int`. */
  const IntMin: int := -0x8000_0000
  const IntMax: int := 0x7FFF_FFFF

  /** `static_cast<int>` of a 64-bit integer: the value modulo 2^32, in the signed range. */
  function IntCast(n: int): (r: int)
    ensures IntMin <= r <= IntMax
    ensures IntMin <= n <= IntMax ==> r == n
    ensures (r - n) % 0x1_0000_0000 == 0
  {
    (n - IntMin) % 0x1_0000_0000 + IntMin
  }

  /**
   * `obj.value(key, default)` for a string default: the default when `key` is absent, the
   * member when it is a string, and a type error for any other member.
   */
  function StringValue(obj: Object, key: string, default: string): (r: Result<string, TypeError>)
    ensures key !in obj ==> r == Success(default)
    ensures key in obj && obj[key].JString? ==> r == Success(obj[key].s)
    ensures r.Failure? <==> key in obj && !obj[key].JString?
    ensures r.Failure? ==> r.error == TypeError(key)
  {
    if key !in obj then Success(default)
    else if obj[key].JString? then Success(obj[key].s)
    else Failure(TypeError(key))
  }

  /**
   * `obj.value(key, default)` for an `int` default. The result type is `int`, so a present
   * number is narrowed to 32 bits and a boolean reads as 0 or 1; any other member is a type
   * error.
   */
  function IntegerValue(obj: Object, key: string, default: int): (r: Result<int, TypeError>)
    ensures key !in obj ==> r == Success(default)
    ensures key in obj && r.Success? ==> IntMin <= r.value <= IntMax
    ensures key in obj && obj[key].JNumber? && IntMin <= obj[key].n <= IntMax ==> r == Success(obj[key].n)
    ensures r.Failure? <==> key in obj && !obj[key].JNumber? && !obj[key].JBool?
    ensures r.Failure? ==> r.error == TypeError(key)
  {
    if key !in obj then Success(default)
    else if obj[key].JNumber? then Success(IntCast(obj[key].n))
    else if obj[key].JBool? then Success(if obj[key].b then 1 else 0)
    else Failure(TypeError(key))
  }

  /** `obj.value(key, default)` for a boolean default: only a JSON boolean converts. */
  function BoolValue(obj: Object, key: string, default: bool): (r: Result<bool, TypeError>)
    ensures key !in obj ==> r == Success(default)
    ensures key in obj && obj[key].JBool? ==> r == Success(obj[key].b)
    ensures r.Failure? <==> key in obj && !obj[key].JBool?
    ensures r.Failure? ==> r.error == TypeError(key)
  {
    if key !in obj then Success(default)
    else if obj[key].JBool? then Success(obj[key].b)
    else Failure(TypeError(key))
  }
}
