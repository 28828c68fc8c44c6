/**
 * A decoded JSON payload and the part of JavaScript's property access that the
 * summary code relies on: reading `v[key]` or `v.key`, and
 * `{}.hasOwnProperty.call(v, key)`. Both raise a TypeError when `v` is `null` or
 * `undefined`; everything else yields a value (possibly `undefined`).
 */
module JsonValue {
  import opened Wrappers

  /** A value as `JSON.parse` returns it. An object is a map from its keys to its members. */
  datatype Json =
    | JNull
    | JBool(b: bool)
    | JNum(n: real)
    | JStr(s: string)
    | JArr(items: seq<Json>)
    | JObj(fields: map<string, Json>)

  /** A JavaScript value as the core reads it: `None` stands for `undefined`. */
  type JsValue = Option<Json>

  /** The only exception the core can raise by reading a payload. */
  datatype JsError = TypeError

  predicate IsDigit(c: char) {
    '0' <= c <= '9'
  }

  function DigitsValue(s: string): nat
    requires forall i | 0 <= i < |s| :: IsDigit(s[i])
  {
    if s == [] then 0
    else
      assert IsDigit(s[|s| - 1]);
      DigitsValue(s[..|s| - 1]) * 10 + (s[|s| - 1] as int - '0' as int)
  }

  /** The array index a property key names, if it is a canonical decimal numeral. */
  function ArrayIndex(key: string): Option<nat>
  {
    if |key| > 0 && IsDigit(key[0]) && (forall i | 0 <= i < |key| :: IsDigit(key[i])) && (key[0] != '0' || |key| == 1)
    then Some(DigitsValue(key))
    else None
  }

  /** The own property `key` of a string or an array of length `len`, if it is an index or `length`. */
  predicate IsIndexed(key: string, len: nat) {
    key == "length" || (ArrayIndex(key).Some? && ArrayIndex(key).value < len)
  }

  /** `v[key]`: a member, `undefined`, or a TypeError when `v` is null or undefined. */
  function Get(v: JsValue, key: string): (r: Result<JsValue, JsError>)
    ensures r.Failure? <==> v == None || v == Some(JNull)
    ensures v.Some? && v.value.JObj? ==> (r.value.Some? <==> key in v.value.fields)
  {
    match v
    case None => Failure(TypeError)
    case Some(j) =>
      match j
      case JNull => Failure(TypeError)
      case JBool(_) => Success(None)
      case JNum(_) => Success(None)
      case JStr(s) =>
        if key == "length" then Success(Some(JNum(|s| as real)))
        else if IsIndexed(key, |s|) then Success(Some(JStr([s[ArrayIndex(key).value]])))
        else Success(None)
      case JArr(xs) =>
        if key == "length" then Success(Some(JNum(|xs| as real)))
        else if IsIndexed(key, |xs|) then Success(Some(xs[ArrayIndex(key).value]))
        else Success(None)
      case JObj(m) => Success(if key in m then Some(m[key]) else None)
  }

  /** `{}.hasOwnProperty.call(v, key)`: raises exactly where reading `v[key]` does, and is true exactly where that read finds a member. */
  function HasOwn(v: JsValue, key: string): (r: Result<bool, JsError>)
    ensures r.Failure? <==> Get(v, key).Failure?
    ensures r.Success? ==> (r.value <==> Get(v, key).value.Some?)
  {
    match v
    case None => Failure(TypeError)
    case Some(j) =>
      match j
      case JNull => Failure(TypeError)
      case JBool(_) => Success(false)
      case JNum(_) => Success(false)
      case JStr(s) => Success(IsIndexed(key, |s|))
      case JArr(xs) => Success(IsIndexed(key, |xs|))
      case JObj(m) => Success(key in m)
  }

  /** `v.k0.k1...`: the reads done left to right, stopping at the first TypeError. */
  function Path(v: JsValue, keys: seq<string>): Result<JsValue, JsError>
    decreases |keys|
  {
    if keys == [] then Success(v)
    else
      var w :- Get(v, keys[0]);
      Path(w, keys[1..])
  }

  /** The path can be read without raising and ends at a number. */
  predicate IsNumberAt(v: JsValue, keys: seq<string>) {
    var r := Path(v, keys);
    r.Success? && r.value.Some? && r.value.value.JNum?
  }

  /** The number at the end of the path (0 where there is none). */
  function NumberAt(v: JsValue, keys: seq<string>): real {
    var r := Path(v, keys);
    if r.Success? && r.value.Some? && r.value.value.JNum? then r.value.value.n else 0.0
  }
}
