/**
 * `checkResponse`: the shape test run on a decoded batch response before a
 * host summary is built from it. It asks for elements 0 and 1, an `updated`
 * member in the first element's `DATA` object and five metric sections in the
 * second element's `DATA` object, and nothing else.
 */
module Validator {
  import opened Wrappers
  import opened JsonValue

  /** The metric sections the second element's `DATA` object must have, in the order they are tested. */
  const MetricOrder: seq<string> := ["Memory", "Uptime", "Disk", "Load", "CPU"]

  const RequiredMetrics: set<string> := {"Memory", "Uptime", "Disk", "Load", "CPU"}

  /** The `&&` chain of `hasOwnProperty` tests on one object, left to right: true when every test is. */
  function HasAll(v: JsValue, names: seq<string>): (r: Result<bool, JsError>)
    ensures r == Success(true) <==> forall i | 0 <= i < |names| :: HasOwn(v, names[i]) == Success(true)
    ensures r.Failure? <==> names != [] && (v == None || v == Some(JNull))
    decreases |names|
  {
    if names == [] then Success(true)
    else
      var has :- HasOwn(v, names[0]);
      if !has then Success(false) else HasAll(v, names[1..])
  }

  /**
   * `checkResponse` on an already decoded body. Reading `DATA` of a missing,
   * null or non-object element, or testing a null or missing `DATA`, raises a
   * TypeError as it does in the source.
   */
  function CheckResponse(d: Json): (r: Result<bool, JsError>)
    ensures r == Success(true) <==> Accepts(d)
    ensures r.Failure? <==> Raises(d)
    ensures d.JNull? ==> r.Failure?
    ensures !d.JNull? && (Slot(d, 0).None? || Slot(d, 1).None?) ==> r == Success(false)
  {
    var has0 :- HasOwn(Some(d), "0");
    if !has0 || !HasOwn(Some(d), "1").value then Success(false)
    else
      KeysAreIndices();
      CheckElements(Slot(d, 0).value, Slot(d, 1).value)
  }

  /** The `DATA` tests of `checkResponse` on elements 0 and 1, in the order of the `&&` chain. */
  function CheckElements(e0: Json, e1: Json): (r: Result<bool, JsError>)
    ensures r == Success(true) <==>
              (&& DataKeys(Some(e0)).Some? && "updated" in DataKeys(Some(e0)).value
               && DataKeys(Some(e1)).Some? && RequiredMetrics <= DataKeys(Some(e1)).value)
  {
    var updated :- CheckFirst(e0);
    if !updated then Success(false) else CheckSecond(e1)
  }

  /** `{}.hasOwnProperty.call(d[0].DATA, 'updated')`. */
  function CheckFirst(e0: Json): (r: Result<bool, JsError>)
    ensures r == Success(true) <==> DataKeys(Some(e0)).Some? && "updated" in DataKeys(Some(e0)).value
    ensures r.Failure? <==> NoData(e0)
  {
    var data0 :- Get(Some(e0), "DATA");
    HasOwn(data0, "updated")
  }

  /** The five `hasOwnProperty` tests on `d[1].DATA`. */
  function CheckSecond(e1: Json): (r: Result<bool, JsError>)
    ensures r == Success(true) <==> DataKeys(Some(e1)).Some? && RequiredMetrics <= DataKeys(Some(e1)).value
    ensures r.Failure? <==> NoData(e1)
  {
    var data1 :- Get(Some(e1), "DATA");
    HasAll(data1, MetricOrder)
  }

  lemma KeysAreIndices()
    ensures ArrayIndex("0") == Some(0) && ArrayIndex("1") == Some(1)
  {
  }

  /** Element `i` (0 or 1) of the decoded body, read the way `d[i]` reads it. */
  function Slot(d: Json, i: nat): Option<Json>
    requires i < 2
  {
    match d
    case JArr(xs) => if i < |xs| then Some(xs[i]) else None
    case JObj(m) =>
      var key := if i == 0 then "0" else "1";
      if key in m then Some(m[key]) else None
    case JStr(s) => if i < |s| then Some(JStr([s[i]])) else None
    case _ => None
  }

  /** The keys of the object an element holds under `DATA`, when it is an object holding an object there. */
  function DataKeys(e: Option<Json>): Option<set<string>> {
    if e.Some? && e.value.JObj? && "DATA" in e.value.fields && e.value.fields["DATA"].JObj?
    then Some(e.value.fields["DATA"].fields.Keys)
    else None
  }

  /** The shape `checkResponse` accepts, stated on the structure of the value. */
  ghost predicate Accepts(d: Json) {
    && DataKeys(Slot(d, 0)).Some? && "updated" in DataKeys(Slot(d, 0)).value
    && DataKeys(Slot(d, 1)).Some? && RequiredMetrics <= DataKeys(Slot(d, 1)).value
  }

  /** An element whose `DATA` is null or undefined, or which is itself null: testing its `DATA` raises. */
  ghost predicate NoData(e: Json) {
    e.JNull? || !(e.JObj? && "DATA" in e.fields && e.fields["DATA"] != JNull)
  }

  /**
   * The bodies on which `checkResponse` raises a TypeError: `null` itself, or
   * elements 0 and 1 both present and a `DATA` test reaching an element
   * without `DATA` (the second only once the first has passed).
   */
  ghost predicate Raises(d: Json) {
    || d.JNull?
    || (&& Slot(d, 0).Some? && Slot(d, 1).Some?
        && (|| NoData(Slot(d, 0).value)
            || (DataKeys(Slot(d, 0)).Some? && "updated" in DataKeys(Slot(d, 0)).value && NoData(Slot(d, 1).value))))
  }

  /** An element with `extra` merged into its `DATA` object (an element of any other shape is left alone). */
  function WithExtraData(e: Json, extra: map<string, Json>): Json {
    if e.JObj? && "DATA" in e.fields && e.fields["DATA"].JObj?
    then JObj(e.fields["DATA" := JObj(e.fields["DATA"].fields + extra)])
    else e
  }

  /** On an array of at least two elements the test is the `DATA` tests on its first two elements. */
  lemma ArrayResponse(xs: seq<Json>)
    requires |xs| >= 2
    ensures CheckResponse(JArr(xs)) == CheckElements(xs[0], xs[1])
  {
    KeysAreIndices();
  }

  /** Adding or overwriting members that are not tested never changes the verdict, nor whether it raises. */
  lemma ExtraKeysIgnored(xs: seq<Json>, extra0: map<string, Json>, extra1: map<string, Json>)
    requires |xs| >= 2
    requires "updated" !in extra0
    requires extra1.Keys !! RequiredMetrics
    ensures CheckResponse(JArr([WithExtraData(xs[0], extra0), WithExtraData(xs[1], extra1)] + xs[2..]))
         == CheckResponse(JArr(xs))
  {
    var ys := [WithExtraData(xs[0], extra0), WithExtraData(xs[1], extra1)] + xs[2..];
    ArrayResponse(xs);
    ArrayResponse(ys);
    ElementsIgnoreExtraKeys(xs[0], xs[1], extra0, extra1);
  }

  lemma ElementsIgnoreExtraKeys(e0: Json, e1: Json, extra0: map<string, Json>, extra1: map<string, Json>)
    requires "updated" !in extra0
    requires extra1.Keys !! RequiredMetrics
    ensures CheckElements(WithExtraData(e0, extra0), WithExtraData(e1, extra1)) == CheckElements(e0, e1)
  {
    FirstIgnoresExtraKeys(e0, extra0);
    SecondIgnoresExtraKeys(e1, extra1);
  }

  lemma FirstIgnoresExtraKeys(e0: Json, extra0: map<string, Json>)
    requires "updated" !in extra0
    ensures CheckFirst(WithExtraData(e0, extra0)) == CheckFirst(e0)
  {
    if e0.JObj? && "DATA" in e0.fields && e0.fields["DATA"].JObj? {
      var data0 := e0.fields["DATA"].fields;
      assert Get(Some(WithExtraData(e0, extra0)), "DATA") == Success(Some(JObj(data0 + extra0)));
      assert ("updated" in data0 + extra0) == ("updated" in data0);
    }
  }

  lemma SecondIgnoresExtraKeys(e1: Json, extra1: map<string, Json>)
    requires extra1.Keys !! RequiredMetrics
    ensures CheckSecond(WithExtraData(e1, extra1)) == CheckSecond(e1)
  {
    if e1.JObj? && "DATA" in e1.fields && e1.fields["DATA"].JObj? {
      var data1 := e1.fields["DATA"].fields;
      assert Get(Some(WithExtraData(e1, extra1)), "DATA") == Success(Some(JObj(data1 + extra1)));
      HasAllIgnoresOtherKeys(data1, extra1, MetricOrder);
    }
  }

  /** Members outside the tested names do not change the outcome of the test chain. */
  lemma HasAllIgnoresOtherKeys(m: map<string, Json>, extra: map<string, Json>, names: seq<string>)
    requires forall i | 0 <= i < |names| :: names[i] !in extra
    ensures HasAll(Some(JObj(m + extra)), names) == HasAll(Some(JObj(m)), names)
  {
    forall i | 0 <= i < |names|
      ensures HasOwn(Some(JObj(m + extra)), names[i]) == HasOwn(Some(JObj(m)), names[i])
    {
    }
  }

  /** Elements after the second are never looked at. */
  lemma TrailingElementsIgnored(xs: seq<Json>, more: seq<Json>)
    requires |xs| >= 2
    ensures CheckResponse(JArr(xs + more)) == CheckResponse(JArr(xs))
  {
    ArrayResponse(xs);
    ArrayResponse(xs + more);
  }
}
