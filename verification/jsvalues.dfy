/**
 * JSON values as the HTTP body parser hands them to the request handler, with the two
 * JavaScript conversions the handler applies to them: ToBoolean (the `!x` presence test)
 * and ToString (interpolation into a template literal).
 */
module JsValues {
  import opened Wrappers

  /** A parsed JSON value. Numbers are restricted to integers. */
  datatype Json =
    | JNull
    | JBool(b: bool)
    | JNumber(n: int)
    | JString(s: string)
    | JArray(items: seq<Json>)
    | JObject(fields: seq<(string, Json)>)

  /** ToBoolean: null, false, 0 and "" are falsy; every array and object is truthy. */
  predicate Truthy(j: Json)
  {
    match j
    case JNull => false
    case JBool(b) => b
    case JNumber(n) => n != 0
    case JString(s) => s != ""
    case JArray(_) => true
    case JObject(_) => true
  }

  /** A destructured body field passes `!field` when it was sent AND is truthy. */
  predicate Present(field: Option<Json>)
  {
    field.Some? && Truthy(field.value)
  }

  /** The values a present field may hold: `true`, a non-zero number, a non-empty string, any array, any object. */
  lemma PresentMeansTruthy(field: Option<Json>)
    ensures Present(field) <==> field.Some? && var j := field.value;
      j == JBool(true) || (j.JNumber? && j.n != 0) || (j.JString? && j.s != "") || j.JArray? || j.JObject?
    ensures forall items :: Present(Some(JArray(items)))
    ensures forall fields :: Present(Some(JObject(fields)))
    ensures !Present(None) && !Present(Some(JString(""))) && !Present(Some(JNumber(0)))
    ensures !Present(Some(JNull)) && !Present(Some(JBool(false)))
    ensures Present(Some(JArray([]))) && Present(Some(JObject([])))
  {
  }

  function DigitChar(d: nat): (c: char)
    requires d < 10
    ensures '0' <= c <= '9'
  {
    "0123456789"[d]
  }

  predicate AllDigits(s: string)
  {
    forall i :: 0 <= i < |s| ==> '0' <= s[i] <= '9'
  }

  /** Decimal text of a natural number, most significant digit first, no leading zeros. */
  function NatText(n: nat): (s: string)
    ensures |s| >= 1 && AllDigits(s)
    ensures (s[0] == '0') <==> (n == 0)
    decreases n
  {
    if n < 10 then [DigitChar(n)] else NatText(n / 10) + [DigitChar(n % 10)]
  }

  /** Decimal text of an integer, as JavaScript's Number-to-String gives it for safe integers. */
  function IntText(n: int): (s: string)
    ensures |s| >= 1
    ensures n < 0 <==> s[0] == '-'
  {
    if n < 0 then "-" + NatText(-n) else NatText(n)
  }

  /** Array.prototype.join with the default separator ",". */
  function Join(parts: seq<string>): string
  {
    if |parts| == 0 then ""
    else if |parts| == 1 then parts[0]
    else parts[0] + "," + Join(parts[1..])
  }

  /** V8's message when ToPrimitive finds neither a callable toString nor a callable valueOf. */
  const NotPrimitive := "Cannot convert object to primitive value"

  /** The parsed object has an own property named k (JSON.parse defines every key as an own property). */
  predicate HasKey(fields: seq<(string, Json)>, k: string)
  {
    exists i :: 0 <= i < |fields| && fields[i].0 == k
  }

  /**
   * ToString of a JSON value, as `${x}` produces it. An array is joined with "," (null
   * elements give the empty string). An object gives "[object Object]" through the inherited
   * toString, unless it has an own "toString" key: that value is not callable, the inherited
   * valueOf returns the object itself, and the conversion throws. A throwing element makes
   * the whole array conversion throw.
   */
  function TemplateText(j: Json): (r: Result<string, string>)
    ensures j.JString? ==> r == Success(j.s)
    ensures j.JObject? ==> (r.Failure? <==> HasKey(j.fields, "toString"))
    ensures j.JArray? ==> (r.Failure? <==> exists i :: 0 <= i < |j.items| && TemplateText(j.items[i]).Failure?)
    ensures r.Failure? ==> r.error == NotPrimitive
  {
    match j
    case JNull => Success("null")
    case JBool(b) => Success(if b then "true" else "false")
    case JNumber(n) => Success(IntText(n))
    case JString(s) => Success(s)
    case JArray(items) =>
      if exists i :: 0 <= i < |items| && TemplateText(items[i]).Failure? then
        Failure(NotPrimitive)
      else
        Success(Join(seq(|items|, i requires 0 <= i < |items| =>
          if items[i].JNull? then "" else TemplateText(items[i]).value)))
    case JObject(fields) =>
      if HasKey(fields, "toString") then Failure(NotPrimitive) else Success("[object Object]")
  }

  /** An own "toString" key makes the conversion throw, on its own and nested inside an array. */
  lemma OwnToStringThrows()
    ensures TemplateText(JObject([("toString", JNumber(1))])) == Failure(NotPrimitive)
    ensures TemplateText(JArray([JString("a"), JArray([JObject([("toString", JString("x"))])])])) == Failure(NotPrimitive)
    ensures TemplateText(JObject([("valueOf", JNumber(1))])) == Success("[object Object]")
  {
    var top := JObject([("toString", JNumber(1))]);
    assert top.fields[0].0 == "toString";
    var inner := JObject([("toString", JString("x"))]);
    assert inner.fields[0].0 == "toString";
    var mid := JArray([inner]);
    assert mid.items[0] == inner;
    var outer := JArray([JString("a"), mid]);
    assert outer.items[1] == mid;
    assert !HasKey([("valueOf", JNumber(1))], "toString");
  }
}
