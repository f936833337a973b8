/** JSON-like JavaScript values, for the places where the core inspects a value's runtime
    type (`typeof v === "string"`), its truthiness, or turns it into an error message. */
module JsValues {
  import opened Text

  /** Numbers are reals here; NaN and the infinities are not modelled. */
  datatype JsValue =
    | JsString(s: string)
    | JsNumber(n: real)
    | JsBool(b: bool)
    | JsNull
    | JsUndefined
    | JsArray(items: seq<JsValue>)
    | JsObject(fields: map<string, JsValue>)

  /** `v?.[key]`: a property of an object, `undefined` for a missing key or a non-object. */
  function Get(v: JsValue, key: string): (r: JsValue)
    ensures r != JsUndefined ==> v.JsObject? && key in v.fields
    ensures v.JsObject? && key in v.fields ==> r == v.fields[key]
    ensures !(v.JsObject? && key in v.fields) ==> r == JsUndefined
  {
    if v.JsObject? && key in v.fields then v.fields[key] else JsUndefined
  }

  /** JavaScript truthiness. */
  predicate Truthy(v: JsValue) {
    match v
    case JsString(s) => s != ""
    case JsNumber(n) => n != 0.0
    case JsBool(b) => b
    case JsNull => false
    case JsUndefined => false
    case JsArray(_) => true
    case JsObject(_) => true
  }

  function IntToString(n: int): (r: string)
    ensures |r| >= 1
  {
    if n < 0 then "-" + NatToString(-n) else NatToString(n)
  }

  /** How the host prints a number (`Number.prototype.toString`), which is not modelled. */
  type NumberText = real -> string

  /** `String(v)`, as a template literal or `new Error(v).message` turns a value into text. */
  function ToText(v: JsValue, numberText: NumberText): string
    decreases v, 1
  {
    match v
    case JsString(s) => s
    case JsNumber(n) => numberText(n)
    case JsBool(b) => if b then "true" else "false"
    case JsNull => "null"
    case JsUndefined => "undefined"
    case JsArray(items) => JoinTexts(items, v, numberText)
    case JsObject(_) => "[object Object]"
  }

  /** `items.join(",")`, where `null` and `undefined` items print as nothing. */
  function JoinTexts(items: seq<JsValue>, whole: JsValue, numberText: NumberText): string
    requires whole.JsArray? && forall i :: 0 <= i < |items| ==> items[i] < whole
    decreases whole, 0, |items|
  {
    if items == [] then ""
    else
      var first := if items[0] == JsNull || items[0] == JsUndefined then "" else ToText(items[0], numberText);
      if |items| == 1 then first else first + "," + JoinTexts(items[1..], whole, numberText)
  }
}
