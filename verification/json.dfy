/**
 * JSON values as the browser sees them after `response.json()`, and the
 * JavaScript semantics the control panel relies on: property access
 * (which throws on null and undefined), optional chaining, truthiness,
 * strict equality and conversion to a string. Numbers are integers here.
 */
module Json {
  import Strconv

  datatype Json =
    | JNull
    | JBool(b: bool)
    | JNum(n: int)
    | JStr(s: string)
    | JArr(items: seq<Json>)
    | JObj(fields: map<string, Json>)

  /** The result of evaluating a JavaScript expression: a value, undefined, or a thrown TypeError. */
  datatype Access = Throws | Undefined | Value(v: Json)

  /** `v.name` on a parsed value. */
  function Prop(v: Json, name: string): (r: Access)
    ensures r.Throws? <==> v.JNull?
    ensures v.JObj? ==> (r.Value? <==> name in v.fields)
  {
    match v
    case JNull => Throws
    case JObj(f) => if name in f then Value(f[name]) else Undefined
    case JArr(items) => if name == "length" then Value(JNum(|items|)) else Undefined
    case JStr(s) => if name == "length" then Value(JNum(|s|)) else Undefined
    case _ => Undefined
  }

  /** `a.name` where a is itself the result of an expression. */
  function Member(a: Access, name: string): Access {
    match a
    case Throws => Throws
    case Undefined => Throws
    case Value(v) => Prop(v, name)
  }

  /** `a?.name`: undefined instead of an exception on null or undefined. */
  function OptionalMember(a: Access, name: string): (r: Access)
    ensures !a.Throws? ==> !r.Throws?
  {
    match a
    case Throws => Throws
    case Undefined => Undefined
    case Value(v) => if v.JNull? then Undefined else Prop(v, name)
  }

  predicate Truthy(a: Access)
    requires !a.Throws?
  {
    match a
    case Undefined => false
    case Value(v) =>
      match v
      case JNull => false
      case JBool(b) => b
      case JNum(n) => n != 0
      case JStr(s) => s != ""
      case _ => true
  }

  /** `a || fallback`. */
  function Or(a: Access, fallback: Json): (r: Access)
    requires !a.Throws?
    ensures r.Value?
  {
    if Truthy(a) then a else Value(fallback)
  }

  /** `a === b` on values from different parses: objects and arrays are never identical. */
  predicate StrictEq(a: Access, b: Access) {
    match (a, b)
    case (Undefined, Undefined) => true
    case (Value(JNull), Value(JNull)) => true
    case (Value(JBool(x)), Value(JBool(y))) => x == y
    case (Value(JNum(x)), Value(JNum(y))) => x == y
    case (Value(JStr(x)), Value(JStr(y))) => x == y
    case _ => false
  }

  /** String(v), as a template literal or an Error message converts a value. */
  function ToJsString(a: Access): string
    requires !a.Throws?
  {
    match a
    case Undefined => "undefined"
    case Value(v) => ValueString(v)
  }

  function ValueString(v: Json): string
    decreases v, 1
  {
    match v
    case JNull => "null"
    case JBool(b) => if b then "true" else "false"
    case JNum(n) => Strconv.Itoa(n)
    case JStr(s) => s
    case JArr(items) => Joined(items, 0)
    case JObj(_) => "[object Object]"
  }

  /** Array.prototype.join(","), where null elements print as nothing. */
  function Joined(items: seq<Json>, i: nat): string
    requires i <= |items|
    decreases JArr(items), 0, |items| - i
  {
    if i == |items| then ""
    else
      var head := if items[i].JNull? then "" else ValueString(items[i]);
      if i + 1 == |items| then head else head + "," + Joined(items, i + 1)
  }
}
