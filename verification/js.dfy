/**
 The slice of JavaScript value semantics the scripts depend on: the values a
 JSON response can hold, truthiness, property access (which throws on
 `undefined` and `null`), loose comparison against the strings the scripts
 compare with, and the string conversion used by template literals.
 Numbers are integers here; floating point and NaN are not modelled.
 */
module Js {

  import Text

  datatype Option<+T> = None | Some(value: T)

  /** A JSON-shaped JavaScript value. Object properties are a map: the scripts
      only read properties by name, never iterate over them. */
  datatype JsValue =
    | Undefined
    | Null
    | Bool(b: bool)
    | Num(n: int)
    | Str(s: string)
    | Arr(elems: seq<JsValue>)
    | Obj(props: map<string, JsValue>)

  /** The exceptions that can reach a `catch` in the scripts. */
  datatype Error =
    | HttpError(status: int)   // thrown by apiCaller for a non-ok status
    | ConnectionReset          // fetch failed with code ECONNRESET
    | NetworkFailure           // any other failure of fetch itself
    | SyntaxError              // a body or a stored payload that is not JSON
    | TypeError                // a property read on undefined or null, or a missing method

  datatype Result<+T> = Ok(value: T) | Err(error: Error) {
    predicate IsFailure() { Err? }

    function PropagateFailure<U>(): Result<U>
      requires Err?
    {
      Err(error)
    }

    function Extract(): T
      requires Ok?
    {
      value
    }
  }

  /** How an `await apiCaller(...)` expression completes in a script: with a
      value (possibly `undefined`) or by throwing. */
  datatype Completion = Normal(value: JsValue) | Thrown(error: Error)

  /** A property key: `o.name` / `o["name"]`, or `o[i]`. */
  datatype Key = Named(name: string) | Indexed(index: nat)

  predicate Nullish(v: JsValue) {
    v.Undefined? || v.Null?
  }

  /** JavaScript truthiness: undefined, null, false, 0 and "" are falsy. */
  predicate Truthy(v: JsValue) {
    match v
    case Undefined => false
    case Null => false
    case Bool(b) => b
    case Num(n) => n != 0
    case Str(s) => s != ""
    case Arr(_) => true
    case Obj(_) => true
  }

  /** Reads `v[k]`. Reading any property of undefined or null throws a
      TypeError; a missing property reads as undefined. Indexing a string gives
      a one-character string. Other built-in members of primitives and arrays
      (such as `length`) are not modelled and read as undefined. */
  function Member(v: JsValue, k: Key): (r: Result<JsValue>)
    ensures r.Err? <==> Nullish(v)
    ensures r.Err? ==> r.error == TypeError
    ensures v.Obj? && k.Named? ==> r == Ok(if k.name in v.props then v.props[k.name] else Undefined)
    ensures v.Arr? && k.Indexed? ==> r == Ok(if k.index < |v.elems| then v.elems[k.index] else Undefined)
  {
    match v
    case Undefined => Err(TypeError)
    case Null => Err(TypeError)
    case Obj(props) =>
      var name := if k.Named? then k.name else NatText(k.index);
      Ok(if name in props then props[name] else Undefined)
    case Arr(elems) =>
      Ok(if k.Indexed? && k.index < |elems| then elems[k.index] else Undefined)
    case Str(s) =>
      Ok(if k.Indexed? && k.index < |s| then Str([s[k.index]]) else Undefined)
    case Bool(_) => Ok(Undefined)
    case Num(_) => Ok(Undefined)
  }

  /** `v.name` on a value known not to be undefined or null. */
  function Field(v: JsValue, name: string): JsValue
    requires !Nullish(v)
  {
    Member(v, Named(name)).value
  }

  /** The decimal digits of a natural number, most significant first. */
  function NatText(n: nat): (r: string)
    ensures |r| >= 1
    ensures forall i | 0 <= i < |r| :: '0' <= r[i] <= '9'
    ensures n >= 10 ==> r[0] != '0'
    decreases n
  {
    var digit := ['0' + (n % 10) as char];
    if n < 10 then digit else NatText(n / 10) + digit
  }

  /** The value of a string of decimal digits: the inverse of NatText. */
  function DigitsValue(s: string): int
    decreases |s|
  {
    if |s| == 0 then 0 else 10 * DigitsValue(s[..|s| - 1]) + (s[|s| - 1] as int - '0' as int)
  }

  lemma {:induction false} NatTextRoundTrip(n: nat)
    ensures DigitsValue(NatText(n)) == n
    decreases n
  {
    var r := NatText(n);
    if n >= 10 {
      NatTextRoundTrip(n / 10);
      assert r[..|r| - 1] == NatText(n / 10);
    }
  }

  /** `String(n)` for an integer. */
  function IntText(n: int): (r: string)
    ensures |r| >= 1
    ensures r[0] == '-' <==> n < 0
  {
    if n < 0 then "-" + NatText(-n) else NatText(n)
  }

  /** `String(v)`, as a template literal `${v}` computes it. An array is its
      elements joined with commas, with undefined and null elements empty. */
  function ToText(v: JsValue): (r: string)
    decreases v
  {
    match v
    case Undefined => "undefined"
    case Null => "null"
    case Bool(b) => if b then "true" else "false"
    case Num(n) => IntText(n)
    case Str(s) => s
    case Arr(elems) =>
      Text.Join(seq(|elems|, i requires 0 <= i < |elems| => if Nullish(elems[i]) then "" else ToText(elems[i])), ',')
    case Obj(_) => "[object Object]"
  }

  /** `v == s` with JavaScript's loose equality, for a string `s` that is not a
      numeral: strings compare by content, arrays and objects through their
      string conversion, and numbers, booleans, undefined and null never equal
      such a string. */
  predicate LooselyEqualsName(v: JsValue, s: string) {
    match v
    case Str(t) => t == s
    case Arr(_) => ToText(v) == s
    case Obj(_) => "[object Object]" == s
    case _ => false
  }

  /** `v == ""` with loose equality: "" and every value that converts to it,
      plus 0 and false, which convert to the number 0 as "" does. */
  predicate LooselyEqualsEmpty(v: JsValue) {
    match v
    case Str(s) => s == ""
    case Num(n) => n == 0
    case Bool(b) => !b
    case Arr(_) => ToText(v) == ""
    case _ => false
  }
}
