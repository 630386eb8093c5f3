/**
 * The part of JavaScript's value semantics that the result extractor of
 * app.js relies on: the values `JSON.parse` can produce, property reads,
 * truthiness (what `||` and `if` test), and string conversion (what
 * `innerText = v` and a template literal `${v}` do).
 */
module Js {
  import opened Wrappers

  /** A value produced by `JSON.parse`. Numbers are the parsed numbers that
      are finite reals (a literal out of range, such as `1e400`, parses to
      `Infinity` and is not represented); objects are their own properties. */
  datatype Json =
    | Null
    | Bool(b: bool)
    | Num(n: real)
    | Str(s: string)
    | Arr(items: seq<Json>)
    | Obj(fields: map<string, Json>)

  /** A JavaScript value read from a parsed document: a JSON value, or
      `undefined` for a property that is not there. */
  datatype Value = Undefined | Of(json: Json)

  /** The host functions the extractor calls and this model does not
      reimplement: `JSON.parse` (None when it throws a SyntaxError) and the
      conversion of a number to its decimal text. */
  datatype Host = Host(parse: string -> Option<Json>, numberText: real -> string)

  /** Reading `v.key` of a value that is not null. No key read by app.js
      (category, name, count, near_matches, damaged, conf) is inherited from
      a prototype, so only an object's own properties are ever found. */
  function Member(v: Json, key: string): (r: Value)
    requires !v.Null?
  {
    match v
    case Obj(fields) => if key in fields then Of(fields[key]) else Undefined
    case _ => Undefined
  }

  /** JavaScript truthiness; a parsed number is never NaN, so zero is the
      only falsy number. */
  predicate Truthy(v: Value) {
    match v
    case Undefined => false
    case Of(j) =>
      match j
      case Null => false
      case Bool(b) => b
      case Num(n) => n != 0.0
      case Str(s) => s != ""
      case Arr(_) => true
      case Obj(_) => true
  }

  /** String conversion of a JSON value; None is the TypeError thrown when an
      object has an own `toString` property (JSON cannot make it callable, and
      the inherited `valueOf` returns the object itself). An array converts
      by joining its elements with commas, null elements giving "". */
  function JsonText(j: Json, nt: real -> string): Option<string>
  {
    match j
    case Null => Some("null")
    case Bool(b) => Some(if b then "true" else "false")
    case Num(n) => Some(nt(n))
    case Str(s) => Some(s)
    case Arr(items) =>
      JoinComma(seq(|items|, i requires 0 <= i < |items| =>
        if items[i].Null? then Some("") else JsonText(items[i], nt)))
    case Obj(fields) => if "toString" in fields then None else Some("[object Object]")
  }

  /** `Array.prototype.join(",")` over converted elements; a conversion that
      throws makes the join throw. */
  function JoinComma(parts: seq<Option<string>>): (r: Option<string>)
    ensures r.Some? <==> forall i :: 0 <= i < |parts| ==> parts[i].Some?
  {
    if |parts| == 0 then Some("")
    else if |parts| == 1 then parts[0]
    else
      match (parts[0], JoinComma(parts[1..]))
      case (Some(a), Some(b)) => Some(a + "," + b)
      case _ => None
  }

  /** String conversion of any value read from a parsed document. */
  function ValueText(v: Value, nt: real -> string): Option<string>
  {
    match v
    case Undefined => Some("undefined")
    case Of(j) => JsonText(j, nt)
  }

  /** `String(v || fallback)`: the value itself when truthy, else the fallback
      text; None when converting the truthy value throws. */
  function OrText(v: Value, fallback: string, nt: real -> string): Option<string>
  {
    if Truthy(v) then ValueText(v, nt) else Some(fallback)
  }

  /** A falsy value always shows the fallback, and a truthy one shows its own
      text, the fallback being unused. */
  lemma OrTextCases(v: Value, fallback: string, nt: real -> string)
    ensures !Truthy(v) ==> OrText(v, fallback, nt) == Some(fallback)
    ensures Truthy(v) ==> OrText(v, fallback, nt) == ValueText(v, nt)
    ensures v.Of? && v.json.Str? && v.json.s != "" ==> OrText(v, fallback, nt) == Some(v.json.s)
  {
  }

  /** Zero is falsy: a parsed 0 (or -0) shows the fallback, not "0". */
  lemma ZeroShowsFallback(fallback: string, nt: real -> string)
    ensures OrText(Of(Num(0.0)), fallback, nt) == Some(fallback)
    ensures OrText(Of(Str("")), fallback, nt) == Some(fallback)
    ensures OrText(Of(Null), fallback, nt) == Some(fallback)
    ensures OrText(Undefined, fallback, nt) == Some(fallback)
  {
  }

  /** Conversion throws exactly for values that contain, outside a null
      slot, an object with an own `toString`. */
  predicate Printable(j: Json) {
    match j
    case Arr(items) => forall i :: 0 <= i < |items| ==> Printable(items[i])
    case Obj(fields) => "toString" !in fields
    case _ => true
  }

  lemma {:induction false} JsonTextDefinedIffPrintable(j: Json, nt: real -> string)
    ensures JsonText(j, nt).Some? <==> Printable(j)
    decreases j
  {
    match j
    case Arr(items) =>
      var parts := seq(|items|, i requires 0 <= i < |items| =>
        if items[i].Null? then Some("") else JsonText(items[i], nt));
      assert JsonText(j, nt) == JoinComma(parts);
      forall i | 0 <= i < |items|
        ensures parts[i].Some? <==> Printable(items[i])
      {
        JsonTextDefinedIffPrintable(items[i], nt);
      }
    case _ =>
  }
}
