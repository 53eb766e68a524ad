/**
 * The slice of JavaScript the chat core relies on: the values a parsed JSON
 * request body can hold (plus `undefined` for a missing property), property
 * lookup, truthiness and `typeof`, `String.prototype.trim` and the `String()`
 * conversion.
 */
module JsValue {
  import opened Wrappers

  /** The only exception the modelled expressions can raise. */
  datatype JsError = TypeError

  /** A JavaScript number, represented by the text `String()` gives for it. */
  type NumberText = s: string | IsNumberText(s) witness "0"

  /**
   * What `String(n)` yields for a number is never blank: it is a decimal
   * literal, "NaN", "Infinity" or "-Infinity", none of which holds whitespace.
   * The exact formatting of floating-point numbers is not modelled.
   */
  predicate IsNumberText(s: string) {
    |s| > 0 && forall i :: 0 <= i < |s| ==> !IsWhitespace(s[i])
  }

  datatype Value =
    | Undefined
    | Null
    | Bool(b: bool)
    | Number(text: NumberText)
    | Str(s: string)
    | Array(elems: seq<Value>)
    | Object(props: map<string, Value>)

  /** `v.key` (and `v?.key`, which differs only on null and undefined). */
  function Get(v: Value, key: string): Value
  {
    if v.Object? && key in v.props then v.props[key] else Undefined
  }

  /** `typeof v` */
  function TypeOf(v: Value): string {
    match v
    case Undefined => "undefined"
    case Null => "object"
    case Bool(_) => "boolean"
    case Number(_) => "number"
    case Str(_) => "string"
    case Array(_) => "object"
    case Object(_) => "object"
  }

  /** `Boolean(v)`: false for undefined, null, false, 0, -0, NaN and "". */
  predicate Truthy(v: Value) {
    match v
    case Undefined => false
    case Null => false
    case Bool(b) => b
    case Number(t) => t != "0" && t != "NaN"
    case Str(s) => s != ""
    case Array(_) => true
    case Object(_) => true
  }

  /** `v ?? d`: only null and undefined are replaced. */
  function Coalesce(v: Value, d: Value): Value
  {
    if v.Undefined? || v.Null? then d else v
  }

  /** The guard `!v || typeof v !== 'object'` holds exactly for values that are not arrays or objects. */
  lemma NotObjectGuard(v: Value)
    ensures (!Truthy(v) || TypeOf(v) != "object") <==> !(v.Array? || v.Object?)
  {
  }

  // ---------------------------------------------------------------- trim

  /** The WhiteSpace and LineTerminator code points that `String.prototype.trim` strips. */
  predicate IsWhitespace(c: char) {
    c == '\t' || c == '\n' || c == '\U{000B}' || c == '\U{000C}' || c == '\r' || c == ' '
    || c == '\U{00A0}' || c == '\U{1680}' || ('\U{2000}' <= c <= '\U{200A}')
    || c == '\U{2028}' || c == '\U{2029}' || c == '\U{202F}' || c == '\U{205F}'
    || c == '\U{3000}' || c == '\U{FEFF}'
  }

  predicate AllWhitespace(s: string) {
    forall i :: 0 <= i < |s| ==> IsWhitespace(s[i])
  }

  /** Neither end of `s` is whitespace. */
  predicate Trimmed(s: string) {
    s == [] || (!IsWhitespace(s[0]) && !IsWhitespace(s[|s| - 1]))
  }

  function TrimStart(s: string): (r: string)
    ensures |r| <= |s| && r == s[|s| - |r|..]
    ensures AllWhitespace(s[..|s| - |r|])
    ensures r == [] || !IsWhitespace(r[0])
  {
    if s != [] && IsWhitespace(s[0]) then TrimStart(s[1..]) else s
  }

  function TrimEnd(s: string): (r: string)
    ensures |r| <= |s| && r == s[..|r|]
    ensures AllWhitespace(s[|r|..])
    ensures r == [] || !IsWhitespace(r[|r| - 1])
  {
    if s != [] && IsWhitespace(s[|s| - 1]) then TrimEnd(s[..|s| - 1]) else s
  }

  /** `s.trim()`: the longest substring of `s` with no whitespace at either end. */
  function Trim(s: string): (r: string)
    ensures |r| <= |s|
    ensures Trimmed(r)
    ensures r == "" <==> AllWhitespace(s)
  {
    var t := TrimStart(s);
    var r := TrimEnd(t);
    assert |r| == 0 ==> t[|r|..] == t;
    assert t != [] ==> !AllWhitespace(t);
    assert t != [] ==> t[0] == s[|s| - |t|];
    r
  }

  /**
   * The trimmed string is the input with its whitespace ends cut off: it is the
   * infix starting at `TrimOffset(s)`, and everything before and after it is whitespace.
   */
  lemma {:induction false} TrimIsInfix(s: string)
    ensures TrimOffset(s) + |Trim(s)| <= |s|
    ensures Trim(s) == s[TrimOffset(s)..TrimOffset(s) + |Trim(s)|]
    ensures AllWhitespace(s[..TrimOffset(s)]) && AllWhitespace(s[TrimOffset(s) + |Trim(s)|..])
  {
    var t := TrimStart(s);
    var r := TrimEnd(t);
    assert Trim(s) == r && TrimOffset(s) == |s| - |t|;
    SliceOfSuffix(s, t, r);
  }

  /** Slicing a prefix `r` out of a suffix `t` of `s` is slicing `s` itself. */
  lemma SliceOfSuffix(s: string, t: string, r: string)
    requires |t| <= |s| && t == s[|s| - |t|..]
    requires |r| <= |t| && r == t[..|r|]
    ensures r == s[|s| - |t|..|s| - |t| + |r|]
    ensures t[|r|..] == s[|s| - |t| + |r|..]
  {
  }

  /** The number of whitespace characters `trim` removes from the front. */
  function TrimOffset(s: string): nat
    ensures TrimOffset(s) <= |s|
  {
    |s| - |TrimStart(s)|
  }

  /** Trimming leaves a string that is already trimmed unchanged. */
  lemma TrimFixed(s: string)
    requires Trimmed(s)
    ensures Trim(s) == s
  {
  }

  lemma TrimIdempotent(s: string)
    ensures Trim(Trim(s)) == Trim(s)
  {
    TrimFixed(Trim(s));
  }

  // ------------------------------------------------------------ String()

  /**
   * `String(v)`. Arrays are joined with "," (null and undefined elements
   * becoming ""); a plain object gives "[object Object]". An object with an own
   * `toString` property (which JSON can create) throws: ordinary-to-primitive
   * conversion skips the non-callable `toString`, and the inherited `valueOf`
   * returns the object itself, not a primitive.
   */
  function ToString(v: Value): (r: Result<string, JsError>)
    decreases v, 1
    ensures v.Number? ==> r == Ok(v.text)
    ensures v.Str? ==> r == Ok(v.s)
    ensures v.Object? ==> (r.Err? <==> "toString" in v.props)
    ensures v.Object? && r.Ok? ==> r.value == "[object Object]"
    ensures r.Err? ==> v.Array? || v.Object?
  {
    match v
    case Undefined => Ok("undefined")
    case Null => Ok("null")
    case Bool(b) => Ok(if b then "true" else "false")
    case Number(t) => Ok(t)
    case Str(s) => Ok(s)
    case Array(es) => Join(es)
    case Object(p) => if "toString" in p then Err(TypeError) else Ok("[object Object]")
  }

  /** `es.join(",")` with `Array.prototype.join`'s rule for null and undefined. */
  function Join(es: seq<Value>): (r: Result<string, JsError>)
    decreases es, 0
    ensures r.Err? <==> exists i :: 0 <= i < |es| && ElementString(es[i]).Err?
  {
    if es == [] then Ok("")
    else
      var first :- ElementString(es[0]);
      if |es| == 1 then Ok(first)
      else
        var rest :- Join(es[1..]);
        Ok(first + "," + rest)
  }

  function ElementString(e: Value): (r: Result<string, JsError>)
    decreases e, 2
  {
    if e.Undefined? || e.Null? then Ok("") else ToString(e)
  }
}
