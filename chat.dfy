/**
 * What the two chat handlers share: the message record they send to the
 * completion provider, the content coercion both normalizers use, the
 * abstract provider outcome and the shape of a handler's answer.
 */
module Chat {
  import opened Wrappers
  import opened JsValue

  /** One `{ role, content }` entry of a normalized conversation. */
  datatype ChatMessage = ChatMessage(role: string, content: string)

  /** Both fields are non-empty and carry no surrounding whitespace. */
  predicate WellFormed(m: ChatMessage) {
    m.role != "" && Trimmed(m.role) && m.content != "" && Trimmed(m.content)
  }

  predicate AllWellFormed(ms: seq<ChatMessage>) {
    forall k :: 0 <= k < |ms| ==> WellFormed(ms[k])
  }

  /** The JSON form `{"role": ..., "content": ...}` a client would send for `m`. */
  function Encode(m: ChatMessage): (v: Value)
    ensures v.Object? && Get(v, "role") == Str(m.role) && Get(v, "content") == Str(m.content)
  {
    Object(map["role" := Str(m.role), "content" := Str(m.content)])
  }

  function EncodeAll(ms: seq<ChatMessage>): seq<Value>
  {
    seq(|ms|, k requires 0 <= k < |ms| => Encode(ms[k]))
  }

  /**
   * `typeof c === 'string' ? c.trim() : String(c ?? '').trim()`: the content
   * of an entry. Among non-string primitives only `null` and `undefined` become
   * empty, while `0` and `false` survive as "0" and "false"; an array can also
   * join to "".
   */
  function CoerceContent(c: Value): (r: Result<string, JsError>)
    ensures r.Ok? ==> Trimmed(r.value)
    ensures r.Err? ==> c.Array? || c.Object?
  {
    if c.Str? then Ok(Trim(c.s))
    else
      var s :- ToString(Coalesce(c, Str("")));
      Ok(Trim(s))
  }

  /**
   * What the coercion gives for each kind of value: among non-string
   * primitives only null and undefined become empty; a string is trimmed; a number
   * keeps its (never blank) text; a plain object gives "[object Object]"
   * and one with an own `toString` property throws.
   */
  lemma CoerceContentCases(c: Value)
    ensures c.Str? ==> CoerceContent(c) == Ok(Trim(c.s))
    ensures c.Undefined? || c.Null? ==> CoerceContent(c) == Ok("")
    ensures c.Number? ==> CoerceContent(c) == Ok(c.text) && c.text != ""
    ensures c.Bool? ==> CoerceContent(c) == Ok(if c.b then "true" else "false")
    ensures c.Object? ==> CoerceContent(c) == if "toString" in c.props then Err(TypeError) else Ok("[object Object]")
  {
    var s := ToString(Coalesce(c, Str("")));
    match c
    case Number(t) =>
      assert s == Ok(t);
      TrimFixed(t);
    case Bool(b) =>
      assert s == Ok(if b then "true" else "false");
      TrimFixed(s.value);
    case Object(p) =>
      assert "toString" !in p ==> s == Ok("[object Object]");
      TrimFixed("[object Object]");
    case _ =>
  }

  /** What the provider call did, as far as the handlers look at it. */
  datatype ProviderOutcome =
      /** The call returned; `content` is `choices[0].message.content`, if present. */
    | Completed(content: Option<string>)
      /** The call threw; the fields are `error.response.data.error.message` and `error.message`, if present. */
    | Failed(dataErrorMessage: Option<string>, message: Option<string>)

  /** A JSON response body. */
  datatype Body =
    | Reply(reply: string)
    | Notice(message: string)
    | Failure(message: string, detail: string)

  datatype Response =
    | Json(status: int, body: Body)
      /** The handler threw before answering; its promise rejects and no body is written by it. */
    | NoResponse

  /** What the handler answered, and the messages it sent to the provider, if it called it. */
  datatype Outcome = Outcome(response: Response, sent: Option<seq<ChatMessage>>)

  /** `a || d` for a value that is a string or missing. */
  function OrElse(a: Option<string>, d: string): string
  {
    if a.Some? && a.value != "" then a.value else d
  }

  /** `content?.trim() || fallback`: never empty. */
  function ReplyText(content: Option<string>, fallback: string): (r: string)
    requires fallback != ""
    ensures r != ""
    ensures content.Some? && Trim(content.value) != "" ==> r == Trim(content.value)
    ensures content.None? || AllWhitespace(content.value) ==> r == fallback
  {
    OrElse(if content.Some? then Some(Trim(content.value)) else None, fallback)
  }
}
