/**
 * The Express `/chat` route: its message normalizer and the POST handler,
 * which checks the API key first and answers a provider failure with 500
 * and an error detail.
 */
module ChatRoute {
  import opened Wrappers
  import opened JsValue
  import opened Collect
  import opened Chat

  /** The system persona prepended to every conversation sent to the provider. */
  const Persona := ChatMessage("system", "You are a Natural Immunotherapy (NIT) expert assistant for Subhankar Sarkar. Natural Immunotherapy is a holistic health system focused on restoring immune balance through nutrition, detoxification, cellular repair, and natural boosters; this topic is always health-related. Always provide clear, practical guidance on how Natural Immunotherapy addresses the user\U{2019}s concern. You must answer any question related to diseases, immunity, recovery, vitamins, minerals, detoxification, enzymes, boosters, chronic conditions (such as cancer, thalassemia, CKD), nutrition, or health improvement. Only refuse questions that are clearly outside health, wellness, or the human body (e.g., politics, technology, sports). When refusing, reply: \"Please ask me only health-related questions about your body, immunity, or recovery.\" Never refuse to discuss Natural Immunotherapy itself and always explain its natural protocols, nutrients, or detox strategies that apply to the situation. Maintain an encouraging, educational tone grounded in Natural Immunotherapy principles.")

  /** The reply used when the provider's first choice has no usable content. */
  const Refusal := "Please ask me only health-related questions about your body, immunity, or recovery."
  const MisconfigurationMessage := "Server misconfiguration: missing OpenAI API key."
  const InvalidBodyMessage := "Invalid request body: expected messages array with content."
  const FailureMessage := "Unable to process the chat request at this time."
  const UnknownError := "Unknown error"

  /** The role of an entry: a string role trimmed when that leaves something, else "user". No value makes it fail. */
  function Role(v: Value): (r: string)
    ensures r != "" && Trimmed(r)
    ensures v.Str? && Trim(v.s) != "" ==> r == Trim(v.s)
    ensures !(v.Str? && Trim(v.s) != "") ==> r == "user"
  {
    if v.Str? && Trim(v.s) != "" then Trim(v.s) else "user"
  }

  /** One step of the `map`: an entry, nothing (`null`), or the exception `String()` raised. */
  function Entry(item: Value): (r: Result<Option<ChatMessage>, JsError>)
    ensures !(item.Array? || item.Object?) ==> r == Ok(None)
    ensures r.Err? <==> (item.Array? || item.Object?) && CoerceContent(Get(item, "content")).Err?
    ensures r.Ok? && r.value.Some? ==>
      (item.Array? || item.Object?) && WellFormed(r.value.value)
      && r.value.value == ChatMessage(Role(Get(item, "role")), CoerceContent(Get(item, "content")).value)
    ensures r.Ok? && r.value.None? && (item.Array? || item.Object?) ==> CoerceContent(Get(item, "content")) == Ok("")
  {
    NotObjectGuard(item);
    if !Truthy(item) || TypeOf(item) != "object" then Ok(None)
    else
      var role := Role(Get(item, "role"));
      var content :- CoerceContent(Get(item, "content"));
      if content == "" then Ok(None) else Ok(Some(ChatMessage(role, content)))
  }

  /** `normalizeMessages(messages)`: anything but an array gives the empty list. */
  function NormalizeMessages(messages: Value): (r: Result<seq<ChatMessage>, JsError>)
    ensures !messages.Array? ==> r == Ok([])
    ensures messages.Array? && r.Ok? ==> |r.value| <= |messages.elems|
  {
    if !messages.Array? then Ok([]) else MapFilter(messages.elems, Entry)
  }

  // ------------------------------------------------------- normalizer facts

  /**
   * Entry `k` of the output came from element `idx[k]` of the input, in order;
   * that element is an object, its role coerced by `Role` and its non-empty
   * content by `String()` and trim. Every element left out is a non-object or
   * an object whose coerced content is empty.
   */
  lemma NormalizeSubsequence(es: seq<Value>, out: seq<ChatMessage>) returns (idx: seq<nat>)
    requires NormalizeMessages(Array(es)) == Ok(out)
    ensures |idx| == |out| && StrictlyIncreasing(idx)
    ensures forall k :: 0 <= k < |idx| ==>
      idx[k] < |es| && (es[idx[k]].Array? || es[idx[k]].Object?)
      && out[k].role == Role(Get(es[idx[k]], "role"))
      && CoerceContent(Get(es[idx[k]], "content")) == Ok(out[k].content) && out[k].content != ""
    ensures forall i :: 0 <= i < |es| && i !in idx ==>
      !(es[i].Array? || es[i].Object?) || CoerceContent(Get(es[i], "content")) == Ok("")
  {
    idx := MapFilterSubsequence(es, Entry, out);
    forall k | 0 <= k < |idx| ensures Entry(es[idx[k]]) == Ok(Some(out[k])) { }
  }

  /** Every normalized entry has a non-empty role and content, each equal to its own trim. */
  lemma NormalizeWellFormed(messages: Value, out: seq<ChatMessage>)
    requires NormalizeMessages(messages) == Ok(out)
    ensures AllWellFormed(out)
  {
    if messages.Array? {
      var idx := MapFilterSubsequence(messages.elems, Entry, out);
      forall k | 0 <= k < |out| ensures WellFormed(out[k]) {
        assert Entry(messages.elems[idx[k]]) == Ok(Some(out[k]));
      }
    }
  }

  /** A list of null, undefined and other non-object elements normalizes to nothing. */
  lemma NonObjectsDropped(es: seq<Value>)
    requires forall i :: 0 <= i < |es| ==> !(es[i].Array? || es[i].Object?)
    ensures NormalizeMessages(Array(es)) == Ok([])
  {
    MapFilterNothing(es, Entry);
  }

  /**
   * Normalization throws exactly when some object element's content is an
   * object with an own `toString` property, or an array that holds one at some
   * depth of nested arrays; roles never make it fail.
   */
  lemma NormalizeFailsIff(es: seq<Value>)
    ensures NormalizeMessages(Array(es)).Err? <==>
      exists i :: 0 <= i < |es| && (es[i].Array? || es[i].Object?) && CoerceContent(Get(es[i], "content")).Err?
  {
    MapFilterOkIff(es, Entry);
    assert (exists i :: 0 <= i < |es| && Entry(es[i]).Err?) <==>
      exists i :: 0 <= i < |es| && (es[i].Array? || es[i].Object?) && CoerceContent(Get(es[i], "content")).Err?;
  }

  /** The JSON form of a list of well-formed entries normalizes back to that list. */
  lemma NormalizeEncoded(ms: seq<ChatMessage>)
    requires AllWellFormed(ms)
    ensures NormalizeMessages(Array(EncodeAll(ms))) == Ok(ms)
  {
    MapFilterEncoded(ms);
  }

  lemma {:induction false} MapFilterEncoded(ms: seq<ChatMessage>)
    requires AllWellFormed(ms)
    ensures MapFilter(EncodeAll(ms), Entry) == Ok(ms)
  {
    if ms != [] {
      var m, vs, rest := ms[0], EncodeAll(ms), ms[1..];
      EntryOfEncoded(m);
      assert vs[0] == Encode(m) && vs[1..] == EncodeAll(rest);
      assert forall k :: 0 <= k < |rest| ==> rest[k] == ms[k + 1];
      MapFilterEncoded(rest);
      MapFilterCons(vs, Entry, Some(m), rest);
      assert ms == [m] + rest;
    }
  }

  /** The JSON form of one well-formed entry maps back to that entry. */
  lemma EntryOfEncoded(m: ChatMessage)
    requires WellFormed(m)
    ensures Entry(Encode(m)) == Ok(Some(m))
  {
    TrimFixed(m.role);
    TrimFixed(m.content);
    CoerceContentCases(Str(m.content));
    EntryOfObject(Encode(m), m.content);
  }

  /** Normalizing an already normalized list returns it unchanged. */
  lemma NormalizeIdempotent(messages: Value, out: seq<ChatMessage>)
    requires NormalizeMessages(messages) == Ok(out)
    ensures NormalizeMessages(Array(EncodeAll(out))) == Ok(out)
  {
    NormalizeWellFormed(messages, out);
    NormalizeEncoded(out);
  }

  /**
   * `??` replaces only null and undefined: an object whose content is a number
   * or a boolean always yields an entry ("0", "false", ...), while null or
   * undefined content never does.
   */
  lemma NullishDroppedFalsyKept(item: Value)
    requires item.Object?
    ensures Get(item, "content").Number? ==>
      Entry(item) == Ok(Some(ChatMessage(Role(Get(item, "role")), Get(item, "content").text)))
    ensures Get(item, "content").Bool? ==>
      Entry(item) == Ok(Some(ChatMessage(Role(Get(item, "role")), if Get(item, "content").b then "true" else "false")))
    ensures Get(item, "content").Null? || Get(item, "content").Undefined? ==> Entry(item) == Ok(None)
  {
    var c := Get(item, "content");
    CoerceContentCases(c);
    if c.Number? {
      EntryOfObject(item, c.text);
    } else if c.Bool? {
      EntryOfObject(item, if c.b then "true" else "false");
    } else if c.Null? || c.Undefined? {
      EntryOfObject(item, "");
    }
  }

  /** The step on an object whose content coerces to `text` without throwing. */
  lemma EntryOfObject(item: Value, text: string)
    requires item.Object? && CoerceContent(Get(item, "content")) == Ok(text)
    ensures Entry(item) == if text == "" then Ok(None) else Ok(Some(ChatMessage(Role(Get(item, "role")), text)))
  {
  }

  // ---------------------------------------------------------------- handler

  /** `error?.response?.data?.error?.message || error?.message || 'Unknown error'` */
  function ErrorDetail(dataErrorMessage: Option<string>, message: Option<string>): (r: string)
    ensures r != ""
    ensures dataErrorMessage.Some? && dataErrorMessage.value != "" ==> r == dataErrorMessage.value
    ensures (dataErrorMessage.None? || dataErrorMessage.value == "") && message.Some? && message.value != "" ==> r == message.value
    ensures (dataErrorMessage.None? || dataErrorMessage.value == "") && (message.None? || message.value == "") ==> r == UnknownError
  {
    OrElse(dataErrorMessage, OrElse(message, UnknownError))
  }

  /**
   * The POST `/chat` handler, from whether `OPENAI_API_KEY` is set, the parsed
   * request body and what the provider call does if it is made.
   */
  function Handle(hasApiKey: bool, body: Value, provider: ProviderOutcome): (o: Outcome)
    ensures !hasApiKey ==> o == Outcome(Json(500, Notice(MisconfigurationMessage)), None)
    ensures o.response.NoResponse? <==> hasApiKey && NormalizeMessages(Get(body, "messages")).Err?
    ensures o.response.Json? ==> o.response.status in {200, 400, 500}
    ensures o.response == Json(400, Notice(InvalidBodyMessage)) <==> hasApiKey && NormalizeMessages(Get(body, "messages")) == Ok([])
    ensures o.sent.Some? <==> hasApiKey && NormalizeMessages(Get(body, "messages")).Ok? && NormalizeMessages(Get(body, "messages")).value != []
    ensures o.sent.Some? ==> o.sent.value == [Persona] + NormalizeMessages(Get(body, "messages")).value
    ensures o.response.Json? && o.response.status == 200 ==>
      o.sent.Some? && provider.Completed? && o.response.body == Reply(ReplyText(provider.content, Refusal))
    ensures o.response.Json? && o.response.body.Reply? ==> o.response.body.reply != ""
    ensures o.sent.Some? && provider.Completed? ==>
      o.response == Json(200, Reply(ReplyText(provider.content, Refusal)))
    ensures o.sent.Some? && provider.Failed? ==>
      o.response == Json(500, Failure(FailureMessage, ErrorDetail(provider.dataErrorMessage, provider.message)))
  {
    if !hasApiKey then Outcome(Json(500, Notice(MisconfigurationMessage)), None)
    else
      match NormalizeMessages(Get(body, "messages"))
      case Err(_) => Outcome(NoResponse, None)
      case Ok(sanitized) =>
        if |sanitized| == 0 then Outcome(Json(400, Notice(InvalidBodyMessage)), None)
        else
          var sent := [Persona] + sanitized;
          match provider
          case Completed(content) => Outcome(Json(200, Reply(ReplyText(content, Refusal))), Some(sent))
          case Failed(dataErrorMessage, message) =>
            Outcome(Json(500, Failure(FailureMessage, ErrorDetail(dataErrorMessage, message))), Some(sent))
  }
}
