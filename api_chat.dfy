/**
 * The serverless `/chat` route: the same normalizer except for the role,
 * and a handler with no API-key check that turns every exception, including
 * a failed provider call, into a 200 answer with a canned reply.
 */
module ApiChat {
  import opened Wrappers
  import opened JsValue
  import opened Collect
  import opened Chat
  import ChatRoute

  /** `SYSTEM_MESSAGE`: a template literal, sent as written, surrounding newlines included. */
  const SystemMessage := ChatMessage("system", "\nYou are a Natural Immunotherapy (NIT) expert assistant for Subhankar Sarkar.\nNatural Immunotherapy focuses on restoring immune balance through nutrition, detoxification, cellular repair, and natural boosters.\nAlways answer clearly and practically about how NIT addresses the user's concern.\nOnly refuse questions that are *not* health-related (politics, sports, etc.) by saying:\n\"Please ask me only health-related questions about your body, immunity, or recovery.\"\nKeep responses positive, educational, and rooted in NIT principles.\n  ")

  const InvalidFormatReply := "Invalid request format."
  /** The reply used when the provider's first choice has no usable content. */
  const GuidelineReply := "Your question seems health-related. Focus on detoxification, hydration, balanced vitamins, and proper cellular nutrition through Natural Immunotherapy."
  /** The reply for any exception caught by the handler. */
  const TemporaryIssueReply := "There seems to be a temporary issue processing your query. But here\U{2019}s a general NIT guideline: detoxify, hydrate, and restore immune balance with vitamins and minerals."

  /** A role `item.role?.trim()` can be evaluated on: a string, null or undefined. */
  predicate RoleAccepted(v: Value) {
    v.Str? || v.Null? || v.Undefined?
  }

  /**
   * `item.role?.trim() || "user"`. Null and undefined short-circuit to "user";
   * on any other non-string (a number, a boolean, an array, an object, even one
   * with its own `trim` property) `trim` is not a callable and the call throws.
   */
  function Role(v: Value): (r: Result<string, JsError>)
    ensures r.Err? <==> !RoleAccepted(v)
    ensures r.Ok? ==> r.value == ChatRoute.Role(v)
  {
    match v
    case Undefined => Ok("user")
    case Null => Ok("user")
    case Str(s) => Ok(if Trim(s) != "" then Trim(s) else "user")
    case _ => Err(TypeError)
  }

  /** One step of the `map`: the role is evaluated before the content. */
  function Entry(item: Value): (r: Result<Option<ChatMessage>, JsError>)
    ensures !(item.Array? || item.Object?) ==> r == Ok(None)
    ensures r.Err? <==>
      (item.Array? || item.Object?) && (!RoleAccepted(Get(item, "role")) || CoerceContent(Get(item, "content")).Err?)
    ensures (item.Array? || item.Object?) ==> RoleAccepted(Get(item, "role")) ==> r == ChatRoute.Entry(item)
  {
    NotObjectGuard(item);
    if !Truthy(item) || TypeOf(item) != "object" then Ok(None)
    else
      var role :- Role(Get(item, "role"));
      var content :- CoerceContent(Get(item, "content"));
      if content != "" then Ok(Some(ChatMessage(role, content))) else Ok(None)
  }

  /** `normalizeMessages(messages)`: anything but an array gives the empty list. */
  function NormalizeMessages(messages: Value): (r: Result<seq<ChatMessage>, JsError>)
    ensures !messages.Array? ==> r == Ok([])
    ensures messages.Array? && r.Ok? ==> |r.value| <= |messages.elems|
  {
    if !messages.Array? then Ok([]) else MapFilter(messages.elems, Entry)
  }

  /** No object element has a role that makes `trim` throw. */
  predicate RolesAccepted(es: seq<Value>) {
    forall i :: 0 <= i < |es| ==> (es[i].Array? || es[i].Object?) ==> RoleAccepted(Get(es[i], "role"))
  }

  // ------------------------------------------------------- normalizer facts

  /** When every role is a string, null or absent, both normalizers give the same result, failure included. */
  lemma AgreesWithRoute(messages: Value)
    requires messages.Array? ==> RolesAccepted(messages.elems)
    ensures NormalizeMessages(messages) == ChatRoute.NormalizeMessages(messages)
  {
    if messages.Array? {
      MapFilterCongruent(messages.elems, Entry, ChatRoute.Entry);
    }
  }

  /**
   * Normalization throws exactly when some object element has a role that is
   * not a string, null or undefined, or content whose `String()` throws.
   */
  lemma NormalizeFailsIff(es: seq<Value>)
    ensures NormalizeMessages(Array(es)).Err? <==>
      exists i :: 0 <= i < |es| && (es[i].Array? || es[i].Object?) &&
        (!RoleAccepted(Get(es[i], "role")) || CoerceContent(Get(es[i], "content")).Err?)
  {
    MapFilterOkIff(es, Entry);
    assert (exists i :: 0 <= i < |es| && Entry(es[i]).Err?) <==>
      exists i :: 0 <= i < |es| && (es[i].Array? || es[i].Object?) &&
        (!RoleAccepted(Get(es[i], "role")) || CoerceContent(Get(es[i], "content")).Err?);
  }

  /**
   * Whenever this normalizer succeeds it agrees with the route's, so every
   * property proved there (order-preserving subsequence, well-formed entries,
   * non-objects dropped) holds here too.
   */
  lemma OkAgreesWithRoute(messages: Value)
    requires NormalizeMessages(messages).Ok?
    ensures NormalizeMessages(messages) == ChatRoute.NormalizeMessages(messages)
  {
    if messages.Array? {
      NormalizeFailsIff(messages.elems);
      AgreesWithRoute(messages);
    }
  }

  /** Every entry of a successful normalization has non-empty, trimmed role and content. */
  lemma NormalizeWellFormed(messages: Value, out: seq<ChatMessage>)
    requires NormalizeMessages(messages) == Ok(out)
    ensures AllWellFormed(out)
  {
    OkAgreesWithRoute(messages);
    ChatRoute.NormalizeWellFormed(messages, out);
  }

  /** Normalizing an already normalized list returns it unchanged. */
  lemma NormalizeIdempotent(messages: Value, out: seq<ChatMessage>)
    requires NormalizeMessages(messages) == Ok(out)
    ensures NormalizeMessages(Array(EncodeAll(out))) == Ok(out)
  {
    NormalizeWellFormed(messages, out);
    var encoded := Array(EncodeAll(out));
    assert RolesAccepted(encoded.elems);
    AgreesWithRoute(encoded);
    ChatRoute.NormalizeEncoded(out);
  }

  /** A numeric role makes an otherwise valid entry throw. */
  lemma NumericRoleThrows(item: Value)
    requires item.Object? && Get(item, "role").Number?
    ensures Entry(item) == Err(TypeError)
    ensures NormalizeMessages(Array([item])).Err?
  {
  }

  // ---------------------------------------------------------------- handler

  /**
   * The POST `/chat` handler, from the parsed request body and what the
   * provider call does if it is made. It answers 400 only for an empty
   * normalized list and 200 otherwise, always with a non-empty reply.
   */
  function Handle(body: Value, provider: ProviderOutcome): (o: Outcome)
    ensures o.response.Json? && o.response.body.Reply? && o.response.body.reply != ""
    ensures o.response.status == 200 || o.response.status == 400
    ensures o.response.status == 400 <==> NormalizeMessages(Get(body, "messages")) == Ok([])
    ensures o.response.status == 400 ==> o == Outcome(Json(400, Reply(InvalidFormatReply)), None)
    ensures o.sent.Some? <==> NormalizeMessages(Get(body, "messages")).Ok? && NormalizeMessages(Get(body, "messages")).value != []
    ensures o.sent.Some? ==> o.sent.value == [SystemMessage] + NormalizeMessages(Get(body, "messages")).value
    ensures NormalizeMessages(Get(body, "messages")).Err? ==> o == Outcome(Json(200, Reply(TemporaryIssueReply)), None)
    ensures o.sent.Some? && provider.Failed? ==> o.response == Json(200, Reply(TemporaryIssueReply))
    ensures o.sent.Some? && provider.Completed? ==> o.response == Json(200, Reply(ReplyText(provider.content, GuidelineReply)))
  {
    match NormalizeMessages(Get(body, "messages"))
    case Err(_) => Outcome(Json(200, Reply(TemporaryIssueReply)), None)
    case Ok(messages) =>
      if |messages| == 0 then Outcome(Json(400, Reply(InvalidFormatReply)), None)
      else
        var sent := [SystemMessage] + messages;
        match provider
        case Completed(content) => Outcome(Json(200, Reply(ReplyText(content, GuidelineReply))), Some(sent))
        case Failed(_, _) => Outcome(Json(200, Reply(TemporaryIssueReply)), Some(sent))
  }

  /**
   * With the key set and a body this route normalizes without throwing, both
   * handlers call the provider in the same cases and send it the same
   * conversation after their own system message.
   */
  lemma HandlersSendSameConversation(body: Value, provider: ProviderOutcome)
    requires NormalizeMessages(Get(body, "messages")).Ok?
    ensures Handle(body, provider).sent.Some? <==> ChatRoute.Handle(true, body, provider).sent.Some?
    ensures Handle(body, provider).sent.Some? ==>
      Handle(body, provider).sent.value[1..] == ChatRoute.Handle(true, body, provider).sent.value[1..]
  {
    OkAgreesWithRoute(Get(body, "messages"));
  }

  /** A provider failure is a 500 with a detail in the route and a canned 200 here. */
  lemma FailurePoliciesDiffer(body: Value, dataErrorMessage: Option<string>, message: Option<string>)
    requires NormalizeMessages(Get(body, "messages")).Ok? && NormalizeMessages(Get(body, "messages")).value != []
    ensures Handle(body, Failed(dataErrorMessage, message)).response == Json(200, Reply(TemporaryIssueReply))
    ensures ChatRoute.Handle(true, body, Failed(dataErrorMessage, message)).response ==
      Json(500, Failure(ChatRoute.FailureMessage, ChatRoute.ErrorDetail(dataErrorMessage, message)))
  {
    OkAgreesWithRoute(Get(body, "messages"));
  }
}
