# NIT chat backend: message normalizer and `/chat` handlers

This project models the chat core of the NIT backend. That core is two Express
`/chat` POST handlers that pass a conversation to an LLM completion provider
after putting a fixed system persona in front of it.

- `src/routes/chatRoute.js` checks that `OPENAI_API_KEY` is set. It answers a
  provider failure with 500 and an error `detail`.
- `api/chat.js` has no key check. Its `try`/`catch` covers the whole handler,
  so every exception becomes a 200 answer with a canned reply.

Both files have their own `normalizeMessages`. It turns the untyped
`req.body.messages` into an ordered list of `{ role, content }` entries. The
two copies differ in how they read `role`.

Everything is pure. The model is made of datatypes, functions and lemmas:

- `Wrappers`: `Option` and `Result`. An exception is modelled as a `Result`
  error.
- `JsValue`: the JavaScript values a parsed JSON body can hold, plus
  `undefined` for a missing property. It also defines property lookup,
  `typeof`, truthiness, `??` and `String.prototype.trim` (it strips exactly
  the ECMAScript WhiteSpace and LineTerminator code points). Finally it defines
  `String()`: arrays are joined with `,`, and a plain object gives
  `[object Object]`. An object with its own `toString` property (JSON can
  create one) throws a TypeError. Ordinary-to-primitive conversion skips the
  non-callable `toString` and calls the inherited `valueOf`, which returns the
  object itself rather than a primitive. A number is represented by the text
  `String()` gives for it. That text is kept abstract, and all the model knows
  is that it is non-empty and has no whitespace.
- `Collect`: `xs.map(step).filter(Boolean)` as one generic function, with its
  lemmas:
  - it succeeds exactly when no step throws;
  - its output is an order-preserving subsequence of the mapped input;
  - it is congruent: steps that agree on every element give the same result.
- `Chat`: what the two files share:
  - the message record and its well-formedness;
  - the content coercion `typeof c === 'string' ? c.trim() : String(c ?? '').trim()`;
  - the abstract provider outcome;
  - the response shape;
  - the `content?.trim() || fallback` reply rule.
- `ChatRoute` (src/routes/chatRoute.js) and `ApiChat` (api/chat.js): each
  file's normalizer, its handler and the lemmas about them. `ApiChat` also
  holds the lemmas that compare the two files.

A handler is a function of three things:
1. whether the key is set (`ChatRoute` only);
2. the request body;
3. what the provider call does if it is made. This is `Completed` with an
   optional first-choice content, or `Failed` with the optional
   `error.response.data.error.message` and `error.message`.

It returns an `Outcome`: the JSON response (status and body) and the messages
sent to the provider, if the provider was called. In src/routes/chatRoute.js
the normalizer runs outside the `try`. So a `String()` TypeError there
rejects the handler's promise before any response is written. The model gives
`NoResponse` for this case. In api/chat.js the same exception is caught and
answered with the "temporary issue" reply.

The code does not flatten array or object content recursively. It
does not fall back to `message`/`prompt`/`text` body fields. It does not
answer 405 for other methods (only `router.post` is registered), and it does
not decode raw bodies.

## Model

| member | source | states |
|---|---|---|
| JsValue.NotObjectGuard | src/routes/chatRoute.js:25-27 | the guard `!message \|\| typeof message !== 'object'` holds exactly for values that are not arrays or objects |
| JsValue.Trim | src/routes/chatRoute.js:30-37 | the trimmed string is no longer than the input and has no whitespace at either end; it is empty exactly when the input is all whitespace |
| JsValue.TrimIsInfix | src/routes/chatRoute.js:30-37 | the trimmed string is the infix of the input that starts after the leading whitespace, and everything before and after it is whitespace |
| JsValue.TrimIdempotent | src/routes/chatRoute.js:36-37 | trimming twice is trimming once |
| JsValue.ToString | src/routes/chatRoute.js:37 | `String()` keeps strings and number texts; on an object it throws exactly when the object has an own `toString`, and otherwise gives "[object Object]"; only arrays and objects can throw |
| JsValue.Join | src/routes/chatRoute.js:37 | `String()` of an array throws exactly when one of its elements does |
| Collect.MapFilter | src/routes/chatRoute.js:23-45 | the map/filter chain never outputs more entries than it was given |
| Collect.MapFilterOkIff | src/routes/chatRoute.js:23-45 | the chain succeeds exactly when no step throws |
| Collect.MapFilterSubsequence | src/routes/chatRoute.js:23-45 | the output is an order-preserving subsequence: entry k is what element idx[k] mapped to, and every element not in idx mapped to nothing |
| Chat.CoerceContent | src/routes/chatRoute.js:34-37 | coerced content (`String(c ?? '')`, with `??` modelled by `JsValue.Coalesce`) is always trimmed; only array or object content can make the coercion throw |
| Chat.CoerceContentCases | src/routes/chatRoute.js:34-37 | strings are trimmed; null and undefined give ""; a number keeps its non-blank text and a boolean gives "true"/"false"; an object gives "[object Object]", or throws when it has an own `toString` |
| Chat.ReplyText | src/routes/chatRoute.js:78-80 | the reply is never empty: the trimmed content when that is non-empty, otherwise the fallback |
| ChatRoute.Role | src/routes/chatRoute.js:29-32 | the role is the trimmed string role when that is non-blank, otherwise "user"; it is never empty, always trimmed, and no value makes it fail |
| ChatRoute.Entry | src/routes/chatRoute.js:24-44 | `role` and `content` are read with property lookup (`JsValue.Get`: the own property, otherwise undefined); non-objects map to nothing; a step throws exactly when an object's content coercion throws; an entry is well-formed and built from the element's role and coerced content; an object is skipped only when its content coerces to "" |
| ChatRoute.NormalizeMessages | src/routes/chatRoute.js:18-46 | a `messages` that is not an array gives []; otherwise the output is at most as long as the input |
| ChatRoute.NormalizeSubsequence | src/routes/chatRoute.js:23-45 | each output entry comes, in order, from an object element of the input, with that element's role and non-empty coerced content; each skipped element is a non-object or has content that coerces to "" |
| ChatRoute.NormalizeWellFormed | src/routes/chatRoute.js:29-43 | every output entry has a non-empty role and non-empty content, each equal to its own trim |
| ChatRoute.NonObjectsDropped | src/routes/chatRoute.js:25-27 | a list of null, undefined and other non-object elements normalizes to [] |
| ChatRoute.NormalizeFailsIff | src/routes/chatRoute.js:29-37 | normalization throws exactly when some object element's content coercion throws, so roles never make it fail |
| ChatRoute.NullishDroppedFalsyKept | src/routes/chatRoute.js:34-41 | content 0 or false still yields an entry ("0", "false"); null or undefined content never does |
| ChatRoute.NormalizeEncoded | src/routes/chatRoute.js:29-43 | the JSON form of any list of well-formed entries normalizes back to exactly that list |
| ChatRoute.NormalizeIdempotent | src/routes/chatRoute.js:18-46 | normalizing an already normalized list returns it unchanged |
| ChatRoute.ErrorDetail | src/routes/chatRoute.js:84-87 | the detail is the first non-empty of the provider's data error message and the error message, else "Unknown error"; never empty |
| ChatRoute.Handle | src/routes/chatRoute.js:48-96 | with no key: 500 misconfiguration and no provider call, whatever the body. With a key: no response exactly when normalization throws; 400 exactly when the normalized list is empty. The provider is called exactly when that list is non-empty, and it is sent [persona] + list. A completed call answers 200 with the trimmed content or the canned refusal, and a 200 is only ever such an answer, so its reply is non-empty. A failed call gives 500 with the first-non-empty detail |
| ApiChat.Role | api/chat.js:30 | null and undefined give "user"; a string gives its trim, or "user" when blank; any other role throws; when it succeeds it agrees with the route's role |
| ApiChat.Entry | api/chat.js:28-36 | non-objects map to nothing; a step throws exactly when an object's role is not a string, null or undefined, or its content coercion throws; with an accepted role it is the route's step |
| ApiChat.NormalizeMessages | api/chat.js:25-38 | a `messages` that is not an array gives []; otherwise the output is at most as long as the input |
| ApiChat.NormalizeFailsIff | api/chat.js:28-37 | normalization throws exactly when some object element has a rejected role or content whose coercion throws |
| ApiChat.AgreesWithRoute | api/chat.js:25-38 | when every object element's role is a string, null or absent, this normalizer and the route's give the same result, failure included |
| ApiChat.OkAgreesWithRoute | api/chat.js:25-38 | whenever this normalizer succeeds, its result is the route's, so the route's subsequence and drop properties carry over |
| ApiChat.NormalizeWellFormed | api/chat.js:30-35 | every output entry has non-empty, trimmed role and content |
| ApiChat.NormalizeIdempotent | api/chat.js:27-37 | normalizing an already normalized list returns it unchanged |
| ApiChat.NumericRoleThrows | api/chat.js:30 | an object with a numeric role makes the step, and the whole normalization, throw |
| ApiChat.Handle | api/chat.js:41-72 | always a JSON `reply` that is non-empty. The status is 200, except 400 "Invalid request format." with no provider call exactly when the normalized list is empty. The provider is called exactly when that list is non-empty, and it is sent [SYSTEM_MESSAGE] + list. A thrown normalization or a failed call gives the canned "temporary issue" reply; a completed call gives the trimmed content or the health guideline |
| ApiChat.HandlersSendSameConversation | api/chat.js:51-55 | when this file's normalizer succeeds, both handlers (the route with its key set) call the provider in the same cases and send the same messages after their own system message |
| ApiChat.FailurePoliciesDiffer | api/chat.js:63-71 | on a failed provider call the route answers 500 with the error detail, while this handler answers 200 with the canned reply |

## Left out

- The OpenAI SDK. Client construction, the lazy `getClient` cache and the
  completion call are a foreign library. The call is an abstract
  `ProviderOutcome` input, and the model name and `temperature: 0.7` are not
  modelled.
- What the SDK does when api/chat.js builds its client at load time with no
  key. That is library behaviour, so `ApiChat.Handle` has no key input.
- A non-string `choices[0].message.content` whose `.trim` would throw inside
  the `try`. The provider outcome carries the content as an optional string.
- Non-string `error.message` fields. The failure fields are optional strings.
- What Express does with a handler promise that rejects. The model stops at
  `NoResponse`.
- Exact float-to-string formatting of `String(number)`. A number is
  represented by its text, which is only known to be non-blank and free of
  whitespace.
- JSON strings holding a lone surrogate (such as `"\ud800"`). A Dafny
  `string` holds Unicode scalar values only, so such a string has no model
  value. This does not affect `trim`, whose whitespace set lies in the
  Basic Multilingual Plane.
- Values outside JSON: functions, symbols and bigints cannot occur in a
  parsed JSON body. Property lookup does not walk the prototype chain, which
  holds no `messages`, `role` or `content`.
- Logging (`console.log`, `console.warn`, `console.error`) has no effect on
  the response.
- Express `req`/`res` objects. A response is the returned status and body.
- src/config/db.js (database connection caching) is not part of this model.
  Neither are src/controllers/infoController.js (static content),
  api/index.js and src/routes/index.js (app and router wiring).
