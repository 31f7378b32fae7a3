# openai-relay: a verified model of the request-decision logic

The relay (`chuyenvung/sever.mjs`) is a small Express server. It sits between a
browser front end and an upstream chat-completion API. It holds the upstream API key
itself, so the key never has to reach the browser. Every request first passes a CORS
middleware. The two protected routes, `POST /api/ai-faq` and `POST /api/chat`, then
check a shared relay key (`X-Relay-Key`) and build the upstream payload. They make one
upstream call and map its status and body back to the caller.

This project models that logic in Dafny:

- **Configuration** (`config.dfy`, `origins.dfy`). `OPENAI_API_KEY`, `RELAY_KEY`,
  `MODEL_DEFAULT` and `ALLOWED_ORIGINS` are read from an environment map.
  `ALLOWED_ORIGINS` is split on commas, each piece is trimmed with JavaScript's
  whitespace set, and empty pieces are dropped. An unset or empty setting means `"*"`.
- **Origin guard** (`origins.dfy`, `cors.dfy`). `isAllowedOrigin` is a pure test on
  the parsed list. The middleware's decision is modelled as pure functions: the five
  CORS headers, the preflight answer (204/403), and the 403 for a real request from a
  declared origin that is not allowed. The middleware itself is an
  imperative method on the Express response object (`http.dfy`, class `Response`).
- **Auth gate** (`auth.dfy`). `ensureAuth` becomes a pure verdict with the three
  ordered checks (500, 401, 500) and an imperative method that writes the response.
- **Request shaper** (`shaper.dfy`). The chat payload applies destructuring defaults
  (only for `undefined`) and five conditional spreads. The FAQ payload is a fixed
  two-message conversation with `||` defaults (for any falsy value). JavaScript values
  are the datatype `Js.Value`, which includes `undefined`. A payload is a key-to-value map.
- **Response translator** (`translator.dfy`). An upstream 2xx becomes 200 and any
  other status passes through. An unparseable body is wrapped as `{raw}`. A thrown
  error becomes 500 `{error}`.
- **Pipeline** (`relay.dfy`). The two handlers are methods on `Response`. `Relay` is
  a pure function giving the whole outcome: status, headers, body, what was sent
  upstream, and whether the request was answered. `Serve` runs the middleware and the
  handler and is proved to produce exactly that outcome.

The upstream endpoint is a parameter of type `Outbound -> Reply`. A reply is either
`Answered(status, text)` or `Failed(message)`, where `Failed` covers a timer abort and
a network error. `JSON.parse` is a parameter of type `string -> Option<Value>`.

Where the code differs from what the relay's design promises, the model follows the code:

- An upstream 2xx status is answered as 200, not passed through verbatim.
- A local failure is always 500. There is no 502.
- A missing Origin header under a fixed list fails preflight (403) but lets a real
  request through to the routes.
- Under a wildcard list, `Access-Control-Allow-Origin` is `*`, never the echoed origin.
  `Vary: Origin` is set on every response the middleware sees. A request whose body
  `express.json` rejects is answered by Express before the middleware runs (see "## Left out").
- The FAQ route defaults `question` and `model` when they are falsy, not only when absent.
- The chat route defaults `messages` to `[]` instead of requiring it.
- A preflight is answered with Express's `res.sendStatus`. With 204 this sends no body.
  With 403 it sends the reason phrase `Forbidden` as plain text, not an empty body.
  The model writes exactly that.

## Model

| member | source | states |
|---|---|---|
| `Config.LoadConfig` | chuyenvung/sever.mjs:10-19 | each key is `""` exactly when its variable is unset or empty, and is the variable's value otherwise; the default model is a set, non-empty `MODEL_DEFAULT` and `gpt-4o-mini` otherwise; an unset or empty `ALLOWED_ORIGINS` gives exactly `["*"]`; every origin entry is non-empty and trimmed and is the trimmed form of a piece of the setting (or of `"*"`), and every piece of a set `ALLOWED_ORIGINS` that trims to something non-empty is an entry |
| `Config.NoOriginSettingAdmitsAll` | chuyenvung/sever.mjs:16-25 | without `ALLOWED_ORIGINS` every origin, the empty one included, is allowed |
| `Origins.SkipSpaces` | chuyenvung/sever.mjs:18 | the index found is the first non-space character from the start point on, or the end; everything skipped is whitespace |
| `Origins.SkipSpacesBack` | chuyenvung/sever.mjs:18 | the index found is just past the last non-space character before the end point, or the start; everything skipped is whitespace |
| `Origins.TrimStart` | chuyenvung/sever.mjs:18 | the result is the suffix left after removing only leading JavaScript whitespace, and it does not start with whitespace |
| `Origins.TrimEnd` | chuyenvung/sever.mjs:18 | the result is the prefix left after removing only trailing whitespace, and it does not end with whitespace |
| `Origins.Trim` | chuyenvung/sever.mjs:18 | `trim()` yields a string with no whitespace at either end, no longer than its input |
| `Origins.TrimPadding` | chuyenvung/sever.mjs:18 | every string is its trimmed form padded with whitespace on both sides |
| `Origins.TrimUnpads` | chuyenvung/sever.mjs:18 | a trimmed string padded with whitespace trims back to itself, so `trim` removes nothing else |
| `Origins.TrimIdempotent` | chuyenvung/sever.mjs:18 | trimming twice is trimming once |
| `Origins.Split` | chuyenvung/sever.mjs:17 | `split(",")` yields at least one piece and no piece contains a comma |
| `Origins.JoinSplit` | chuyenvung/sever.mjs:17 | joining the pieces with commas gives back the setting, so splitting loses nothing |
| `Origins.SplitJoin` | chuyenvung/sever.mjs:17 | splitting the comma-join of comma-free pieces gives back those pieces (the inverse direction) |
| `Origins.DropEmpty` | chuyenvung/sever.mjs:19 | `filter(Boolean)` keeps exactly the non-empty pieces and adds none |
| `Origins.ParseOrigins` | chuyenvung/sever.mjs:16-19 | every entry is non-empty, trimmed and comma-free; every piece of the setting that trims to something non-empty is an entry |
| `Origins.ParsedEntriesFromSetting` | chuyenvung/sever.mjs:16-19 | every entry of the parsed list is the trimmed form of some piece of the setting (or of `"*"`), so no entry comes from elsewhere |
| `Origins.ParsedEntryOrigin` | chuyenvung/sever.mjs:16-19 | every entry is the trimmed form of some comma-separated piece of the setting |
| `Origins.UnsetMeansWildcard` | chuyenvung/sever.mjs:16 | an unset or empty `ALLOWED_ORIGINS` yields exactly `["*"]` |
| `Origins.IsAllowedOrigin` | chuyenvung/sever.mjs:22-25 | allowed iff `"*"` is listed, or the origin is non-empty and listed verbatim |
| `Origins.ParsedListNeedsNoEmptyCase` | chuyenvung/sever.mjs:16-25 | on a parsed list the empty-origin branch is redundant: allowed iff `"*"` or the origin itself is listed |
| `Js.Destructure` | chuyenvung/sever.mjs:152 | destructuring a field from `req.body`, or from `{}` when the body is falsy, binds the object's own field or `undefined`, for any body (`null` and non-objects included) |
| `Cors.AllowOriginValue` | chuyenvung/sever.mjs:64 | the value is `*` iff the list holds `*`; it is non-empty iff the origin is allowed; otherwise it is the caller's own listed origin |
| `Cors.CorsHeaders` | chuyenvung/sever.mjs:61-67 | exactly the five headers, with `Vary: Origin`, the allow-origin value, the fixed Methods and Headers values and `Access-Control-Max-Age: 86400` |
| `Cors.HeadersInOrder` | chuyenvung/sever.mjs:61-67 | the five `setHeader` calls in order add exactly `CorsHeaders` to the response's headers |
| `Cors.Decide` | chuyenvung/sever.mjs:69-77 | `OPTIONS` always ends here, with 204 iff allowed and 403 otherwise; any other request goes on iff its origin is empty or allowed |
| `Cors.GateReply` | chuyenvung/sever.mjs:69-76 | a preflight is answered with its own code, with no body iff the code is 204 and `Forbidden` otherwise; a refused request gets 403 `{error: "CORS origin not allowed"}` |
| `Cors.WildcardAdmitsEverything` | chuyenvung/sever.mjs:69-77 | under `*` every preflight gets 204 and no real request is turned away |
| `Cors.MissingOriginUnderFixedList` | chuyenvung/sever.mjs:57-77 | under a fixed list a missing origin fails preflight with 403 but lets a real request through |
| `Cors.Middleware` | chuyenvung/sever.mjs:56-78 | the middleware adds the CORS headers; it continues iff `Decide` says so, and otherwise sends the preflight or 403 reply |
| `Auth.CheckAuth` | chuyenvung/sever.mjs:39-53 | authorised iff the relay key is set, the header equals it exactly, and the upstream key is set; failures are 500, 401, 500, and the first failing check decides |
| `Auth.AuthorizedMeansExactKey` | chuyenvung/sever.mjs:44 | only the very relay key, actually sent in the header, is accepted |
| `Auth.UnauthorizedIsCallersFault` | chuyenvung/sever.mjs:40-47 | 401 is given exactly when a relay key is configured and the caller did not send it |
| `Auth.EnsureAuth` | chuyenvung/sever.mjs:39-53 | returns true iff `CheckAuth` authorises; on failure the response is sent with that status and `{error}` body; headers are untouched |
| `Shaper.SpreadAll` | chuyenvung/sever.mjs:158-162 | the conditional spreads add exactly the listed fields that are not `undefined`, with the caller's values |
| `Shaper.ChatPayload` | chuyenvung/sever.mjs:143-163 | the chat payload always has `model`, `messages` and `temperature`, and no field holds `undefined` (so `JSON.stringify` drops none); its exact keys and values are the lemmas below |
| `Shaper.ChatPayloadKeys` | chuyenvung/sever.mjs:143-163 | the chat payload has `model`, `messages`, `temperature`, and exactly those sampling fields the caller defined |
| `Shaper.ChatForwardsDefinedFields` | chuyenvung/sever.mjs:143-163 | no payload field is `undefined`, and every field the caller defined is forwarded unchanged (`null` and `0` included) |
| `Shaper.ChatDefaults` | chuyenvung/sever.mjs:143-146 | an `undefined` `model`, `messages` or `temperature` takes the default model, `[]` or 0.7 (the converse, that a defined field is kept, is `ChatForwardsDefinedFields`) |
| `Shaper.ChatIgnoresOtherFields` | chuyenvung/sever.mjs:143-163 | two bodies that agree on the eight recognised fields give the same payload, so no other inbound key is forwarded |
| `Shaper.ZeroSamplingValueIsKept` | chuyenvung/sever.mjs:158-162 | a sampling field sent as `0` is forwarded as `0` |
| `Shaper.MessagesOnlyChat` | chuyenvung/sever.mjs:143-163 | a body with only `messages` gives exactly default model, those messages, and temperature 0.7 |
| `Shaper.FaqPayload` | chuyenvung/sever.mjs:109-125 | exactly `model`, `messages`, `temperature`; temperature 0.2; model is the caller's if truthy, else the default; two messages: the system prompt, then the truthy `question` or the default question |
| `Shaper.FaqIgnoresOtherFields` | chuyenvung/sever.mjs:109 | the FAQ payload depends on `question` and `model` alone |
| `Shaper.EmptyModelDefaultsOnlyOnFaq` | chuyenvung/sever.mjs:109-152 | an empty `model` string is forwarded as is by the chat route but replaced by the default on the FAQ route |
| `Translator.ParseOrWrap` | chuyenvung/sever.mjs:128-130 | the parsed JSON when parsing succeeds, otherwise an object whose only field `raw` holds the text |
| `Translator.Translate` | chuyenvung/sever.mjs:128-134 | a thrown error gives 500 `{error}`; an answered call keeps its status class, and the status changes only from a 2xx to 200 |
| `Translator.UpstreamErrorPassesThrough` | chuyenvung/sever.mjs:132 | a non-2xx reply with a parseable body reaches the caller with that status and body |
| `Relay.PayloadIgnoresUpstreamKey` | chuyenvung/sever.mjs:109-163 | the payload of either route is the same whatever the upstream key is, so the key travels only in the bearer credential |
| `Relay.Handle` | chuyenvung/sever.mjs:105-182 | upstream is called iff the gate authorises, at the completions URL, with `Bearer` and the non-empty upstream key and the route's payload; otherwise the gate's status and `{error}` are returned |
| `Relay.Respond` | chuyenvung/sever.mjs:174-181 | the response is sent with `Translate`'s status and JSON body |
| `Relay.AiFaq` | chuyenvung/sever.mjs:105-136 | the FAQ handler sends exactly what `Handle` prescribes and reports what it sent upstream |
| `Relay.Chat` | chuyenvung/sever.mjs:139-182 | the chat handler sends exactly what `Handle` prescribes and reports what it sent upstream |
| `Relay.Relay` | chuyenvung/sever.mjs:56-182 | every outcome of a request that reaches the middleware carries exactly the CORS headers; upstream is reached only past the origin and auth gates; protected routes are always answered |
| `Relay.Serve` | chuyenvung/sever.mjs:56-182 | middleware plus handler on a fresh response produce exactly the `Relay` outcome |
| `Relay.PreflightStopsAtMiddleware` | chuyenvung/sever.mjs:69-72 | an `OPTIONS` request is answered 204 (allowed) or 403, with no JSON body and no upstream call |
| `Relay.ForeignOriginStopsBeforeAuth` | chuyenvung/sever.mjs:74-76 | a real request from a declared, unlisted origin gets 403 `{error: "CORS origin not allowed"}` whatever the keys |
| `Relay.ForwardedIffAllChecksPass` | chuyenvung/sever.mjs:105-172 | upstream is called iff the route is protected, the origin passes and the gate authorises |
| `Relay.WrongRelayKeyIs401` | chuyenvung/sever.mjs:44-47 | a configured relay key that is missing or wrong in the request gives 401 and no upstream call |
| `Relay.MissingUpstreamKeyIs500` | chuyenvung/sever.mjs:48-51 | the right relay key without an upstream key gives 500 `Missing OPENAI_API_KEY` and no upstream call |
| `Relay.UpstreamErrorReachesCaller` | chuyenvung/sever.mjs:174-178 | an upstream error status and parseable body (a 429, say) reach the caller unchanged |
| `Relay.FailedCallIs500` | chuyenvung/sever.mjs:179-181 | a failed upstream call is answered with 500 and `{error: message}` |
| `Http.Response.SendStatus` | chuyenvung/sever.mjs:71 | `sendStatus(204)` sends no body; `sendStatus(403)` sends the text `Forbidden` |

## Left out

- Requests whose body `express.json` rejects (chuyenvung/sever.mjs:7): for example malformed JSON, a non-object or non-array body under its strict mode, a body over 1mb, an unsupported charset or `Content-Encoding`, or a body that fails to inflate. Express answers them 400, 413 or 415 through its own error handler, before the CORS middleware (chuyenvung/sever.mjs:56) runs, so that reply has no CORS headers and no origin or auth check. `Request.body` models only a body that parsed.
- The Express app setup, `express.json`'s parsing itself, `app.listen` and the port, and the `/`, `/health` and `GET /api/chat` routes (chuyenvung/sever.mjs:4-7, 81-102, 185-186). They are I/O plumbing or constant data. A request for them leaves `Relay`'s outcome unanswered.
- `fetchWithTimeout` with its `AbortController` and timer (chuyenvung/sever.mjs:28-37). This is asynchronous I/O and timer concurrency. An abort shows up only as a `Failed` reply, and releasing the timer is not modelled. The timer is cleared as soon as `fetch` resolves with the headers, so reading the body with `r.text()` (chuyenvung/sever.mjs:128, 174) is not bounded by `TIMEOUT_AI_MS`, and `Failed` stands for an abort only before the headers arrive.
- `TIMEOUT_AI` and its conversion with `Number` (chuyenvung/sever.mjs:13). It only feeds the timer.
- The network call and `r.text()`. The upstream is a function parameter, and the `content-type` header is a constant that is not modelled. The request URL is carried in `Outbound.url`.
- `JSON.parse` and `JSON.stringify`. Parsing is a function parameter. Serialisation is taken to be the payload map, which is proved to hold no `undefined`.
- Floating point. Numbers are reals. The relay forwards them, compares them with `undefined` and tests their truthiness, and nothing more. Two effects of double rounding are therefore not modelled: `1e999` in a chat body parses to Infinity and is forwarded as `null`, and `1e-400` parses to `0`, which is falsy, so the FAQ route would replace it with its default.
- The text of a thrown error (`e?.message || String(e)`). A `Failed` reply carries the message as given.
- Headers that Express adds itself (`Content-Type`, `Content-Length`). Header names are treated case-sensitively, as the code writes them.
- Express's path matching (case-insensitive, optional trailing slash). The router's choice is the `Target` field of a request.
- Duplicate `X-Relay-Key` or `Origin` headers that Node joins into one value. Each header is a single optional string.
- `Js.Destructure`: assumes the field names are plain own properties. The relay reads only such names, so prototype properties are not modelled.
- `Http.Response.SendStatus`: only the two codes the relay uses, 204 and 403, are modelled.
- The design's promise that the upstream key never appears in an outward response is not proved. Upstream bodies and error messages are opaque text in this model. `Relay.PayloadIgnoresUpstreamKey` and `Relay.Handle` show that the key is sent only in the outbound `authorization` value.
