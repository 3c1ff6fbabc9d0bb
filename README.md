# y-router gateway handler, modelled in Dafny

y-router is a Cloudflare-Worker-style HTTP gateway. It accepts Anthropic
Messages API requests and forwards them to an OpenAI-compatible Chat
Completions endpoint. This project models the gateway's `fetch` handler in
`index.ts` and proves what that handler decides:

- which route a request takes;
- which credential is forwarded;
- what upstream request is built;
- how the upstream answer becomes the client's response.

The handler is written as a pure function, `Gateway.Handle`, of:

- `Imports`: the imported page bodies and the three protocol translators.
  The translators are left uninterpreted, and each one may throw: it returns
  `None` in place of a value;
- `Env`: `DEFAULT_BEARER_TOKEN` and `OPENROUTER_BASE_URL`;
- `Request`: the pathname, the method, the `x-api-key` and `Authorization`
  header values as `headers.get` returns them, and the parsed JSON body;
- `send`: the network, as a function from the upstream request to the
  upstream answer (status, `text()`, `json()`).

`Handle` returns an `Exchange`: the upstream request it sent, if any, and
what the handler's promise settles to (a `Response`, or a thrown exception).
A property that the handler "does not call" a collaborator is stated as
"the result is the same for every choice of that collaborator".

Credential resolution is the one imperative part of the handler. Lines 42-55
assign one local and overwrite it while it is still falsy.
`Gateway.ResolveBearerToken` keeps that shape as a method with a mutable
local. `Gateway.ResolveToken` is the priority list x-api-key >
Authorization bearer > DEFAULT_BEARER_TOKEN, stated by the comment at line 41.
The method's local is proved to be truthy exactly when `ResolveToken` gives a
token, and then to equal it. When the local ends falsy it holds
DEFAULT_BEARER_TOKEN's value, which may be `""` where `ResolveToken` gives
`None`. Line 57 tests only truthiness, so the two agree wherever the handler
looks. "Absent" follows JavaScript truthiness: `null`,
`undefined` and `""` are all falsy (`Js.Truthy`). The `stream` flag of the
translated request is read with JavaScript truthiness of a JSON property
(`Js.JsonTruthy`). `ok` is the Fetch Standard's ok status, 200 to 299.

Files:

- `js.dfy`: the JavaScript value semantics.
- `http.dfy`: the request, response and environment records.
- `gateway.dfy`: the handler.
- `properties.dfy`: the lemmas.

## Model

| member | source | states |
|---|---|---|
| Gateway.Handle | index.ts:11-108 | the whole handler; no contract of its own. Its behaviour is stated by every `GatewayProperties` lemma below |
| Gateway.RouteOf | index.ts:14-38 | route dispatch; no contract of its own. See `RoutingTable` |
| Gateway.BearerPayload | index.ts:45-49 | a payload is present exactly when the Authorization value exists and starts with exactly "Bearer "; the prefix followed by the payload then gives back the header |
| Gateway.TokenSources | index.ts:41-55 | the three credential sources in priority order; no contract of its own. See `FirstTruthy` and `ResolveTokenCascade` |
| Gateway.ResolveToken | index.ts:41-57 | there is no token exactly when x-api-key, the bearer payload and DEFAULT_BEARER_TOKEN are all missing or empty; a token is non-empty and is one of the three sources. Which one is stated by `ResolveTokenCascade` |
| Gateway.BaseUrl | index.ts:67 | the base URL is never empty; it is either https://openrouter.ai/api/v1 or the value of OPENROUTER_BASE_URL. See `UpstreamTarget` for which |
| Gateway.UpstreamCall | index.ts:67-75 | the upstream request; no contract of its own. See `UpstreamTarget` and `BearerRoundTrip` |
| Gateway.AnswerUpstream | index.ts:77-104 | outcome dispatch; no contract of its own. See `UpstreamFailurePassedThrough`, `NullTranslatedRequestThrows`, `StreamingAnswer` and `JsonAnswer` |
| Gateway.FirstTruthy | index.ts:41-55 | the result is present exactly when some source is a non-empty string; it is then non-empty and equals the first such source, and every earlier source is falsy |
| Gateway.ResolveTokenCascade | index.ts:42-55 | the priority-list definition of the token agrees with the code's chain of "if still falsy" tests: x-api-key, then the bearer payload, then the default, then nothing |
| Gateway.ResolveBearerToken | index.ts:42-55 | the mutable local of lines 42-55 ends truthy exactly when a token is resolved, and then equals it; if it ends falsy, it holds DEFAULT_BEARER_TOKEN's value |
| GatewayProperties.RoutingTable | index.ts:14-38 | each of the five branches is taken for exactly one exact (pathname, method) pair; every other pair is unrouted |
| GatewayProperties.StaticPages | index.ts:14-36 | GET on /, /terms and /privacy answers 200 text/html with the matching page; GET on /install.sh answers 200 text/plain; charset=utf-8 with the script; nothing is sent upstream |
| GatewayProperties.UnroutedIsNotFound | index.ts:107 | any other pathname, or a known pathname with another method, answers 404 "Not Found" without headers and sends nothing upstream |
| GatewayProperties.UpstreamOnlyFromMessages | index.ts:38-75 | an upstream request is sent if and only if the request is POST /v1/messages, the request translator returned, and a token was resolved |
| GatewayProperties.RequestTranslatorThrowsFirst | index.ts:40-57 | the request translator runs before the credential test: if it throws, the handler throws and sends nothing, whatever the credentials |
| GatewayProperties.ApiKeyWins | index.ts:42-45 | a non-empty x-api-key is the token, whatever Authorization and DEFAULT_BEARER_TOKEN hold |
| GatewayProperties.BearerPrefixStripped | index.ts:45-49 | with x-api-key missing or empty, an Authorization value that starts with exactly "Bearer " and has more after it gives the value with its first 7 characters removed (the prefix is 7 characters long), and the prefix plus the token gives back the header |
| GatewayProperties.NonBearerAuthorizationIgnored | index.ts:45-49 | an Authorization value without the exact "Bearer " prefix resolves like an absent header |
| GatewayProperties.BearerSchemeExamples | index.ts:47 | three examples of the prefix test: "bearer x" and "Basic abc" fail it, "Bearer x" passes (the general fact is `Js.StartsWith` together with `NonBearerAuthorizationIgnored`) |
| GatewayProperties.DefaultIsLastResort | index.ts:52-55 | when either header yields a non-empty token, the environment does not affect the result; otherwise a non-empty DEFAULT_BEARER_TOKEN is the token and there is none without it |
| GatewayProperties.EmptyBearerFallsBack | index.ts:47-55 | "Authorization: Bearer " with an empty remainder yields no token, so DEFAULT_BEARER_TOKEN decides |
| GatewayProperties.UnauthorizedExactlyWithoutCredential | index.ts:57-64 | the answer is the fixed 401 text/plain message if and only if the request is POST /v1/messages, the request translator returned, and all three sources are missing or empty; no upstream request is sent then |
| GatewayProperties.UnauthorizedSendsNothing | index.ts:57-64 | once the request translator has returned, without a credential the result is the fixed 401 and does not depend on the network at all |
| GatewayProperties.UpstreamTarget | index.ts:67-75 | the upstream request is a POST to the non-empty OPENROUTER_BASE_URL, or else https://openrouter.ai/api/v1, followed by "/chat/completions"; it carries Content-Type application/json, "Bearer " + the token, and the translated request as its body |
| GatewayProperties.BearerRoundTrip | index.ts:47-72 | for non-empty t, a request whose only credential is "Authorization: Bearer " + t resolves to t, and the outbound Authorization header equals the inbound one |
| GatewayProperties.UpstreamFailurePassedThrough | index.ts:77-81 | a non-ok upstream answer is returned with its status and its exact text body; changing either response translator changes nothing |
| GatewayProperties.NullTranslatedRequestThrows | index.ts:77-83 | for an ok answer, a translated request that is `null` makes the handler throw when it reads `stream`; neither response translator has any say |
| GatewayProperties.StreamingAnswer | index.ts:83-94 | an ok answer with a truthy `stream` flag is returned as 200 text/event-stream, no-cache, keep-alive, carrying what the stream translator made of the upstream body and the model; if that translator throws, the handler throws; the JSON translator has no effect |
| GatewayProperties.JsonAnswer | index.ts:83-103 | an ok answer with a falsy `stream` flag is returned as 200 application/json, carrying what the response translator made of the parsed body and the model; the handler throws when the translated request is `null`, the body is not JSON, or the translator throws; the stream translator has no effect |

## Left out

- The three translators (`formatAnthropicToOpenAI`, `streamOpenAIToAnthropic`, `formatOpenAIToAnthropic`) and the page bodies (`indexHtml`, `termsHtml`, `privacyHtml`, `installSh`). Their modules are not part of this model, so they are fields of `Imports`. Each translator is a function that either returns or throws (`None`), and is taken to be deterministic. The request and response translators are taken to return a JSON value, never `undefined`. The stream translator's result is a string of events.
- The stream translator is given the upstream body's text in place of its `ReadableStream` (`openaiResponse.body`, line 85). An ok answer with no body (status 204 or 205, where `body` is `null`) therefore looks the same to it as one with an empty body.
- The stream translator's output stream is a single value. An error raised later, while the stream is being read, is not modelled; only a synchronous throw from the call is.
- `new URL(request.url)`: the pathname is taken as given.
- Header handling by the platform is taken as given: name case-insensitivity, joining repeated headers, trimming whitespace from values. In particular, the platform's trimming means an actual request cannot deliver "Bearer " with a trailing space; the model still covers that value.
- Method normalisation by the platform (upper-casing "get" to "GET") is taken as given: the method is compared exactly as received.
- Inbound `request.json()` failure (line 39): it throws before any credential check, and the platform handles it. The body is taken as already-parsed JSON.
- Network failure of the upstream `fetch` (a rejected promise) is not modelled. `send` always yields an answer.
- A `Response` constructor rejecting a passed-through status (outside 200-599, or a null-body status such as 304 with a body) is not modelled.
- Serialisation (`JSON.stringify`) is not modelled. It cannot throw on a JSON value, which has no cycles and no BigInt. Also not modelled: the `Content-Type` default that the platform adds to a string body without one, and the lazy `ReadableStream`. Bodies are the tags `Text`, `JsonBody` and `EventStream`.
- Strings are sequences of Unicode characters, not UTF-16 code units. The only index used is `substring(7)` after the ASCII prefix "Bearer ", and it gives the same result under both readings.
- JSON numbers are reals. A JSON -0 is the real 0, which is falsy like -0 in JavaScript; NaN cannot come from JSON.
- The `Env` type from `./env` beyond its two fields used here.
