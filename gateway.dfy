/**
 The `fetch` handler of the gateway (index.ts): route dispatch, credential
 resolution, construction of the upstream request and dispatch on the
 upstream outcome. The handler is a function of its collaborators: the
 imported translators and page bodies (`Imports`), the environment, the
 request and the network (`send`).
 */
module Gateway {
  import opened Js
  import opened Http

  /** The modules index.ts imports and does not define. The translators are
      uninterpreted. Each one may throw, and `None` stands for a throw. */
  datatype Imports = Imports(
    indexHtml: string,
    termsHtml: string,
    privacyHtml: string,
    installSh: string,
    formatAnthropicToOpenAI: Json -> Option<Json>,
    streamOpenAIToAnthropic: (string, Option<Json>) -> Option<string>,
    formatOpenAIToAnthropic: (Json, Option<Json>) -> Option<Json>)

  /** Which branch of the handler a request takes. */
  datatype Route = Index | Terms | Privacy | InstallScript | Messages | Unrouted

  /** One handled request: the upstream request sent, if any, and what the handler settled to. */
  datatype Exchange = Exchange(outbound: Option<UpstreamRequest>, outcome: Outcome)

  const BearerPrefix: string := "Bearer "
  const DefaultBaseUrl: string := "https://openrouter.ai/api/v1"
  const CompletionsPath: string := "/chat/completions"
  const MissingTokenMessage: string :=
    "Bearer token is required. Please provide x-api-key header, Authorization header, or set DEFAULT_BEARER_TOKEN environment variable."

  const HtmlHeaders: seq<Header> := [("Content-Type", "text/html")]
  const ScriptHeaders: seq<Header> := [("Content-Type", "text/plain; charset=utf-8")]
  const SseHeaders: seq<Header> :=
    [("Content-Type", "text/event-stream"), ("Cache-Control", "no-cache"), ("Connection", "keep-alive")]
  const JsonHeaders: seq<Header> := [("Content-Type", "application/json")]

  const Unauthorized: Response := Response(401, [("Content-Type", "text/plain")], Text(MissingTokenMessage))
  const NotFound: Response := Response(404, [], Text("Not Found"))

  /** The chain of exact (pathname, method) tests, first match wins. */
  function RouteOf(pathname: string, httpMethod: string): Route {
    if pathname == "/" && httpMethod == "GET" then Index
    else if pathname == "/terms" && httpMethod == "GET" then Terms
    else if pathname == "/privacy" && httpMethod == "GET" then Privacy
    else if pathname == "/install.sh" && httpMethod == "GET" then InstallScript
    else if pathname == "/v1/messages" && httpMethod == "POST" then Messages
    else Unrouted
  }

  // ---------------------------------------------------------------------
  // Credential resolution
  // ---------------------------------------------------------------------

  /** What an `Authorization` header contributes: the text after an exact
      "Bearer " prefix, possibly empty; nothing for any other header. */
  function BearerPayload(authorization: Option<string>): (r: Option<string>)
    ensures r.Some? <==> authorization.Some? && StartsWith(authorization.value, BearerPrefix)
    ensures r.Some? ==> authorization == Some(BearerPrefix + r.value)
  {
    if Truthy(authorization) && StartsWith(authorization.value, BearerPrefix)
    then
      var header := authorization.value;
      assert header == header[..|BearerPrefix|] + header[|BearerPrefix|..];
      Some(header[|BearerPrefix|..])
    else None
  }

  /** The credential sources, highest priority first: x-api-key, then the
      Authorization bearer, then DEFAULT_BEARER_TOKEN. */
  function TokenSources(req: Request, env: Env): seq<Option<string>> {
    [req.xApiKey, BearerPayload(req.authorization), env.defaultBearerToken]
  }

  /** The first truthy source, if any. */
  function FirstTruthy(sources: seq<Option<string>>): (r: Option<string>)
    ensures r.Some? <==> exists i :: 0 <= i < |sources| && Truthy(sources[i])
    ensures r.Some? ==>
      Truthy(r) &&
      exists i :: 0 <= i < |sources| && sources[i] == r && forall j :: 0 <= j < i ==> !Truthy(sources[j])
  {
    if sources == [] then None
    else if Truthy(sources[0]) then sources[0]
    else
      var r := FirstTruthy(sources[1..]);
      assert forall i :: 1 <= i < |sources| ==> sources[i] == sources[1..][i - 1];
      r
  }

  /** The token the handler forwards: the highest-priority non-empty source. */
  function ResolveToken(req: Request, env: Env): (r: Option<string>)
    ensures r.None? <==> !Truthy(req.xApiKey) && !Truthy(BearerPayload(req.authorization)) && !Truthy(env.defaultBearerToken)
    ensures r.Some? ==> Truthy(r)
    ensures r.Some? ==> r == req.xApiKey || r == BearerPayload(req.authorization) || r == env.defaultBearerToken
  {
    var sources := TokenSources(req, env);
    assert sources[0] == req.xApiKey && sources[1] == BearerPayload(req.authorization) && sources[2] == env.defaultBearerToken;
    FirstTruthy(sources)
  }

  /** The priority list read as a chain of "if still falsy" tests. */
  lemma ResolveTokenCascade(req: Request, env: Env)
    ensures ResolveToken(req, env) ==
      if Truthy(req.xApiKey) then req.xApiKey
      else if Truthy(BearerPayload(req.authorization)) then BearerPayload(req.authorization)
      else if Truthy(env.defaultBearerToken) then env.defaultBearerToken
      else None
  {
    var sources := TokenSources(req, env);
    var rest := [BearerPayload(req.authorization), env.defaultBearerToken];
    assert sources[1..] == rest;
    assert rest[1..] == [env.defaultBearerToken];
    assert [env.defaultBearerToken][1..] == [];
    assert FirstTruthy([env.defaultBearerToken]) ==
      if Truthy(env.defaultBearerToken) then env.defaultBearerToken else FirstTruthy([]);
    assert FirstTruthy(rest) == if Truthy(rest[0]) then rest[0] else FirstTruthy([env.defaultBearerToken]);
  }

  /** Lines 42-55 as written: one mutable local, overwritten while it is falsy.
      The caller then tests it for falsiness (line 57). */
  method ResolveBearerToken(req: Request, env: Env) returns (bearerToken: Option<string>)
    ensures Truthy(bearerToken) <==> ResolveToken(req, env).Some?
    ensures Truthy(bearerToken) ==> bearerToken == ResolveToken(req, env)
    ensures !Truthy(bearerToken) ==> bearerToken == env.defaultBearerToken
  {
    bearerToken := req.xApiKey;
    if !Truthy(bearerToken) {
      var authHeader := req.authorization;
      if Truthy(authHeader) && StartsWith(authHeader.value, BearerPrefix) {
        bearerToken := Some(authHeader.value[7..]);
      }
    }
    if !Truthy(bearerToken) {
      bearerToken := env.defaultBearerToken;
    }
    ResolveTokenCascade(req, env);
  }

  // ---------------------------------------------------------------------
  // Upstream request and outcome
  // ---------------------------------------------------------------------

  /** OPENROUTER_BASE_URL when non-empty, the public endpoint otherwise. */
  function BaseUrl(env: Env): (r: string)
    ensures r != ""
    ensures r == DefaultBaseUrl || env.openrouterBaseUrl == Some(r)
  {
    Or(env.openrouterBaseUrl, DefaultBaseUrl)
  }

  /** The POST sent upstream with the resolved token and the translated request. */
  function UpstreamCall(env: Env, token: string, openaiRequest: Json): UpstreamRequest {
    UpstreamRequest(
      BaseUrl(env) + CompletionsPath,
      "POST",
      [("Content-Type", "application/json"), ("Authorization", BearerPrefix + token)],
      openaiRequest)
  }

  /** Lines 77-104: pass a failure through, else stream or translate the completion.
      Reading `stream` (line 83) from a `null` translated request throws. */
  function AnswerUpstream(imports: Imports, openaiRequest: Json, upstream: UpstreamResponse): Outcome {
    if !OkStatus(upstream.status) then
      Returned(Response(upstream.status, [], Text(upstream.text)))
    else if openaiRequest.Null? then
      Threw
    else
      var model := Property(openaiRequest, "model");
      if JsonTruthy(Property(openaiRequest, "stream")) then
        match imports.streamOpenAIToAnthropic(upstream.text, model)
        case None => Threw
        case Some(events) => Returned(Response(200, SseHeaders, EventStream(events)))
      else
        match upstream.json
        case None => Threw
        case Some(openaiData) =>
          match imports.formatOpenAIToAnthropic(openaiData, model)
          case None => Threw
          case Some(message) => Returned(Response(200, JsonHeaders, JsonBody(message)))
  }

  /** The whole `fetch` handler. The request translator runs (line 40) before
      the credential test (line 57). */
  function Handle(imports: Imports, env: Env, req: Request, send: UpstreamRequest -> UpstreamResponse): Exchange {
    match RouteOf(req.pathname, req.httpMethod)
    case Index => Exchange(None, Returned(Response(200, HtmlHeaders, Text(imports.indexHtml))))
    case Terms => Exchange(None, Returned(Response(200, HtmlHeaders, Text(imports.termsHtml))))
    case Privacy => Exchange(None, Returned(Response(200, HtmlHeaders, Text(imports.privacyHtml))))
    case InstallScript => Exchange(None, Returned(Response(200, ScriptHeaders, Text(imports.installSh))))
    case Messages =>
      (match imports.formatAnthropicToOpenAI(req.body)
       case None => Exchange(None, Threw)
       case Some(openaiRequest) =>
         var token := ResolveToken(req, env);
         if token.None? then Exchange(None, Returned(Unauthorized))
         else
           var call := UpstreamCall(env, token.value, openaiRequest);
           Exchange(Some(call), AnswerUpstream(imports, openaiRequest, send(call))))
    case Unrouted => Exchange(None, Returned(NotFound))
  }
}
