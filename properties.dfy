/**
 What the gateway's handler promises, stated over `Gateway.Handle` and
 `Gateway.ResolveToken` for every request, environment, network and
 every choice of the imported translators.
 */
module GatewayProperties {
  import opened Js
  import opened Http
  import opened Gateway

  // ---------------------------------------------------------------------
  // Route dispatch
  // ---------------------------------------------------------------------

  /** Each branch is selected by exactly one (pathname, method) pair, and
      everything else is unrouted. */
  lemma RoutingTable(pathname: string, httpMethod: string)
    ensures RouteOf(pathname, httpMethod) == Index <==> pathname == "/" && httpMethod == "GET"
    ensures RouteOf(pathname, httpMethod) == Terms <==> pathname == "/terms" && httpMethod == "GET"
    ensures RouteOf(pathname, httpMethod) == Privacy <==> pathname == "/privacy" && httpMethod == "GET"
    ensures RouteOf(pathname, httpMethod) == InstallScript <==> pathname == "/install.sh" && httpMethod == "GET"
    ensures RouteOf(pathname, httpMethod) == Messages <==> pathname == "/v1/messages" && httpMethod == "POST"
    ensures RouteOf(pathname, httpMethod) == Unrouted <==>
      (pathname, httpMethod) !in {("/", "GET"), ("/terms", "GET"), ("/privacy", "GET"), ("/install.sh", "GET"), ("/v1/messages", "POST")}
  {
  }

  /** The static GET routes answer 200 with their page and content type, and send nothing upstream. */
  lemma StaticPages(imports: Imports, env: Env, req: Request, send: UpstreamRequest -> UpstreamResponse)
    requires req.httpMethod == "GET"
    requires req.pathname in {"/", "/terms", "/privacy", "/install.sh"}
    ensures var x := Handle(imports, env, req, send);
      && x.outbound == None
      && x.outcome.Returned?
      && x.outcome.response.status == 200
      && ContentType(x.outcome.response) ==
           Some(if req.pathname == "/install.sh" then "text/plain; charset=utf-8" else "text/html")
      && x.outcome.response.body == Text(
           if req.pathname == "/" then imports.indexHtml
           else if req.pathname == "/terms" then imports.termsHtml
           else if req.pathname == "/privacy" then imports.privacyHtml
           else imports.installSh)
  {
  }

  /** Any other pathname, or a known pathname with another method, is a 404 "Not Found". */
  lemma UnroutedIsNotFound(imports: Imports, env: Env, req: Request, send: UpstreamRequest -> UpstreamResponse)
    requires (req.pathname, req.httpMethod) !in
      {("/", "GET"), ("/terms", "GET"), ("/privacy", "GET"), ("/install.sh", "GET"), ("/v1/messages", "POST")}
    ensures Handle(imports, env, req, send) == Exchange(None, Returned(Response(404, [], Text("Not Found"))))
  {
  }

  /** An upstream request is sent exactly for a POST to /v1/messages whose
      body the request translator accepted and that resolved a token. */
  lemma UpstreamOnlyFromMessages(imports: Imports, env: Env, req: Request, send: UpstreamRequest -> UpstreamResponse)
    ensures Handle(imports, env, req, send).outbound.Some? <==>
      && req.pathname == "/v1/messages" && req.httpMethod == "POST"
      && imports.formatAnthropicToOpenAI(req.body).Some?
      && ResolveToken(req, env).Some?
  {
  }

  /** The request translator runs before the credential test: when it throws,
      the handler throws, with or without a credential, and sends nothing. */
  lemma RequestTranslatorThrowsFirst(imports: Imports, env: Env, req: Request, send: UpstreamRequest -> UpstreamResponse)
    requires RouteOf(req.pathname, req.httpMethod) == Messages
    requires imports.formatAnthropicToOpenAI(req.body).None?
    ensures Handle(imports, env, req, send) == Exchange(None, Threw)
  {
  }

  // ---------------------------------------------------------------------
  // Credential resolution
  // ---------------------------------------------------------------------

  /** A non-empty x-api-key is the token, whatever the other two sources hold. */
  lemma ApiKeyWins(req: Request, env: Env)
    requires Truthy(req.xApiKey)
    ensures ResolveToken(req, env) == req.xApiKey
  {
  }

  /** Without an x-api-key, an Authorization header with the exact "Bearer "
      prefix and a non-empty rest gives that rest. */
  lemma BearerPrefixStripped(req: Request, env: Env, header: string)
    requires !Truthy(req.xApiKey)
    requires req.authorization == Some(header)
    requires StartsWith(header, BearerPrefix) && |header| > |BearerPrefix|
    ensures |BearerPrefix| == 7
    ensures ResolveToken(req, env) == Some(header[|BearerPrefix|..])
    ensures BearerPrefix + header[|BearerPrefix|..] == header
  {
    ResolveTokenCascade(req, env);
  }

  /** An Authorization header without the exact "Bearer " prefix counts as if it were absent. */
  lemma NonBearerAuthorizationIgnored(req: Request, env: Env)
    requires req.authorization.Some? && !StartsWith(req.authorization.value, BearerPrefix)
    ensures ResolveToken(req, env) == ResolveToken(req.(authorization := None), env)
  {
  }

  /** Examples of the exact, case-sensitive prefix test: "bearer x" and
      "Basic abc" lack the prefix, "Bearer x" has it. */
  lemma BearerSchemeExamples()
    ensures !StartsWith("bearer x", BearerPrefix)
    ensures !StartsWith("Basic abc", BearerPrefix)
    ensures StartsWith("Bearer x", BearerPrefix)
  {
    assert "bearer x"[..7] != BearerPrefix by { assert "bearer x"[0] != BearerPrefix[0]; }
    assert "Basic abc"[..7] != BearerPrefix by { assert "Basic abc"[1] != BearerPrefix[1]; }
  }

  /** DEFAULT_BEARER_TOKEN matters only when neither header yields a non-empty
      token; then it is the token if it is non-empty, and there is none otherwise. */
  lemma DefaultIsLastResort(req: Request, env: Env, otherEnv: Env)
    ensures Truthy(req.xApiKey) || Truthy(BearerPayload(req.authorization)) ==>
      ResolveToken(req, env) == ResolveToken(req, otherEnv)
    ensures !Truthy(req.xApiKey) && !Truthy(BearerPayload(req.authorization)) ==>
      ResolveToken(req, env) == if Truthy(env.defaultBearerToken) then env.defaultBearerToken else None
  {
    ResolveTokenCascade(req, env);
    ResolveTokenCascade(req, otherEnv);
  }

  /** "Bearer " with nothing after it yields no token, so the default is consulted. */
  lemma EmptyBearerFallsBack(req: Request, env: Env)
    requires !Truthy(req.xApiKey) && req.authorization == Some(BearerPrefix)
    ensures ResolveToken(req, env) == if Truthy(env.defaultBearerToken) then env.defaultBearerToken else None
  {
  }

  /** The answer is the fixed 401 exactly when the messages route, past the
      request translator, finds all three sources missing or empty; no
      upstream request is sent then. */
  lemma UnauthorizedExactlyWithoutCredential(imports: Imports, env: Env, req: Request, send: UpstreamRequest -> UpstreamResponse)
    ensures Handle(imports, env, req, send).outcome == Returned(Unauthorized) <==>
      && RouteOf(req.pathname, req.httpMethod) == Messages
      && imports.formatAnthropicToOpenAI(req.body).Some?
      && !Truthy(req.xApiKey) && !Truthy(BearerPayload(req.authorization)) && !Truthy(env.defaultBearerToken)
    ensures Handle(imports, env, req, send).outcome == Returned(Unauthorized) ==>
      Handle(imports, env, req, send).outbound == None
    ensures Unauthorized.status == 401 && ContentType(Unauthorized) == Some("text/plain")
    ensures Unauthorized.body.Text? && Unauthorized.body.text == MissingTokenMessage
  {
  }

  /** Without a credential the network is never consulted: the answer does not depend on it. */
  lemma UnauthorizedSendsNothing(imports: Imports, env: Env, req: Request,
                                 send: UpstreamRequest -> UpstreamResponse, otherSend: UpstreamRequest -> UpstreamResponse)
    requires RouteOf(req.pathname, req.httpMethod) == Messages
    requires imports.formatAnthropicToOpenAI(req.body).Some?
    requires !Truthy(req.xApiKey) && !Truthy(BearerPayload(req.authorization)) && !Truthy(env.defaultBearerToken)
    ensures Handle(imports, env, req, send) == Handle(imports, env, req, otherSend) == Exchange(None, Returned(Unauthorized))
  {
  }

  // ---------------------------------------------------------------------
  // The upstream request
  // ---------------------------------------------------------------------

  /** The upstream request is a POST of the translated body to
      base + "/chat/completions" with "Bearer " + the resolved token. */
  lemma UpstreamTarget(imports: Imports, env: Env, req: Request, send: UpstreamRequest -> UpstreamResponse, openaiRequest: Json)
    requires RouteOf(req.pathname, req.httpMethod) == Messages && ResolveToken(req, env).Some?
    requires imports.formatAnthropicToOpenAI(req.body) == Some(openaiRequest)
    ensures var x := Handle(imports, env, req, send);
      && x.outbound.Some?
      && x.outbound.value.url ==
           (if Truthy(env.openrouterBaseUrl) then env.openrouterBaseUrl.value else "https://openrouter.ai/api/v1")
           + "/chat/completions"
      && x.outbound.value.httpMethod == "POST"
      && HeaderValue(x.outbound.value.headers, "Content-Type") == Some("application/json")
      && HeaderValue(x.outbound.value.headers, "Authorization") == Some("Bearer " + ResolveToken(req, env).value)
      && x.outbound.value.body == openaiRequest
  {
  }

  /** A request whose only credential is "Authorization: Bearer t" (t non-empty)
      resolves to t, and t goes upstream under the very same header value. */
  lemma BearerRoundTrip(imports: Imports, env: Env, req: Request, send: UpstreamRequest -> UpstreamResponse, t: string)
    requires RouteOf(req.pathname, req.httpMethod) == Messages
    requires imports.formatAnthropicToOpenAI(req.body).Some?
    requires !Truthy(req.xApiKey) && req.authorization == Some(BearerPrefix + t) && t != ""
    ensures ResolveToken(req, env) == Some(t)
    ensures Handle(imports, env, req, send).outbound.Some?
    ensures HeaderValue(Handle(imports, env, req, send).outbound.value.headers, "Authorization") == req.authorization
  {
    var header := BearerPrefix + t;
    assert header[..|BearerPrefix|] == BearerPrefix && header[|BearerPrefix|..] == t;
    BearerPrefixStripped(req, env, header);
  }

  // ---------------------------------------------------------------------
  // Dispatch on the upstream outcome
  // ---------------------------------------------------------------------

  /** A non-ok upstream answer is passed on with its status and exact body, and
      neither response translator has any say in it. */
  lemma UpstreamFailurePassedThrough(imports: Imports, env: Env, req: Request, send: UpstreamRequest -> UpstreamResponse,
                                     stream: (string, Option<Json>) -> Option<string>,
                                     format: (Json, Option<Json>) -> Option<Json>)
    requires Handle(imports, env, req, send).outbound.Some?
    requires !OkStatus(send(Handle(imports, env, req, send).outbound.value).status)
    ensures var upstream := send(Handle(imports, env, req, send).outbound.value);
      Handle(imports, env, req, send).outcome == Returned(Response(upstream.status, [], Text(upstream.text)))
    ensures Handle(imports.(streamOpenAIToAnthropic := stream, formatOpenAIToAnthropic := format), env, req, send)
         == Handle(imports, env, req, send)
  {
  }

  /** An ok answer for a translated request that is `null` makes the handler
      throw when it reads the `stream` flag; neither response translator is reached. */
  lemma NullTranslatedRequestThrows(imports: Imports, env: Env, req: Request, send: UpstreamRequest -> UpstreamResponse,
                                    stream: (string, Option<Json>) -> Option<string>,
                                    format: (Json, Option<Json>) -> Option<Json>)
    requires imports.formatAnthropicToOpenAI(req.body) == Some(Null)
    requires Handle(imports, env, req, send).outbound.Some?
    requires OkStatus(send(Handle(imports, env, req, send).outbound.value).status)
    ensures Handle(imports, env, req, send).outcome == Threw
    ensures Handle(imports.(streamOpenAIToAnthropic := stream, formatOpenAIToAnthropic := format), env, req, send)
         == Handle(imports, env, req, send)
  {
  }

  /** An ok answer to a streaming request is re-streamed as server-sent events,
      whatever the non-streaming translator does; a stream translator that
      throws makes the handler throw. */
  lemma StreamingAnswer(imports: Imports, env: Env, req: Request, send: UpstreamRequest -> UpstreamResponse,
                        openaiRequest: Json, format: (Json, Option<Json>) -> Option<Json>)
    requires imports.formatAnthropicToOpenAI(req.body) == Some(openaiRequest)
    requires Handle(imports, env, req, send).outbound.Some?
    requires OkStatus(send(Handle(imports, env, req, send).outbound.value).status)
    requires JsonTruthy(Property(openaiRequest, "stream"))
    ensures var upstream := send(Handle(imports, env, req, send).outbound.value);
      var x := Handle(imports, env, req, send);
      match imports.streamOpenAIToAnthropic(upstream.text, Property(openaiRequest, "model"))
      case None => x.outcome == Threw
      case Some(events) =>
        && x.outcome.Returned?
        && x.outcome.response.status == 200
        && ContentType(x.outcome.response) == Some("text/event-stream")
        && HeaderValue(x.outcome.response.headers, "Cache-Control") == Some("no-cache")
        && HeaderValue(x.outcome.response.headers, "Connection") == Some("keep-alive")
        && x.outcome.response.body == EventStream(events)
    ensures Handle(imports.(formatOpenAIToAnthropic := format), env, req, send) == Handle(imports, env, req, send)
  {
  }

  /** An ok answer to a non-streaming request is translated to one JSON message.
      The handler throws instead when the translated request is `null`, when
      the upstream body is not JSON, or when the response translator throws.
      The stream translator has no say in any of these. */
  lemma JsonAnswer(imports: Imports, env: Env, req: Request, send: UpstreamRequest -> UpstreamResponse,
                   openaiRequest: Json, stream: (string, Option<Json>) -> Option<string>)
    requires imports.formatAnthropicToOpenAI(req.body) == Some(openaiRequest)
    requires Handle(imports, env, req, send).outbound.Some?
    requires OkStatus(send(Handle(imports, env, req, send).outbound.value).status)
    requires !JsonTruthy(Property(openaiRequest, "stream"))
    ensures var upstream := send(Handle(imports, env, req, send).outbound.value);
      var x := Handle(imports, env, req, send);
      if openaiRequest.Null? then x.outcome == Threw
      else match upstream.json
        case None => x.outcome == Threw
        case Some(openaiData) =>
          match imports.formatOpenAIToAnthropic(openaiData, Property(openaiRequest, "model"))
          case None => x.outcome == Threw
          case Some(message) =>
            && x.outcome.Returned?
            && x.outcome.response.status == 200
            && ContentType(x.outcome.response) == Some("application/json")
            && x.outcome.response.body == JsonBody(message)
    ensures Handle(imports.(streamOpenAIToAnthropic := stream), env, req, send) == Handle(imports, env, req, send)
  {
  }
}
