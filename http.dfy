/**
 The HTTP-level records the handler reads and produces. The platform's
 `Request`, `Response`, `Headers` and `fetch` objects are reduced to the
 fields the handler actually uses.
 */
module Http {
  import opened Js

  /** An inbound request: the URL's pathname, the method, the two credential
      headers as `request.headers.get` returns them, and the parsed JSON body. */
  datatype Request = Request(
    pathname: string,
    httpMethod: string,
    xApiKey: Option<string>,
    authorization: Option<string>,
    body: Json)

  /** The two environment bindings the handler reads. */
  datatype Env = Env(defaultBearerToken: Option<string>, openrouterBaseUrl: Option<string>)

  /** A header as (name, value), in the order the handler writes them. */
  type Header = (string, string)

  /** What a response carries: a string, a JSON value sent as `JSON.stringify(value)`,
      or a server-sent-event stream produced by the stream translator. */
  datatype Body = Text(text: string) | JsonBody(value: Json) | EventStream(events: string)

  /** A response built by the handler. A `Response` constructed without a status has status 200. */
  datatype Response = Response(status: int, headers: seq<Header>, body: Body)

  /** The request the handler sends to the upstream provider. */
  datatype UpstreamRequest = UpstreamRequest(url: string, httpMethod: string, headers: seq<Header>, body: Json)

  /** What the upstream provider answers: its status, its body as `text()` reads it,
      and its body as `json()` parses it (`None` when it is not JSON). */
  datatype UpstreamResponse = UpstreamResponse(status: int, text: string, json: Option<Json>)

  /** What the handler's promise settles to: a response, or a thrown exception. */
  datatype Outcome = Returned(response: Response) | Threw

  /** The Fetch Standard's `ok`: the status is in the range 200 to 299. */
  predicate OkStatus(status: int) {
    200 <= status <= 299
  }

  /** The value of the first header called `name`, if any. */
  function HeaderValue(headers: seq<Header>, name: string): (r: Option<string>)
    ensures r.Some? <==> exists i :: 0 <= i < |headers| && headers[i].0 == name
    ensures r.Some? ==>
      exists i :: 0 <= i < |headers| && headers[i] == (name, r.value) && forall j :: 0 <= j < i ==> headers[j].0 != name
  {
    if headers == [] then None
    else if headers[0].0 == name then Some(headers[0].1)
    else
      var r := HeaderValue(headers[1..], name);
      assert forall i :: 1 <= i < |headers| ==> headers[i] == headers[1..][i - 1];
      r
  }

  function ContentType(r: Response): Option<string> {
    HeaderValue(r.headers, "Content-Type")
  }
}
