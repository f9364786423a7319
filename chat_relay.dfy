/**
 * The `chat` edge function: it validates the relay request, prepends the
 * system prompt, builds the upstream chat-completions call and chooses
 * the response by the upstream status and the `stream` flag.
 *
 * The handler is modelled as a pure function of the incoming request and
 * of what the upstream call produced. `Plan` decides between answering at
 * once and calling upstream, so "no upstream fetch" is a statement about
 * `Plan`, and the upstream outcome is ignored on every answered path.
 */
module ChatRelay {
  import opened Wrappers
  import opened Text
  import opened Wire

  /** A JSON value the relay receives and re-serialises without looking inside. */
  datatype Json = Json(text: string)

  /** What `await req.json()` produced: the decoded body, or the message of the exception it threw. */
  datatype BodyParse = BodyJson(request: ChatRequest) | BodyMalformed(message: string)

  datatype Incoming = Preflight | Post(body: BodyParse)

  /** What `response.json()` produced on an ok buffered reply. */
  datatype JsonParse = JsonOk(value: Json) | JsonFailed(message: string)

  /**
   * The upstream call's outcome: `fetch` threw, or it answered with a
   * status, the body text, and the result of parsing that text as JSON.
   */
  datatype UpstreamOutcome =
    | FetchFailed(thrown: Thrown)
    | Replied(status: nat, text: string, json: JsonParse)

  /** The upstream request: endpoint, `Authorization` header, and the JSON body `{model, messages, stream}`. */
  datatype UpstreamRequest = UpstreamRequest(
    endpoint: string,
    authorization: string,
    model: string,
    messages: seq<Message>,
    stream: bool)

  datatype Body =
    | NullBody
    | ErrorBody(error: string)
    | UpstreamErrorBody(error: string, details: string)
    | PassThrough(raw: string)
    | DataBody(data: Json)

  datatype Response = Response(status: nat, headers: map<string, string>, body: Body)

  /** Either answer without calling upstream, or forward this request. */
  datatype Decision = Answer(response: Response) | Forward(request: UpstreamRequest)

  const AllowOrigin: string := "Access-Control-Allow-Origin"
  const AllowHeaders: string := "Access-Control-Allow-Headers"
  const ContentType: string := "Content-Type"
  const MissingConfigMessage: string := "Missing required configuration: baseUrl, apiKey, or modelName"
  const UnknownErrorMessage: string := "Unknown error"
  const CompletionsPath: string := "/chat/completions"

  const CorsHeaders: map<string, string> :=
    map[AllowOrigin := "*", AllowHeaders := "authorization, x-client-info, apikey, content-type"]

  /** The CORS headers extended with a content type. */
  function WithContentType(ct: string): (h: map<string, string>)
    ensures h.Keys == CorsHeaders.Keys + {ContentType} && h[ContentType] == ct
    ensures h[AllowOrigin] == "*"
  {
    CorsHeaders[ContentType := ct]
  }

  /** `!baseUrl || !apiKey || !modelName` is false: all three are non-empty. */
  predicate Configured(req: ChatRequest)
  {
    req.baseUrl != "" && req.apiKey != "" && req.modelName != ""
  }

  /** The `stream = true` destructuring default. */
  function StreamFlag(req: ChatRequest): (b: bool)
    ensures req.stream.None? ==> b
    ensures req.stream.Some? ==> b == req.stream.value
  {
    req.stream.GetOr(true)
  }

  /**
   * `fullMessages`: a truthy system prompt becomes one leading system
   * message; an absent or empty prompt adds nothing.
   */
  function FullMessages(req: ChatRequest): (r: seq<Message>)
    ensures req.systemPrompt.Some? && req.systemPrompt.value != "" ==>
      |r| == |req.messages| + 1 && r[0] == Message(System, req.systemPrompt.value) && r[1..] == req.messages
    ensures req.systemPrompt.None? || req.systemPrompt.value == "" ==> r == req.messages
  {
    match req.systemPrompt
    case Some(p) => if p != "" then [Message(System, p)] + req.messages else req.messages
    case None => req.messages
  }

  /** `baseUrl.endsWith('/') ? baseUrl.slice(0, -1) : baseUrl`. */
  function NormalizeBaseUrl(url: string): (r: string)
    ensures EndsWith(url, "/") ==> r + "/" == url
    ensures !EndsWith(url, "/") ==> r == url
  {
    if EndsWith(url, "/") then url[..|url| - 1] else url
  }

  function Endpoint(baseUrl: string): (r: string)
    ensures EndsWith(r, CompletionsPath)
    ensures r[..|r| - |CompletionsPath|] == NormalizeBaseUrl(baseUrl)
  {
    var n := NormalizeBaseUrl(baseUrl);
    assert (n + CompletionsPath)[..|n|] == n;
    assert (n + CompletionsPath)[|n|..] == CompletionsPath;
    n + CompletionsPath
  }

  /** The bearer-token credential of section 2.1 of RFC 6750. */
  function Bearer(apiKey: string): (r: string)
    ensures StartsWith(r, "Bearer ") && r[7..] == apiKey
  {
    "Bearer " + apiKey
  }

  function ServerError(thrown: Thrown): (r: Response)
    ensures r.status == 500 && r.headers == WithContentType("application/json")
    ensures r.body == ErrorBody(if thrown.ErrorObject? then thrown.message else UnknownErrorMessage)
  {
    Response(500, WithContentType("application/json"),
      ErrorBody(match thrown case ErrorObject(m) => m case OtherThrown => UnknownErrorMessage))
  }

  /** `response.ok`. */
  predicate Ok(status: nat)
  {
    200 <= status <= 299
  }

  /** The handler up to the upstream call. */
  function Plan(incoming: Incoming): (p: Decision)
    ensures incoming.Preflight? ==> p == Answer(Response(200, CorsHeaders, NullBody))
    ensures incoming.Post? && incoming.body.BodyMalformed? ==>
      p == Answer(ServerError(ErrorObject(incoming.body.message)))
    ensures incoming.Post? && incoming.body.BodyJson? ==>
      var req := incoming.body.request;
      (p.Forward? <==> Configured(req)) &&
      (!Configured(req) ==> p == Answer(Response(400, WithContentType("application/json"), ErrorBody(MissingConfigMessage))))
  {
    match incoming
    case Preflight => Answer(Response(200, CorsHeaders, NullBody))
    case Post(BodyMalformed(m)) => Answer(ServerError(ErrorObject(m)))
    case Post(BodyJson(req)) =>
      if !Configured(req) then
        Answer(Response(400, WithContentType("application/json"), ErrorBody(MissingConfigMessage)))
      else
        Forward(UpstreamRequest(Endpoint(req.baseUrl), Bearer(req.apiKey), req.modelName, FullMessages(req), StreamFlag(req)))
  }

  /** The handler after the upstream call: status propagation, passthrough stream, or buffered JSON. */
  function Relay(stream: bool, upstream: UpstreamOutcome): (r: Response)
    ensures upstream.FetchFailed? ==> r == ServerError(upstream.thrown)
    ensures upstream.Replied? && !Ok(upstream.status) ==>
      r.status == upstream.status && r.headers == WithContentType("application/json") &&
      r.body == UpstreamErrorBody("LLM API error: " + Decimal(upstream.status), upstream.text)
    ensures upstream.Replied? && Ok(upstream.status) && stream ==>
      r == Response(200, WithContentType("text/event-stream"), PassThrough(upstream.text))
    ensures upstream.Replied? && Ok(upstream.status) && !stream ==>
      r == if upstream.json.JsonOk? then Response(200, WithContentType("application/json"), DataBody(upstream.json.value))
           else ServerError(ErrorObject(upstream.json.message))
  {
    match upstream
    case FetchFailed(t) => ServerError(t)
    case Replied(status, text, json) =>
      if !Ok(status) then
        Response(status, WithContentType("application/json"), UpstreamErrorBody("LLM API error: " + Decimal(status), text))
      else if stream then
        Response(200, WithContentType("text/event-stream"), PassThrough(text))
      else
        match json
        case JsonOk(v) => Response(200, WithContentType("application/json"), DataBody(v))
        case JsonFailed(m) => ServerError(ErrorObject(m))
  }

  /** The whole handler. `upstream` is only consulted when `Plan` forwards. */
  function Handle(incoming: Incoming, upstream: UpstreamOutcome): (r: Response)
    ensures Plan(incoming).Answer? ==> r == Plan(incoming).response
    ensures Plan(incoming).Forward? ==> r == Relay(Plan(incoming).request.stream, upstream)
  {
    match Plan(incoming)
    case Answer(resp) => resp
    case Forward(call) => Relay(call.stream, upstream)
  }

  // ---------------------------------------------------------------------
  // Properties

  /**
   * A request missing any of the three settings is answered 400 with the
   * error body, whatever upstream would have done: no fetch is made.
   */
  lemma MissingConfigRejected(req: ChatRequest, u1: UpstreamOutcome, u2: UpstreamOutcome)
    requires !Configured(req)
    ensures Plan(Post(BodyJson(req))).Answer?
    ensures Handle(Post(BodyJson(req)), u1) == Handle(Post(BodyJson(req)), u2)
    ensures Handle(Post(BodyJson(req)), u1).status == 400
    ensures Handle(Post(BodyJson(req)), u1).body == ErrorBody(MissingConfigMessage)
  {
  }

  /** A configured request is forwarded with the exact shape the upstream API expects. */
  lemma ForwardedRequestShape(req: ChatRequest)
    requires Configured(req)
    ensures Plan(Post(BodyJson(req))) == Forward(UpstreamRequest(
      NormalizeBaseUrl(req.baseUrl) + CompletionsPath, "Bearer " + req.apiKey, req.modelName,
      FullMessages(req), StreamFlag(req)))
    ensures req.stream.None? ==> Plan(Post(BodyJson(req))).request.stream
  {
  }

  /** The caller's messages always end the forwarded list, in their order. */
  lemma {:induction false} FullMessagesKeepsHistory(req: ChatRequest)
    ensures var r := FullMessages(req); |r| >= |req.messages| && r[|r| - |req.messages|..] == req.messages
    ensures var r := FullMessages(req); |r| <= |req.messages| + 1
  {
  }

  /** Normalisation strips exactly one slash: a doubled trailing slash keeps one. */
  lemma NormalizeStripsOneSlash(prefix: string)
    ensures NormalizeBaseUrl(prefix + "//") == prefix + "/"
    ensures NormalizeBaseUrl(prefix + "/") == prefix
  {
    assert EndsWith(prefix + "//", "/") by { assert (prefix + "//")[|prefix| + 1..] == "/"; }
    assert (prefix + "//")[..|prefix| + 1] == prefix + "/";
    assert EndsWith(prefix + "/", "/") by { assert (prefix + "/")[|prefix|..] == "/"; }
    assert (prefix + "/")[..|prefix|] == prefix;
  }

  /** Every response carries the CORS headers. */
  lemma CorsOnEveryResponse(incoming: Incoming, upstream: UpstreamOutcome)
    ensures var r := Handle(incoming, upstream);
      AllowOrigin in r.headers && r.headers[AllowOrigin] == "*"
  {
  }

  /** A non-ok upstream status is propagated unchanged, with the upstream text as details. */
  lemma UpstreamStatusPropagated(req: ChatRequest, status: nat, text: string, json: JsonParse)
    requires Configured(req) && !Ok(status)
    ensures Handle(Post(BodyJson(req)), Replied(status, text, json)).status == status
    ensures Handle(Post(BodyJson(req)), Replied(status, text, json)).body.details == text
  {
  }
}
