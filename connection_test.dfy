/**
 * The `test-connection` edge function: the same validation and base URL
 * normalisation as the chat relay, a minimal probe request, and a reply
 * with a human-readable message. A request missing a setting is answered
 * with status 400; every failure after that validation answers 200 with
 * `success: false`.
 *
 * The two `errorMessage` computations, a `let` reassigned through
 * `if/else` chains, are methods proved equal to the message tables
 * `StatusMessage` and `ExceptionMessage`; the handler is a method that
 * calls them.
 */
module ConnectionTest {
  import opened Wrappers
  import opened Text
  import opened Wire
  import ChatRelay

  datatype TestRequest = TestRequest(baseUrl: string, apiKey: string, modelName: string)

  /** What `await req.json()` produced. */
  datatype BodyParse = Parsed(request: TestRequest) | Unparsable(message: string)

  datatype Incoming = Preflight | Post(body: BodyParse)

  /** What `await response.json()` produced on an ok probe: `data.model` (empty when absent), or a parse failure. */
  datatype ProbeJson = ProbeData(model: string) | ProbeUnparsable(message: string)

  datatype ProbeOutcome =
    | FetchFailed(thrown: Thrown)
    | Replied(status: nat, text: string, json: ProbeJson)

  /** The probe: endpoint, `Authorization` header, and the body `{model, messages, max_tokens}`. */
  datatype ProbeRequest = ProbeRequest(
    endpoint: string,
    authorization: string,
    model: string,
    messages: seq<Message>,
    maxTokens: nat)

  datatype Body =
    | NullBody
    | Failure(error: string)
    | FailureWithDetails(error: string, details: string)
    | Success(message: string, model: string)

  datatype Response = Response(status: nat, headers: map<string, string>, body: Body)

  datatype Decision = Answer(response: Response) | Probe(request: ProbeRequest)

  const MissingFieldsMessage: string := "Missing required fields"
  const InvalidKeyMessage: string := "API Key 无效或已过期"
  const NotFoundMessage: string := "接口地址不正确或模型不存在"
  const RateLimitedMessage: string := "请求过于频繁，请稍后再试"
  const GenericStatusPrefix: string := "API 返回错误 ("
  const UnreachableMessage: string := "无法连接到服务器，请检查 Base URL"
  const ConnectFailedMessage: string := "连接失败"
  const SuccessMessage: string := "连接成功！"
  const ProbeContent: string := "Hi"
  const ProbeMaxTokens: nat := 5

  predicate Configured(req: TestRequest)
  {
    req.baseUrl != "" && req.apiKey != "" && req.modelName != ""
  }

  function JsonHeaders(): (h: map<string, string>)
    ensures ChatRelay.AllowOrigin in h && h[ChatRelay.AllowOrigin] == "*"
    ensures ChatRelay.ContentType in h && h[ChatRelay.ContentType] == "application/json"
  {
    ChatRelay.WithContentType("application/json")
  }

  /** The message for a non-ok probe status. */
  function StatusMessage(status: nat): (m: string)
    ensures m != ""
    ensures m == InvalidKeyMessage || m == NotFoundMessage || m == RateLimitedMessage || StartsWith(m, GenericStatusPrefix)
  {
    if status == 401 then InvalidKeyMessage
    else if status == 404 then NotFoundMessage
    else if status == 429 then RateLimitedMessage
    else
      assert (GenericStatusPrefix + Decimal(status) + ")")[..|GenericStatusPrefix|] == GenericStatusPrefix;
      GenericStatusPrefix + Decimal(status) + ")"
  }

  /** The message for a caught exception. */
  function ExceptionMessage(thrown: Thrown): (m: string)
    ensures m == UnreachableMessage || m == ConnectFailedMessage || (thrown.ErrorObject? && m == thrown.message)
    ensures thrown.ErrorObject? && !Includes(thrown.message, "fetch") ==> m == thrown.message
  {
    match thrown
    case OtherThrown => ConnectFailedMessage
    case ErrorObject(m) => if Includes(m, "fetch") then UnreachableMessage else m
  }

  /**
   * The three fixed messages are told apart from the generic one: only a
   * status outside 401, 404 and 429 produces the generic prefix, and the
   * generic message names the status.
   */
  lemma StatusMessageTable(status: nat)
    ensures StartsWith(StatusMessage(status), GenericStatusPrefix) <==> status != 401 && status != 404 && status != 429
    ensures status != 401 && status != 404 && status != 429 ==>
      Includes(StatusMessage(status), Decimal(status))
  {
    var m := StatusMessage(status);
    if status != 401 && status != 404 && status != 429 {
      assert m[..|GenericStatusPrefix|] == GenericStatusPrefix;
      IncludesAt(m, Decimal(status), |GenericStatusPrefix|);
    } else {
      assert m[4] != GenericStatusPrefix[4];
    }
  }

  /** An error message mentioning `fetch` always maps to the fixed "cannot reach server" text. */
  lemma FetchErrorsAreUnreachable(prefix: string, suffix: string)
    ensures ExceptionMessage(ErrorObject(prefix + "fetch" + suffix)) == UnreachableMessage
  {
    var m := prefix + "fetch" + suffix;
    assert m[|prefix|..|prefix| + 5] == "fetch";
    IncludesAt(m, "fetch", |prefix|);
  }

  /** The `errorMessage` chain for a non-ok status. */
  method StatusErrorMessage(status: nat) returns (errorMessage: string)
    ensures errorMessage == StatusMessage(status)
  {
    errorMessage := GenericStatusPrefix + Decimal(status) + ")";
    if status == 401 {
      errorMessage := InvalidKeyMessage;
    } else if status == 404 {
      errorMessage := NotFoundMessage;
    } else if status == 429 {
      errorMessage := RateLimitedMessage;
    }
  }

  /** The `errorMessage` chain in the `catch` block. */
  method CaughtErrorMessage(thrown: Thrown) returns (errorMessage: string)
    ensures errorMessage == ExceptionMessage(thrown)
  {
    errorMessage := ConnectFailedMessage;
    if thrown.ErrorObject? {
      if Includes(thrown.message, "fetch") {
        errorMessage := UnreachableMessage;
      } else {
        errorMessage := thrown.message;
      }
    }
  }

  /** The handler up to the probe: preflight, unparsable body, missing fields, or the probe to send. */
  function Plan(incoming: Incoming): (d: Decision)
    ensures incoming.Preflight? ==> d == Answer(Response(200, ChatRelay.CorsHeaders, NullBody))
    ensures incoming.Post? && incoming.body.Parsed? ==>
      (d.Probe? <==> Configured(incoming.body.request)) &&
      (!Configured(incoming.body.request) ==> d == Answer(Response(400, JsonHeaders(), Failure(MissingFieldsMessage))))
    ensures d.Probe? ==> d.request.messages == [Message(User, ProbeContent)] && d.request.maxTokens == ProbeMaxTokens
    ensures d.Probe? ==>
      && incoming.Post? && incoming.body.Parsed?
      && d.request.endpoint == ChatRelay.Endpoint(incoming.body.request.baseUrl)
      && d.request.authorization == ChatRelay.Bearer(incoming.body.request.apiKey)
      && d.request.model == incoming.body.request.modelName
  {
    match incoming
    case Preflight => Answer(Response(200, ChatRelay.CorsHeaders, NullBody))
    case Post(Unparsable(m)) => Answer(Response(200, JsonHeaders(), Failure(ExceptionMessage(ErrorObject(m)))))
    case Post(Parsed(req)) =>
      if !Configured(req) then Answer(Response(400, JsonHeaders(), Failure(MissingFieldsMessage)))
      else Probe(ProbeRequest(ChatRelay.Endpoint(req.baseUrl), ChatRelay.Bearer(req.apiKey), req.modelName,
                              [Message(User, ProbeContent)], ProbeMaxTokens))
  }

  /** The whole handler, given what the probe would produce. */
  method Handle(incoming: Incoming, probe: ProbeOutcome) returns (r: Response)
    ensures Plan(incoming).Answer? ==> r == Plan(incoming).response
    ensures Plan(incoming).Probe? && probe.FetchFailed? ==>
      r == Response(200, JsonHeaders(), Failure(ExceptionMessage(probe.thrown)))
    ensures Plan(incoming).Probe? && probe.Replied? && !ChatRelay.Ok(probe.status) ==>
      r == Response(200, JsonHeaders(), FailureWithDetails(StatusMessage(probe.status), probe.text))
    ensures Plan(incoming).Probe? && probe.Replied? && ChatRelay.Ok(probe.status) ==>
      r == match probe.json
           case ProbeData(model) => Response(200, JsonHeaders(), Success(SuccessMessage, OrElse(model, incoming.body.request.modelName)))
           case ProbeUnparsable(m) => Response(200, JsonHeaders(), Failure(ExceptionMessage(ErrorObject(m))))
    // failures are never reported with the upstream status
    ensures r.status == 200 || (r.status == 400 && r.body == Failure(MissingFieldsMessage))
    ensures r.status == 400 <==> incoming.Post? && incoming.body.Parsed? && !Configured(incoming.body.request)
    ensures r.body.Success? ==> r.body.model != ""
  {
    var decision := Plan(incoming);
    if decision.Answer? {
      return decision.response;
    }
    var req := incoming.body.request;
    match probe {
      case FetchFailed(thrown) =>
        var message := CaughtErrorMessage(thrown);
        r := Response(200, JsonHeaders(), Failure(message));
      case Replied(status, text, json) =>
        if !ChatRelay.Ok(status) {
          var message := StatusErrorMessage(status);
          r := Response(200, JsonHeaders(), FailureWithDetails(message, text));
        } else {
          match json {
            case ProbeData(model) =>
              r := Response(200, JsonHeaders(), Success(SuccessMessage, OrElse(model, req.modelName)));
            case ProbeUnparsable(m) =>
              var message := CaughtErrorMessage(ErrorObject(m));
              r := Response(200, JsonHeaders(), Failure(message));
          }
        }
    }
  }
}
