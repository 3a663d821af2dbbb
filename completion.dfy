/**
 * Request and response shaping of `LLMService.getCompletion` and
 * `testConnection`. The HTTP exchange is the parameter `send`, which maps the
 * request that is built to what the network returns.
 */
module Completion {
  import opened Wrappers
  import opened ConfigStore

  datatype Role = System | User | Assistant

  /** One chat message. */
  datatype Message = Message(role: Role, content: string)

  /** The JSON body of the request: exactly these four fields. */
  datatype Payload = Payload(model: string, messages: seq<Message>, maxTokens: int, temperature: real)

  /** The POST request: target URL, body and the two headers. */
  datatype Request = Request(url: string, payload: Payload, authorization: string, contentType: string)

  /** The provider's token counts, passed through as received. */
  datatype Usage = Usage(promptTokens: int, completionTokens: int, totalTokens: int)

  /** `choices[i].message`, whose `content` may be missing. */
  datatype ChoiceMessage = ChoiceMessage(content: Option<string>)

  /** `choices[i]`, whose `message` may be missing. */
  datatype Choice = Choice(message: Option<ChoiceMessage>)

  /** The body of a 2xx response; each field the code reads may be missing. */
  datatype ResponseBody = ResponseBody(choices: Option<seq<Choice>>, usage: Option<Usage>)

  /**
   * What the HTTP client returns: a 2xx response, or an HTTP client error with
   * the provider's `error.message` when its body has one and the client's own message.
   */
  datatype HttpOutcome =
    | Ok(body: ResponseBody)
    | Failed(providerMessage: Option<string>, transportMessage: string)

  /** A completion: the generated text (missing if the provider sent none), the usage and the cost. */
  datatype CompletionResponse = CompletionResponse(content: Option<string>, usage: Usage, cost: real)

  /** Which field of a 2xx body was missing when the code read it. */
  datatype Malformation = NoUsage | NoChoice | NoMessage

  /**
   * `ApiError` is the `Error("API Error: …")` built for an HTTP client failure;
   * `ProtocolError` is the `TypeError` rethrown unchanged for a malformed 2xx body.
   */
  datatype CompletionError = ApiError(message: string) | ProtocolError(malformation: Malformation)

  const DefaultEndpoint: string := "https://api.openai.com/v1/chat/completions"
  const BearerPrefix: string := "Bearer "
  const ApiErrorPrefix: string := "API Error: "
  const ProbeText: string := "Hello, this is a test message. Please respond with \"OK\"."

  /** The single message `testConnection` sends. */
  const Probe: Message := Message(User, ProbeText)

  /** A JavaScript string is falsy exactly when it is empty; `undefined` is falsy too. */
  predicate Truthy(s: Option<string>)
  {
    s.Some? && s.value != ""
  }

  /** The URL a config sends to: its own `baseUrl` when that is set and non-empty, else the default endpoint. */
  function Endpoint(config: LLMConfig): (url: string)
    ensures url != ""
    ensures Truthy(config.baseUrl) ==> url == config.baseUrl.value
    ensures !Truthy(config.baseUrl) ==> url == DefaultEndpoint
  {
    if Truthy(config.baseUrl) then config.baseUrl.value else DefaultEndpoint
  }

  /** The request `getCompletion` posts for `config` and `messages`. */
  function BuildRequest(config: LLMConfig, messages: seq<Message>): (req: Request)
    ensures req.url == Endpoint(config)
    ensures req.payload.model == config.model && req.payload.messages == messages
    ensures req.payload.maxTokens == config.maxTokens && req.payload.temperature == config.temperature
    ensures BearerPrefix <= req.authorization && req.authorization[|BearerPrefix|..] == config.apiKey
    ensures req.contentType == "application/json"
  {
    Request(
      Endpoint(config),
      Payload(config.model, messages, config.maxTokens, config.temperature),
      BearerPrefix + config.apiKey,
      "application/json")
  }

  /** `provider || transport`: the provider's message unless it is missing or empty. */
  function ErrorDetail(providerMessage: Option<string>, transportMessage: string): (detail: string)
    ensures Truthy(providerMessage) ==> detail == providerMessage.value
    ensures !Truthy(providerMessage) ==> detail == transportMessage
  {
    if Truthy(providerMessage) then providerMessage.value else transportMessage
  }

  /** Reading `usage`, then `choices[0].message.content`, from a 2xx body; the cost is charged on all tokens at the config's flat rate. */
  function ReadBody(body: ResponseBody, costPer1kTokens: real): (r: Result<CompletionResponse, CompletionError>)
    ensures r.Failure? ==> r.error.ProtocolError?
    ensures r.Success? <==> WellFormed(body)
    ensures r.Success? ==>
      && r.value.usage == body.usage.value
      && r.value.content == body.choices.value[0].message.value.content
      && r.value.cost * 1000.0 == r.value.usage.totalTokens as real * costPer1kTokens
  {
    if body.usage.None? then Failure(ProtocolError(NoUsage))
    else if body.choices.None? || |body.choices.value| == 0 then Failure(ProtocolError(NoChoice))
    else if body.choices.value[0].message.None? then Failure(ProtocolError(NoMessage))
    else
      var usage := body.usage.value;
      var cost := (usage.totalTokens as real / 1000.0) * costPer1kTokens;
      Success(CompletionResponse(body.choices.value[0].message.value.content, usage, cost))
  }

  /** The body carries `usage` and a first choice with a `message`. */
  predicate WellFormed(body: ResponseBody)
  {
    && body.usage.Some?
    && body.choices.Some? && |body.choices.value| > 0
    && body.choices.value[0].message.Some?
  }

  /**
   * `getCompletion`: posts the request built from `config` and `messages` once
   * and shapes what comes back. The pricing table is not consulted.
   */
  function GetCompletion(config: LLMConfig, messages: seq<Message>, send: Request -> HttpOutcome)
    : (r: Result<CompletionResponse, CompletionError>)
    ensures send(BuildRequest(config, messages)).Failed? <==> r.Failure? && r.error.ApiError?
    ensures r.Failure? && r.error.ApiError? ==> ApiErrorPrefix <= r.error.message
    ensures r.Success? <==> send(BuildRequest(config, messages)).Ok? && WellFormed(send(BuildRequest(config, messages)).body)
  {
    match send(BuildRequest(config, messages))
    case Failed(providerMessage, transportMessage) =>
      Failure(ApiError(ApiErrorPrefix + ErrorDetail(providerMessage, transportMessage)))
    case Ok(body) =>
      ReadBody(body, config.costPer1kTokens)
  }

  /** `testConnection`: true exactly when completing the one-message probe succeeds. */
  function TestConnection(config: LLMConfig, send: Request -> HttpOutcome): (ok: bool)
    ensures ok <==> GetCompletion(config, [Probe], send).Success?
  {
    GetCompletion(config, [Probe], send).Success?
  }

  /** An HTTP failure surfaces the provider's message when it has one, else the client's message, after the fixed prefix. */
  lemma ApiErrorMessage(config: LLMConfig, messages: seq<Message>, send: Request -> HttpOutcome)
    requires send(BuildRequest(config, messages)).Failed?
    ensures var out := send(BuildRequest(config, messages));
      GetCompletion(config, messages, send) ==
        Failure(ApiError(ApiErrorPrefix + if Truthy(out.providerMessage) then out.providerMessage.value else out.transportMessage))
  {
  }

  /** On success the content is the first choice's, the usage is passed through, and the cost is total tokens per 1,000 at the flat rate. */
  lemma SuccessShape(config: LLMConfig, messages: seq<Message>, send: Request -> HttpOutcome)
    requires GetCompletion(config, messages, send).Success?
    ensures var body := send(BuildRequest(config, messages)).body;
      var c := GetCompletion(config, messages, send).value;
      && c.content == body.choices.value[0].message.value.content
      && c.usage == body.usage.value
      && c.cost == (body.usage.value.totalTokens as real / 1000.0) * config.costPer1kTokens
  {
  }

  /** The cost is non-negative when the total token count and the rate are. */
  lemma CostIsNonNegative(config: LLMConfig, messages: seq<Message>, send: Request -> HttpOutcome)
    requires GetCompletion(config, messages, send).Success?
    requires GetCompletion(config, messages, send).value.usage.totalTokens >= 0
    requires config.costPer1kTokens >= 0.0
    ensures GetCompletion(config, messages, send).value.cost >= 0.0
  {
  }

  /** A provider answering `choices: [{message: {content: "OK"}}]` with 10 + 2 = 12 tokens is charged for 12 tokens. */
  lemma OkResponseExample(config: LLMConfig, messages: seq<Message>, send: Request -> HttpOutcome)
    requires send(BuildRequest(config, messages)) ==
      Ok(ResponseBody(Some([Choice(Some(ChoiceMessage(Some("OK"))))]), Some(Usage(10, 2, 12))))
    ensures GetCompletion(config, messages, send) ==
      Success(CompletionResponse(Some("OK"), Usage(10, 2, 12), 0.012 * config.costPer1kTokens))
  {
  }

  /** A 401 whose body says "invalid key" fails with "API Error: invalid key", and the probe reports false. */
  lemma InvalidKeyExample(config: LLMConfig, send: Request -> HttpOutcome)
    requires send(BuildRequest(config, [Probe])) == Failed(Some("invalid key"), "Request failed with status code 401")
    ensures GetCompletion(config, [Probe], send) == Failure(ApiError("API Error: invalid key"))
    ensures !TestConnection(config, send)
  {
    assert ApiErrorPrefix + "invalid key" == "API Error: invalid key";
  }

  /** A 2xx body without `usage` fails with a protocol error, not an API error, whatever else it holds. */
  lemma MissingUsageExample(config: LLMConfig, messages: seq<Message>, send: Request -> HttpOutcome)
    requires send(BuildRequest(config, messages)).Ok?
    requires send(BuildRequest(config, messages)).body.usage.None?
    ensures GetCompletion(config, messages, send) == Failure(ProtocolError(NoUsage))
  {
  }
}
