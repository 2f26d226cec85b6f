/** The queued-job worker (ai_service/app/tasks.py): it rebuilds a request
    from the job's payload, with its own defaults, asks the router, and
    always returns a result dictionary, encoding failures in its `error`
    field. The router is passed in as the function it computes (see
    `Router.Route`); the worker's retry and time-limit settings belong to
    the job queue and are not modelled. */
module Worker {
  import opened Wrappers
  import opened Text
  import opened Providers
  import ProviderRegistry

  /** Timeout, in seconds, of a rebuilt request whose payload sets none. */
  const WORKER_TIMEOUT: int := 1500

  const NOT_A_LIST := "Payload 'messages' field must be a list."
  /** Stands for pydantic's report on the first message whose role is not
      one of the three literals. The real report runs over several lines
      and counts the message's errors ("2 validation errors for Message"
      when its content is wrong too); only this first line is kept. */
  const INVALID_MESSAGE := "1 validation error for Message"
  const INPUT_ERROR_PREFIX := "Task input data error: "
  const EXECUTION_ERROR_PREFIX := "Task execution failed: "

  /** A message as it travels in the payload: the role is still a string. */
  datatype RawMessage = RawMessage(role: string, content: string)

  /** The payload's `messages` value: a list, or some other JSON value. */
  datatype MessagesField = MessageList(items: seq<RawMessage>) | NotAList

  /** The job payload; `None` stands for a key that is absent. */
  datatype Payload = Payload(
    messages: Option<MessagesField>,
    provider: Option<string>,
    model: Option<string>,
    useReasoningModel: Option<bool>,
    stream: Option<bool>,
    timeout: Option<int>,
    maxTokens: Option<int>,
    temperature: Option<real>,
    responseFormat: Option<map<string, string>>)

  /** The dictionary the job returns: `LLMResponse.model_dump()` or an
      error dictionary of the same four keys. */
  datatype ResultDict = ResultDict(
    content: Option<string>, error: Option<string>, providerName: Option<string>, modelUsed: Option<string>)

  function ToDict(r: LLMResponse): ResultDict {
    ResultDict(r.content, r.error, r.providerName, r.modelUsed)
  }

  /** Validation of the payload's messages, in order; the first bad role
      stops it. */
  function ParseMessages(raw: seq<RawMessage>): (r: Option<seq<Message>>)
    ensures r.Some? <==> forall i :: 0 <= i < |raw| ==> ParseRole(raw[i].role).Some?
    ensures r.Some? ==> |r.value| == |raw|
    ensures r.Some? ==> forall i :: 0 <= i < |raw| ==> r.value[i] == Message(ParseRole(raw[i].role).value, raw[i].content)
    decreases |raw|
  {
    if |raw| == 0 then Some([])
    else
      match ParseRole(raw[0].role)
      case None => None
      case Some(role) =>
        match ParseMessages(raw[1..])
        case None =>
          assert forall i :: 1 <= i < |raw| ==> raw[i] == raw[1..][i - 1];
          None
        case Some(rest) =>
          assert forall i :: 1 <= i < |raw| ==> raw[i] == raw[1..][i - 1];
          Some([Message(role, raw[0].content)] + rest)
  }

  /** Building the request: a value error (which includes pydantic's
      validation errors), or the request and the provider to ask. */
  datatype Built = BuildOk(req: LLMRequest, provider: Option<string>) | InputError(message: string)

  function BuildRequest(p: Payload): Built {
    var raw := p.messages.GetOr(MessageList([]));
    if raw.NotAList? then InputError(NOT_A_LIST)
    else
      match ParseMessages(raw.items)
      case None => InputError(INVALID_MESSAGE)
      case Some(msgs) =>
        BuildOk(LLMRequest(msgs, p.model, p.useReasoningModel.GetOr(true), p.stream.GetOr(false),
                           Some(p.timeout.GetOr(WORKER_TIMEOUT)), p.maxTokens, p.temperature, p.responseFormat),
                p.provider)
  }

  /** `model_used` of an error dictionary. The flag is read without a
      default here, so an absent flag counts as false. */
  function ErrorModel(p: Payload, cfg: ProviderRegistry.Settings): string {
    if Truthy(p.model) then p.model.value
    else if p.useReasoningModel == Some(true) then cfg.deepSeek.reasoningModel
    else cfg.deepSeek.defaultModel
  }

  function ErrorDict(p: Payload, cfg: ProviderRegistry.Settings, error: string): ResultDict {
    ResultDict(None, Some(error), p.provider, Some(ErrorModel(p, cfg)))
  }

  /** The job with the router's result awaited: `router(req, name)` is the
      router's response to the rebuilt request. */
  function GenerateAIResponseTask(p: Payload, cfg: ProviderRegistry.Settings,
                                  router: (LLMRequest, Option<string>) -> LLMResponse): ResultDict
  {
    match BuildRequest(p)
    case InputError(msg) => ErrorDict(p, cfg, INPUT_ERROR_PREFIX + msg)
    case BuildOk(req, provider) => ToDict(router(req, provider))
  }

  /** Python's message when `model_dump` is looked up on the coroutine an
      un-awaited `async def` call returns. */
  const COROUTINE_NO_MODEL_DUMP := "'coroutine' object has no attribute 'model_dump'"

  /** The job as written: the router is `async` and is called without
      `await`, so the call yields a coroutine, `model_dump` raises, and the
      generic handler encodes that. */
  function GenerateAIResponseTaskAsWritten(p: Payload, cfg: ProviderRegistry.Settings): ResultDict {
    match BuildRequest(p)
    case InputError(msg) => ErrorDict(p, cfg, INPUT_ERROR_PREFIX + msg)
    case BuildOk(_, _) => ErrorDict(p, cfg, EXECUTION_ERROR_PREFIX + COROUTINE_NO_MODEL_DUMP)
  }

  /** The job never raises: it returns either the router's response, with
      the payload's provider name passed to the router, or an error
      dictionary with no content, the payload's provider and the fallback
      model, whose error names an input error. A non-list `messages` value
      is such an input error. */
  lemma TaskResultShape(p: Payload, cfg: ProviderRegistry.Settings,
                        router: (LLMRequest, Option<string>) -> LLMResponse)
    ensures var r := GenerateAIResponseTask(p, cfg, router);
      match BuildRequest(p)
      case BuildOk(req, provider) => provider == p.provider && r == ToDict(router(req, p.provider))
      case InputError(msg) =>
        r.content.None? && r.error.Some? && StartsWith(r.error.value, INPUT_ERROR_PREFIX) &&
        r.providerName == p.provider && r.modelUsed == Some(ErrorModel(p, cfg))
    ensures p.messages == Some(NotAList) ==>
      GenerateAIResponseTask(p, cfg, router) == ErrorDict(p, cfg, INPUT_ERROR_PREFIX + NOT_A_LIST)
  {
  }

  /** Missing keys take the worker's defaults: the reasoning model, no
      streaming and a 1500-second timeout; present keys are used as given. */
  lemma PayloadDefaults(p: Payload)
    requires BuildRequest(p).BuildOk?
    ensures var req := BuildRequest(p).req;
      req.useReasoningModel == (p.useReasoningModel != Some(false)) &&
      req.stream == (p.stream == Some(true)) &&
      req.timeout == Some(if p.timeout.Some? then p.timeout.value else WORKER_TIMEOUT) &&
      req.model == p.model
  {
  }

  /** The error dictionary reports the payload's model when it names one,
      else the DeepSeek reasoning model exactly when the flag is true, else
      the DeepSeek default model. With the flag absent the rebuilt request
      would have used the reasoning model, yet an error names the default. */
  lemma ErrorModelRule(p: Payload, cfg: ProviderRegistry.Settings)
    ensures Truthy(p.model) ==> ErrorModel(p, cfg) == p.model.value
    ensures !Truthy(p.model) ==>
      (ErrorModel(p, cfg) == cfg.deepSeek.reasoningModel <== p.useReasoningModel == Some(true)) &&
      (ErrorModel(p, cfg) == cfg.deepSeek.defaultModel <== p.useReasoningModel != Some(true))
    ensures !Truthy(p.model) && p.useReasoningModel.None? && BuildRequest(p).BuildOk? ==>
      BuildRequest(p).req.useReasoningModel && ErrorModel(p, cfg) == cfg.deepSeek.defaultModel
  {
  }

  /** As written, no well-formed payload ever yields content: every such
      job ends with the execution-failure error, whatever the providers
      would have answered. */
  lemma UnawaitedRouterNeverAnswers(p: Payload, cfg: ProviderRegistry.Settings,
                                    router: (LLMRequest, Option<string>) -> LLMResponse)
    requires BuildRequest(p).BuildOk?
    ensures GenerateAIResponseTaskAsWritten(p, cfg).content.None?
    ensures GenerateAIResponseTaskAsWritten(p, cfg).error == Some(EXECUTION_ERROR_PREFIX + COROUTINE_NO_MODEL_DUMP)
    ensures router(BuildRequest(p).req, p.provider).content.Some? ==>
      GenerateAIResponseTask(p, cfg, router) != GenerateAIResponseTaskAsWritten(p, cfg)
  {
  }
}
