/** The data exchanged with the language-model providers, the provider
    record, the model-name rule and the shape of a provider adapter
    (ai_service/app/llm_providers/base_provider.py and the three adapters). */
module Providers {
  import opened Wrappers

  /** Seconds the adapters pass to the remote call when a request sets none. */
  const DEFAULT_TIMEOUT: nat := 120

  /** A chat message's role: pydantic admits exactly these three literals. */
  datatype MessageRole = System | User | Assistant

  function RoleName(r: MessageRole): string {
    match r
    case System => "system"
    case User => "user"
    case Assistant => "assistant"
  }

  /** Validation of a raw role string into a `MessageRole`. */
  function ParseRole(s: string): (r: Option<MessageRole>)
    ensures r.Some? <==> s in {"system", "user", "assistant"}
    ensures r.Some? ==> RoleName(r.value) == s
  {
    if s == "system" then Some(System)
    else if s == "user" then Some(User)
    else if s == "assistant" then Some(Assistant)
    else None
  }

  datatype Message = Message(role: MessageRole, content: string)

  datatype LLMRequest = LLMRequest(
    messages: seq<Message>,
    model: Option<string>,
    useReasoningModel: bool,
    stream: bool,
    timeout: Option<int>,
    maxTokens: Option<int>,
    temperature: Option<real>,
    responseFormat: Option<map<string, string>>)

  /** A request built from its messages alone: every other field takes its
      declared default. */
  function NewRequest(messages: seq<Message>): LLMRequest {
    LLMRequest(messages, None, false, false, None, None, None, None)
  }

  /** Every field of a response is optional, so content and error may both
      be absent or both be present. */
  datatype LLMResponse = LLMResponse(
    content: Option<string>,
    error: Option<string>,
    providerName: Option<string>,
    modelUsed: Option<string>)

  function ErrorResponse(error: string): LLMResponse {
    LLMResponse(None, Some(error), None, None)
  }

  /** Python truthiness of an optional string: present and non-empty. */
  predicate Truthy(s: Option<string>) {
    s.Some? && s.value != ""
  }

  /** A response the router accepts: it has content and no error. */
  predicate Usable(r: LLMResponse) {
    Truthy(r.content) && !Truthy(r.error)
  }

  datatype ProviderKind = DeepSeek | SiliconFlow | VolcEngine

  /** The `provider_name` each adapter sets on itself. */
  function ProviderName(k: ProviderKind): string {
    match k
    case DeepSeek => "DeepSeek"
    case SiliconFlow => "SiliconFlow"
    case VolcEngine => "VolcEngine"
  }

  /** The four settings an adapter hands to the base constructor. */
  datatype ProviderSettings = ProviderSettings(
    apiKey: string, baseUrl: string, defaultModel: string, reasoningModel: string)

  datatype Provider = Provider(
    kind: ProviderKind, apiKey: string, baseUrl: string,
    defaultModel: string, reasoningModel: string)
  {
    function Name(): string { ProviderName(kind) }
  }

  /** The base constructor: the settings are stored as given. */
  function NewProvider(kind: ProviderKind, s: ProviderSettings): Provider {
    Provider(kind, s.apiKey, s.baseUrl, s.defaultModel, s.reasoningModel)
  }

  /** `get_model_name`. */
  function GetModelName(p: Provider, useReasoningModel: bool): string {
    if useReasoningModel then p.reasoningModel else p.defaultModel
  }

  /** The model an adapter asks for: the request's own model when it is a
      non-empty string, else the provider's choice. */
  function ResolveModel(p: Provider, req: LLMRequest): (m: string)
    ensures Truthy(req.model) ==> m == req.model.value
    ensures !Truthy(req.model) && req.useReasoningModel ==> m == p.reasoningModel
    ensures !Truthy(req.model) && !req.useReasoningModel ==> m == p.defaultModel
  {
    if Truthy(req.model) then req.model.value else GetModelName(p, req.useReasoningModel)
  }

  /** The timeout an adapter passes to the remote call. */
  function CallTimeout(req: LLMRequest): (t: int)
    ensures req.timeout.Some? && req.timeout.value != 0 ==> t == req.timeout.value
    ensures req.timeout.None? || req.timeout.value == 0 ==> t == DEFAULT_TIMEOUT
  {
    if req.timeout.Some? && req.timeout.value != 0 then req.timeout.value else DEFAULT_TIMEOUT
  }

  /** What the remote chat-completion call did: it returned the first
      choice's content (possibly null), or it raised with a message. */
  datatype ApiOutcome = Completed(content: Option<string>) | ApiRaised(message: string)

  /** Python's message when the adapter slices a null content for its log. */
  const NONE_NOT_SUBSCRIPTABLE := "'NoneType' object is not subscriptable"

  /** `generate_response` of any adapter: every exception, including the one
      a null content causes, is turned into an error response. */
  function GenerateResponse(p: Provider, req: LLMRequest, api: ApiOutcome): (r: LLMResponse)
    ensures r.providerName == Some(p.Name()) && r.modelUsed == Some(ResolveModel(p, req))
    ensures (r.content.Some? && r.error.None?) || (r.content.None? && r.error.Some?)
    ensures r.content.Some? <==> api.Completed? && api.content.Some?
    ensures r.content.Some? ==> r.content == api.content
    ensures api.ApiRaised? ==> r.error == Some(api.message)
  {
    var model := ResolveModel(p, req);
    match api
    case Completed(Some(c)) => LLMResponse(Some(c), None, Some(p.Name()), Some(model))
    case Completed(None) => LLMResponse(None, Some(NONE_NOT_SUBSCRIPTABLE), Some(p.Name()), Some(model))
    case ApiRaised(msg) => LLMResponse(None, Some(msg), Some(p.Name()), Some(model))
  }

  /** A request built with defaults asks every provider for its default
      model, whatever the provider's settings. */
  lemma DefaultRequestUsesDefaultModel(kind: ProviderKind, s: ProviderSettings, messages: seq<Message>)
    ensures ResolveModel(NewProvider(kind, s), NewRequest(messages)) == s.defaultModel
    ensures CallTimeout(NewRequest(messages)) == DEFAULT_TIMEOUT
    ensures !NewRequest(messages).stream && NewRequest(messages).responseFormat.None?
  {
  }

  /** An adapter's response is usable exactly when the remote call returned
      non-empty content. */
  lemma AdapterUsableIff(p: Provider, req: LLMRequest, api: ApiOutcome)
    ensures Usable(GenerateResponse(p, req, api)) <==> api.Completed? && Truthy(api.content)
  {
  }
}
