/** The inference service's HTTP endpoints (ai_service/app/main.py): the
    chat endpoint that serves a request inline or queues it, the job status
    endpoint, and the health check. Job queue, job results and the router
    are inputs: the router's response is passed in, and the queue is a map
    from job id to job state. */
module AiService {
  import opened Wrappers
  import opened Text
  import opened Providers
  import Worker

  /** Timeout, in seconds, of an inline request that sets none. */
  const SYNC_TIMEOUT: int := 30
  /** A timeout above this many seconds sends a request to the queue. */
  const QUEUE_THRESHOLD: int := 60

  const DISPATCHED := "Task dispatched for long processing. Check status with task_id."
  const NOT_READY := "Task not ready or does not exist."
  const NO_SPECIFIC_ERROR := "Task failed with no specific error."
  const TASK_FAILED_PREFIX := "Task failed: "
  const NO_ACTIVE_PROVIDERS := "No active LLM providers due to missing API keys or initialization issues."
  const NO_PROVIDERS_LOADED := "No LLM providers loaded."

  /** The chat endpoint's request body. */
  datatype AIRequest = AIRequest(
    messages: seq<Message>,
    provider: Option<string>,
    model: Option<string>,
    useReasoningModel: bool,
    stream: bool,
    timeout: Option<int>,
    maxTokens: Option<int>,
    temperature: Option<real>,
    responseFormat: Option<map<string, string>>)

  datatype AIResponse = AIResponse(
    success: bool, content: Option<string>, error: Option<string>,
    providerName: Option<string>, modelUsed: Option<string>, taskId: Option<string>)

  /** A JSON reply with its HTTP status, or the framework's plain 500 for
      an exception the endpoint does not catch. */
  datatype Reply = Reply(status: nat, body: AIResponse) | InternalServerError

  /** The timeout of the inline request. */
  function SyncTimeout(req: AIRequest): int {
    if req.timeout.Some? && req.timeout.value != 0 then req.timeout.value
    else if !req.useReasoningModel then SYNC_TIMEOUT
    else DEFAULT_TIMEOUT
  }

  function ToLLMRequest(req: AIRequest): LLMRequest {
    LLMRequest(req.messages, req.model, req.useReasoningModel, req.stream, Some(SyncTimeout(req)),
               req.maxTokens, req.temperature, req.responseFormat)
  }

  /** Long requests go to the queue: reasoning requests and those with a
      timeout above the threshold. */
  predicate IsQueued(req: AIRequest) {
    req.useReasoningModel || (req.timeout.Some? && req.timeout.value != 0 && req.timeout.value > QUEUE_THRESHOLD)
  }

  function ToRaw(msgs: seq<Message>): (r: seq<Worker.RawMessage>)
    ensures |r| == |msgs|
    ensures forall i :: 0 <= i < |msgs| ==> r[i] == Worker.RawMessage(RoleName(msgs[i].role), msgs[i].content)
  {
    seq(|msgs|, i requires 0 <= i < |msgs| => Worker.RawMessage(RoleName(msgs[i].role), msgs[i].content))
  }

  /** The job payload: the request with its unset fields left out. */
  function QueuePayload(req: AIRequest): Worker.Payload {
    Worker.Payload(Some(Worker.MessageList(ToRaw(req.messages))), req.provider, req.model,
                   Some(req.useReasoningModel), Some(req.stream), req.timeout, req.maxTokens,
                   req.temperature, req.responseFormat)
  }

  /** `chat_completions` with the router's response awaited; `routed` is
      the router's response to `ToLLMRequest(req)` and `taskId` the id the
      queue assigns. */
  function ChatCompletions(req: AIRequest, taskId: string, routed: LLMResponse): Reply {
    if IsQueued(req) then
      Reply(200, AIResponse(true, Some(DISPATCHED), None, None, None, Some(taskId)))
    else if Truthy(routed.error) then
      Reply(500, AIResponse(false, None, routed.error, routed.providerName, routed.modelUsed, None))
    else
      Reply(200, AIResponse(true, routed.content, None, routed.providerName, routed.modelUsed, None))
  }

  /** `chat_completions` as written: the `async` router is called without
      `await`, so reading `.error` off the coroutine raises. */
  function ChatCompletionsAsWritten(req: AIRequest, taskId: string): Reply {
    if IsQueued(req) then
      Reply(200, AIResponse(true, Some(DISPATCHED), None, None, None, Some(taskId)))
    else InternalServerError
  }

  /** A queued request is answered with success, its task id and the
      placeholder text, whatever the router would have said: it is never
      routed inline. A timeout of exactly the threshold stays inline. */
  lemma QueuedReplyIgnoresRouter(req: AIRequest, taskId: string, r1: LLMResponse, r2: LLMResponse)
    requires IsQueued(req)
    ensures ChatCompletions(req, taskId, r1) == ChatCompletions(req, taskId, r2)
    ensures ChatCompletions(req, taskId, r1).body == AIResponse(true, Some(DISPATCHED), None, None, None, Some(taskId))
    ensures !req.useReasoningModel ==> req.timeout.value > QUEUE_THRESHOLD
  {
  }

  /** The inline path asks for the caller's timeout, or 30 seconds when
      none is set (the service default applies only to reasoning requests,
      which are always queued); the router's error becomes a 500 reply
      and otherwise its content a successful one. */
  lemma InlineReply(req: AIRequest, taskId: string, routed: LLMResponse)
    requires !IsQueued(req)
    ensures !ToLLMRequest(req).useReasoningModel
    ensures ToLLMRequest(req).timeout == Some(if req.timeout.Some? && req.timeout.value != 0 then req.timeout.value else SYNC_TIMEOUT)
    ensures var reply := ChatCompletions(req, taskId, routed);
      reply.Reply? && reply.body.taskId.None? &&
      reply.body.providerName == routed.providerName && reply.body.modelUsed == routed.modelUsed &&
      (Truthy(routed.error) <==> reply.status == 500) &&
      (reply.body.success <==> reply.status == 200) &&
      (reply.status == 500 ==> reply.body.error == routed.error) &&
      (reply.status == 200 ==> reply.body.content == routed.content)
  {
  }

  /** As written, every inline request fails with the framework's 500,
      even when the router would have answered. */
  lemma UnawaitedRouterFailsInline(req: AIRequest, taskId: string, routed: LLMResponse)
    ensures IsQueued(req) ==> ChatCompletionsAsWritten(req, taskId) == ChatCompletions(req, taskId, routed)
    ensures !IsQueued(req) ==> ChatCompletionsAsWritten(req, taskId) == InternalServerError
    ensures !IsQueued(req) && Usable(routed) ==> ChatCompletions(req, taskId, routed).status == 200
  {
  }

  /** A queued request reaches the worker unchanged: messages, model,
      flags, provider and limits survive, and the worker falls back to its
      own timeout only when the caller set none. */
  lemma {:induction false} QueuedPayloadRebuildsRequest(req: AIRequest)
    ensures Worker.BuildRequest(QueuePayload(req)) == Worker.BuildOk(
      LLMRequest(req.messages, req.model, req.useReasoningModel, req.stream,
                 Some(req.timeout.GetOr(Worker.WORKER_TIMEOUT)), req.maxTokens, req.temperature, req.responseFormat),
      req.provider)
  {
    var raw := ToRaw(req.messages);
    forall i | 0 <= i < |raw| ensures ParseRole(raw[i].role) == Some(req.messages[i].role) {
      match req.messages[i].role
      case System =>
      case User =>
      case Assistant =>
    }
    var parsed := Worker.ParseMessages(raw);
    assert parsed.Some?;
    assert parsed.value == req.messages;
  }

  /** How the job queue sees a job: still waiting (with its queue status
      text), finished with the worker's dictionary, or failed. */
  datatype JobState = Waiting(status: string) | Finished(result: Worker.ResultDict) | Failed(failure: TaskFailure)

  /** The stored result of a failed job: none, an exception (its text and
      the text of its arguments), or a dictionary (its text and entries). */
  datatype TaskFailure =
    | NoResult
    | ExceptionResult(text: string, args: seq<string>)
    | DictResult(text: string, fields: map<string, string>)

  /** What the queue reports for a job id it has never seen. */
  const UNKNOWN_JOB := Waiting("PENDING")

  function FailureMessage(f: TaskFailure): string {
    match f
    case NoResult => NO_SPECIFIC_ERROR
    case ExceptionResult(text, args) => if |args| > 0 then args[0] else text
    case DictResult(text, fields) =>
      if "error" in fields then fields["error"]
      else if |fields| == 0 then NO_SPECIFIC_ERROR else text
  }

  function FailureField(f: TaskFailure, key: string): Option<string> {
    if f.DictResult? && key in f.fields then Some(f.fields[key]) else None
  }

  /** `get_task_status`. */
  function GetTaskStatus(jobs: map<string, JobState>, taskId: string): AIResponse {
    var state := if taskId in jobs then jobs[taskId] else UNKNOWN_JOB;
    match state
    case Finished(d) => AIResponse(true, d.content, d.error, d.providerName, d.modelUsed, Some(taskId))
    case Failed(f) =>
      AIResponse(false, None, Some(TASK_FAILED_PREFIX + FailureMessage(f)),
                 FailureField(f, "provider_name"), FailureField(f, "model_used"), Some(taskId))
    case Waiting(status) => AIResponse(false, Some("Status: " + status), Some(NOT_READY), None, None, Some(taskId))
  }

  /** A finished job reports success and copies its dictionary, even when
      the dictionary carries an error; a failed job reports the prefixed
      error; an unfinished job reports "not ready", and an unknown job id
      cannot be told from a job still pending. */
  lemma TaskStatusRules(jobs: map<string, JobState>, taskId: string)
    ensures var r := GetTaskStatus(jobs, taskId);
      r.taskId == Some(taskId) &&
      (r.success <==> taskId in jobs && jobs[taskId].Finished?) &&
      (taskId in jobs && jobs[taskId].Finished? ==>
         r.content == jobs[taskId].result.content && r.error == jobs[taskId].result.error) &&
      (taskId in jobs && jobs[taskId].Failed? ==>
         r.error.Some? && StartsWith(r.error.value, TASK_FAILED_PREFIX)) &&
      (taskId !in jobs || jobs[taskId].Waiting? ==> r.error == Some(NOT_READY)) &&
      (taskId !in jobs ==> r == GetTaskStatus(jobs[taskId := UNKNOWN_JOB], taskId))
  {
    var r := GetTaskStatus(jobs, taskId);
    if taskId in jobs && jobs[taskId].Failed? {
      assert r.error.value == TASK_FAILED_PREFIX + FailureMessage(jobs[taskId].failure);
    }
  }

  /** The positions of the providers that have an API key, in order. */
  function KeyedPositions(ps: seq<Provider>): (r: seq<nat>)
    ensures |r| <= |ps|
    ensures forall j :: 0 <= j < |r| ==> r[j] < |ps| && ps[r[j]].apiKey != ""
    ensures forall i :: 0 <= i < |ps| && ps[i].apiKey != "" ==> i in r
    ensures forall j, k :: 0 <= j < k < |r| ==> r[j] < r[k]
    decreases |ps|
  {
    if |ps| == 0 then []
    else
      var init := KeyedPositions(ps[..|ps| - 1]);
      assert forall i :: 0 <= i < |ps| - 1 ==> ps[..|ps| - 1][i] == ps[i];
      if ps[|ps| - 1].apiKey != "" then init + [|ps| - 1] else init
  }

  /** Names of the providers that have an API key: one name per keyed
      provider, in the providers' order. */
  function ActiveNames(ps: seq<Provider>): (r: seq<string>)
    ensures |r| == |KeyedPositions(ps)|
    ensures forall j :: 0 <= j < |r| ==> r[j] == ps[KeyedPositions(ps)[j]].Name()
    decreases |ps|
  {
    if |ps| == 0 then []
    else
      var init := ActiveNames(ps[..|ps| - 1]);
      assert forall i :: 0 <= i < |ps| - 1 ==> ps[..|ps| - 1][i] == ps[i];
      if ps[|ps| - 1].apiKey != "" then init + [ps[|ps| - 1].Name()] else init
  }

  /** Every keyed provider is named, the list is no longer than the
      providers, and it is empty exactly when no provider has a key. */
  lemma ActiveNamesCover(ps: seq<Provider>)
    ensures |ActiveNames(ps)| <= |ps|
    ensures forall i :: 0 <= i < |ps| && ps[i].apiKey != "" ==> ps[i].Name() in ActiveNames(ps)
    ensures ActiveNames(ps) == [] <==> forall i :: 0 <= i < |ps| ==> ps[i].apiKey == ""
  {
    var r, pos := ActiveNames(ps), KeyedPositions(ps);
    forall i | 0 <= i < |ps| && ps[i].apiKey != ""
      ensures ps[i].Name() in r
    {
      var j :| 0 <= j < |pos| && pos[j] == i;
      assert r[j] == ps[i].Name();
    }
    if r != [] {
      assert ps[pos[0]].apiKey != "";
    }
  }

  datatype Health = Healthy(activeProviders: seq<string>) | Unhealthy(detail: string)

  /** `health_check`; an unhealthy answer carries HTTP status 503. */
  function HealthCheck(ps: seq<Provider>): (h: Health)
    ensures h.Unhealthy? <==> forall i :: 0 <= i < |ps| ==> ps[i].apiKey == ""
    ensures h.Unhealthy? ==> h.detail == if |ps| == 0 then NO_PROVIDERS_LOADED else NO_ACTIVE_PROVIDERS
    ensures h.Healthy? ==> 0 < |h.activeProviders| <= |ps| && h.activeProviders == ActiveNames(ps)
  {
    ActiveNamesCover(ps);
    var active := ActiveNames(ps);
    if active == [] && |ps| > 0 then Unhealthy(NO_ACTIVE_PROVIDERS)
    else if |ps| == 0 then Unhealthy(NO_PROVIDERS_LOADED)
    else Healthy(active)
  }
}
