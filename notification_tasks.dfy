/** The AI teacher (backend/notifications/tasks.py): the asker's context
    with a character budget on the conversation history, the prompt cut
    to the service's limit, the choice of the reasoning model, and the
    task that answers each unread message sent to an AI teacher. The
    asker's profile lines, the message history and the AI service's reply
    are inputs. */
module NotificationTasks {
  import opened Wrappers
  import opened Text
  import opened Accounts
  import opened NotificationModels
  import NotificationViews
  import Providers
  import AiService

  /** The AI teachers' usernames; the second asks for the reasoning model. */
  const AI_TEACHER_USERNAMES: seq<string> := ["teacherDeepseek", "teacherDeepseekR"]
  const REASONING_TEACHER := "teacherDeepseekR"
  /** Characters the asker's context may take, header included. */
  const MAX_CONTEXT_CHARS := 8000
  /** How many of the latest messages the history draws on. */
  const HISTORY_WINDOW := 10
  /** Characters the system and user prompts may take together. */
  const PROMPT_LIMIT := 10000

  const HISTORY_HEADER := "\n### 历史交流记录 (最近)"
  const NO_HISTORY := "- 暂无交流历史"

  /** A message between the asker and an AI teacher, as the history shows it. */
  datatype HistoryMessage = HistoryMessage(senderUsername: string, senderRole: string, content: string)

  /** The speaker's label: the AI teachers, students, teachers, or anyone. */
  function SenderLabel(m: HistoryMessage): string {
    if m.senderUsername in AI_TEACHER_USERNAMES then "AI助教"
    else if m.senderRole == STUDENT then "学生"
    else if m.senderRole == TEACHER then "教师"
    else "用户"
  }

  function Line(m: HistoryMessage): string {
    "- **[" + SenderLabel(m) + "]**: " + m.content
  }

  function Min(a: nat, b: nat): nat {
    if a < b then a else b
  }

  /** The messages the history draws on, from the newest-first query:
      the latest ten, oldest first. */
  function Window(newestFirst: seq<HistoryMessage>): (r: seq<HistoryMessage>)
    ensures |r| == Min(HISTORY_WINDOW, |newestFirst|)
    ensures forall i :: 0 <= i < |r| ==> r[i] == newestFirst[|r| - 1 - i]
  {
    var n := Min(HISTORY_WINDOW, |newestFirst|);
    seq(n, i requires 0 <= i < n => newestFirst[n - 1 - i])
  }

  function Lines(ms: seq<HistoryMessage>): (r: seq<string>)
    ensures |r| == |ms| && forall i :: 0 <= i < |ms| ==> r[i] == Line(ms[i])
  {
    seq(|ms|, i requires 0 <= i < |ms| => Line(ms[i]))
  }

  /** The total length of some strings. */
  function TotalLen(parts: seq<string>): nat
    decreases |parts|
  {
    if |parts| == 0 then 0 else |parts[0]| + TotalLen(parts[1..])
  }

  /** The history lines kept when `header` characters precede them and
      `used` are already spent: lines in order until the first that would
      pass the budget. */
  function Budgeted(lines: seq<string>, header: nat, used: nat): (r: seq<string>)
    ensures |r| <= |lines|
    decreases |lines|
  {
    if |lines| == 0 || header + used + |lines[0]| > MAX_CONTEXT_CHARS then []
    else [lines[0]] + Budgeted(lines[1..], header, used + |lines[0]|)
  }

  /** The history loop of `get_sender_context`. */
  method BuildHistory(header: nat, lines: seq<string>) returns (log: seq<string>)
    ensures log == Budgeted(lines, header, 0)
  {
    log := [];
    var used: nat := 0;
    var i := 0;
    while i < |lines|
      invariant 0 <= i <= |lines|
      invariant log + Budgeted(lines[i..], header, used) == Budgeted(lines, header, 0)
    {
      assert lines[i..][1..] == lines[i + 1..];
      if header + used + |lines[i]| > MAX_CONTEXT_CHARS {
        break;
      }
      log := log + [lines[i]];
      used := used + |lines[i]|;
      i := i + 1;
    }
    assert lines[i..] == [] ==> Budgeted(lines[i..], header, used) == [];
  }

  /** The kept lines are a prefix of the lines. */
  lemma {:induction false} BudgetedIsPrefix(lines: seq<string>, header: nat, used: nat)
    ensures Budgeted(lines, header, used) == lines[..|Budgeted(lines, header, used)|]
    decreases |lines|
  {
    if |lines| > 0 && header + used + |lines[0]| <= MAX_CONTEXT_CHARS {
      BudgetedIsPrefix(lines[1..], header, used + |lines[0]|);
    }
  }

  /** Whenever a line is kept, header, spent and kept characters fit the
      budget together. */
  lemma {:induction false} BudgetedFits(lines: seq<string>, header: nat, used: nat)
    ensures Budgeted(lines, header, used) != [] ==> header + used + TotalLen(Budgeted(lines, header, used)) <= MAX_CONTEXT_CHARS
    decreases |lines|
  {
    if |lines| > 0 && header + used + |lines[0]| <= MAX_CONTEXT_CHARS {
      var rest := Budgeted(lines[1..], header, used + |lines[0]|);
      BudgetedFits(lines[1..], header, used + |lines[0]|);
      assert Budgeted(lines, header, used) == [lines[0]] + rest;
      assert ([lines[0]] + rest)[1..] == rest;
    }
  }

  /** The first line left out is the one that would pass the budget. */
  lemma {:induction false} BudgetedStopsAtOverflow(lines: seq<string>, header: nat, used: nat)
    ensures var kept := Budgeted(lines, header, used);
      |kept| < |lines| ==> header + used + TotalLen(kept) + |lines[|kept|]| > MAX_CONTEXT_CHARS
    decreases |lines|
  {
    BudgetedIsPrefix(lines, header, used);
    if |lines| > 0 && header + used + |lines[0]| <= MAX_CONTEXT_CHARS {
      var rest := Budgeted(lines[1..], header, used + |lines[0]|);
      BudgetedStopsAtOverflow(lines[1..], header, used + |lines[0]|);
      assert Budgeted(lines, header, used) == [lines[0]] + rest;
      assert ([lines[0]] + rest)[1..] == rest;
    }
  }

  /** The parts of the asker's context: the profile lines and the history
      header, then the kept history lines, or the no-history line. */
  function ContextParts(profile: seq<string>, newestFirst: seq<HistoryMessage>): seq<string> {
    var head := profile + [HISTORY_HEADER];
    var log := Budgeted(Lines(Window(newestFirst)), TotalLen(head), 0);
    head + (if log != [] then log else [NO_HISTORY])
  }

  /** `get_sender_context`, given the profile lines it builds from the
      asker's record and the messages between the asker and the AI
      teachers, newest first. */
  method SenderContext(profile: seq<string>, newestFirst: seq<HistoryMessage>) returns (context: string)
    ensures context == Join(ContextParts(profile, newestFirst), "\n")
  {
    var head := profile + [HISTORY_HEADER];
    var log := BuildHistory(TotalLen(head), Lines(Window(newestFirst)));
    if log != [] {
      context := Join(head + log, "\n");
    } else {
      context := Join(head + [NO_HISTORY], "\n");
    }
  }

  lemma {:induction false} JoinEndsWithLast(parts: seq<string>, sep: string)
    requires |parts| > 0
    ensures EndsWith(Join(parts, sep), parts[|parts| - 1])
    decreases |parts|
  {
    if |parts| > 1 {
      JoinEndsWithLast(parts[1..], sep);
      var j := Join(parts[1..], sep);
      var x := parts[|parts| - 1];
      assert parts[1..][|parts| - 2] == x;
      assert Join(parts, sep) == parts[0] + sep + j;
      assert (parts[0] + sep + j)[|parts[0] + sep + j| - |x|..] == j[|j| - |x|..];
    }
  }

  /** The history is drawn from the latest ten messages, oldest first,
      and kept only while it fits the budget with the header; without a
      kept line the context ends with the no-history line. */
  lemma ContextRules(profile: seq<string>, newestFirst: seq<HistoryMessage>)
    ensures var head := profile + [HISTORY_HEADER];
      var lines := Lines(Window(newestFirst));
      var log := Budgeted(lines, TotalLen(head), 0);
      |lines| <= HISTORY_WINDOW &&
      (forall i :: 0 <= i < |lines| ==> lines[i] == Line(newestFirst[|lines| - 1 - i])) &&
      log == lines[..|log|] &&
      (log != [] ==> TotalLen(head) + TotalLen(log) <= MAX_CONTEXT_CHARS) &&
      (|log| < |lines| ==> TotalLen(head) + TotalLen(log) + |lines[|log|]| > MAX_CONTEXT_CHARS) &&
      (log == [] ==> EndsWith(Join(ContextParts(profile, newestFirst), "\n"), NO_HISTORY))
  {
    var head := profile + [HISTORY_HEADER];
    var lines := Lines(Window(newestFirst));
    BudgetedIsPrefix(lines, TotalLen(head), 0);
    BudgetedFits(lines, TotalLen(head), 0);
    BudgetedStopsAtOverflow(lines, TotalLen(head), 0);
    var parts := ContextParts(profile, newestFirst);
    JoinEndsWithLast(parts, "\n");
  }

  const PROMPT_HEAD := "你是一位资深、有耐心、善于启发学生的AI助教老师。你的名字是 "
  const PROMPT_TAIL := "。你的目标是根据用户提供的背景信息和历史交流，以富有人情味和启发性的方式回答本次问题，而不是直接给出最终答案。请总是尝试引导用户自己思考。请直接回复内容，不要进行额外确认。"

  function SystemPrompt(aiTeacher: User): string {
    PROMPT_HEAD + DisplayName(aiTeacher) + PROMPT_TAIL
  }

  /** Python's `str` of an optional text. */
  function Shown(s: Option<string>): string {
    if s.Some? then s.value else "None"
  }

  function UserPrompt(context: string, message: Notification): string {
    context + "\n\n## 本次问题\n**标题**: " + Shown(message.title) + "\n**内容**: " + message.content
  }

  /** Python's `s[:k]`, a negative `k` counting from the end. */
  function PyPrefix(s: string, k: int): (r: string)
    ensures |r| <= |s| && r == s[..|r|]
    ensures 0 <= k ==> |r| == Min(k, |s|)
  {
    if 0 <= k then Take(s, k) else if |s| + k <= 0 then "" else s[..|s| + k]
  }

  /** The user prompt after the length check. */
  function FitPrompt(system: string, user: string): string {
    if |system| + |user| > PROMPT_LIMIT then PyPrefix(user, PROMPT_LIMIT - |system|) else user
  }

  /** The user prompt is cut only when both prompts pass the limit, and
      then to a prefix that, with a system prompt within the limit, makes
      exactly the limit. */
  lemma FitPromptRules(system: string, user: string)
    ensures var r := FitPrompt(system, user);
      |r| <= |user| && r == user[..|r|] &&
      (|system| + |user| <= PROMPT_LIMIT ==> r == user) &&
      (|system| + |user| > PROMPT_LIMIT && |system| <= PROMPT_LIMIT ==> |system| + |r| == PROMPT_LIMIT)
  {
  }

  /** The request body the task posts to the AI service. */
  function ServiceRequest(aiTeacher: User, system: string, user: string): AiService.AIRequest {
    AiService.AIRequest([Providers.Message(Providers.System, system), Providers.Message(Providers.User, user)],
                        None, None, aiTeacher.username == REASONING_TEACHER, false, None, None, None, None)
  }

  /** Only the reasoning teacher's requests ask for the reasoning model,
      and the AI service queues exactly those. */
  lemma ModelChoice(aiTeacher: User, system: string, user: string)
    ensures ServiceRequest(aiTeacher, system, user).useReasoningModel <==> aiTeacher.username == REASONING_TEACHER
    ensures AiService.IsQueued(ServiceRequest(aiTeacher, system, user)) <==> aiTeacher.username == REASONING_TEACHER
  {
  }

  /** How the call to the AI service ended: a reply with its status, or
      an exception on the way. */
  datatype ServiceCall = Responded(reply: AiService.Reply) | Unreachable

  const APOLOGY := "抱歉，AI助教暂时无法连接，请稍后再试。错误: "

  /** The reply text taken from a successful response body. */
  function AiContent(body: AiService.AIResponse): string {
    if body.success && body.content.Some? && body.content.value != "" then body.content.value
    else APOLOGY + Shown(body.error)
  }

  /** The body of a call that did not raise, if any: a failed transport
      and an error status both raise. */
  function Delivered(call: ServiceCall): Option<AiService.AIResponse> {
    if call.Unreachable? || call.reply.InternalServerError? || call.reply.status >= 400 then None
    else Some(call.reply.body)
  }

  /** One message handled: retried (nothing written), failed because the
      message has no sender to answer, or answered. */
  datatype Step = Retry | NoSender | Answered(tables: NotificationViews.Tables)

  /** The rows written for a reply: the answer from the AI teacher to the
      asker, and the original marked read. */
  function Answer(t: NotificationViews.Tables, id: nat, content: string, newId: nat, now: int): NotificationViews.Tables
    requires id in t.rows && t.rows[id].sender.Some?
  {
    var m := t.rows[id];
    var reply := Notification(m.sender.value, Some(m.recipient), PRIVATE_MESSAGE, Some("Re: " + Shown(m.title)), content, now,
                              false, None, None, true, true, Some(id));
    t.(rows := t.rows[newId := reply][id := m.(isRead := true, readAt := Some(now))])
  }

  /** One pass of the task's loop over message `id`, as written: the
      service's reply body, whatever it holds, becomes the answer. */
  function ProcessMessage(t: NotificationViews.Tables, id: nat, call: ServiceCall, newId: nat, now: int): Step
    requires id in t.rows
  {
    if t.rows[id].sender.None? then NoSender
    else match Delivered(call)
      case None => Retry
      case Some(body) => Answered(Answer(t, id, AiContent(body), newId, now))
  }

  /** As written, a message to the reasoning teacher is answered, and
      marked read, with the service's queue placeholder: the request is
      always queued, and the task never asks for the job's result. */
  lemma ReasoningAnswerIsPlaceholder(t: NotificationViews.Tables, id: nat, aiTeacher: User, system: string, user: string,
                                     taskId: string, routed: Providers.LLMResponse, newId: nat, now: int)
    requires id in t.rows && t.rows[id].sender.Some? && newId != id
    requires aiTeacher.username == REASONING_TEACHER
    ensures var call := Responded(AiService.ChatCompletions(ServiceRequest(aiTeacher, system, user), taskId, routed));
      var s := ProcessMessage(t, id, call, newId, now);
      s.Answered? && s.tables.rows[newId].content == AiService.DISPATCHED && s.tables.rows[id].isRead
  {
  }

  /** The task with the queued reply followed up: a reply carrying a job
      id is replaced by the job's status, and an unfinished job leaves the
      message unread for the next run. */
  function ProcessMessageCorrected(t: NotificationViews.Tables, id: nat, call: ServiceCall,
                                   jobs: map<string, AiService.JobState>, newId: nat, now: int): Step
    requires id in t.rows
  {
    if t.rows[id].sender.None? then NoSender
    else match Delivered(call)
      case None => Retry
      case Some(body) =>
        if body.taskId.None? then Answered(Answer(t, id, AiContent(body), newId, now))
        else
          var status := AiService.GetTaskStatus(jobs, body.taskId.value);
          if !status.success then Retry
          else Answered(Answer(t, id, AiContent(status), newId, now))
  }

  /** Corrected, the reasoning teacher answers with the job's content
      once the job has finished, and writes nothing before. */
  lemma ReasoningAnswerIsJobResult(t: NotificationViews.Tables, id: nat, aiTeacher: User, system: string, user: string,
                                   taskId: string, routed: Providers.LLMResponse, jobs: map<string, AiService.JobState>,
                                   newId: nat, now: int)
    requires id in t.rows && t.rows[id].sender.Some? && newId != id
    requires aiTeacher.username == REASONING_TEACHER
    ensures var call := Responded(AiService.ChatCompletions(ServiceRequest(aiTeacher, system, user), taskId, routed));
      var s := ProcessMessageCorrected(t, id, call, jobs, newId, now);
      (taskId !in jobs || !jobs[taskId].Finished? ==> s == Retry) &&
      (taskId in jobs && jobs[taskId].Finished? && jobs[taskId].result.content.Some? && jobs[taskId].result.content.value != "" ==>
        s.Answered? && s.tables.rows[newId].content == jobs[taskId].result.content.value)
  {
  }

  /** An answered message gets one reply, from the AI teacher back to the
      asker under "Re: <title>", deletable and answerable, pointing at
      the original, which is then read; a call that raises writes
      nothing. */
  lemma ProcessMessageRules(t: NotificationViews.Tables, id: nat, call: ServiceCall, newId: nat, now: int)
    requires id in t.rows && newId != id && newId !in t.rows
    ensures var s := ProcessMessage(t, id, call, newId, now);
      (s.Retry? <==> t.rows[id].sender.Some? && Delivered(call).None?) &&
      (s.Answered? ==>
        var m := t.rows[id];
        var r := s.tables.rows[newId];
        s.tables.rows.Keys == t.rows.Keys + {newId} &&
        r.recipient == m.sender.value && r.sender == Some(m.recipient) && r.parent == Some(id) &&
        r.title == Some("Re: " + Shown(m.title)) && r.canRecipientDelete && r.canRecipientReply && !r.isRead &&
        r.content == AiContent(Delivered(call).value) &&
        s.tables.rows[id].isRead && s.tables.rows[id].readAt == Some(now) &&
        s.tables.blocks == t.blocks && s.tables.settings == t.settings)
  {
  }

  /** The task's loop over the batch of unread messages: each call in
      turn, until one raises or hits a message without sender. */
  function RunBatch(t: NotificationViews.Tables, batch: seq<nat>, calls: seq<ServiceCall>, newIds: seq<nat>, now: int): (NotificationViews.Tables, Step)
    requires |calls| == |batch| == |newIds|
    requires forall i :: 0 <= i < |batch| ==> batch[i] in t.rows
    requires forall i, j :: 0 <= i < |batch| && 0 <= j < |newIds| ==> newIds[j] != batch[i]
    decreases |batch|
  {
    if |batch| == 0 then (t, Answered(t))
    else
      var s := ProcessMessage(t, batch[0], calls[0], newIds[0], now);
      if !s.Answered? then (t, s)
      else RunBatch(s.tables, batch[1..], calls[1..], newIds[1..], now)
  }

  /** A row already read stays read through the rest of the batch, as
      long as no reply is written over it. */
  lemma {:induction false} BatchKeepsRead(t: NotificationViews.Tables, batch: seq<nat>, calls: seq<ServiceCall>,
                                          newIds: seq<nat>, now: int, x: nat)
    requires |calls| == |batch| == |newIds|
    requires forall i :: 0 <= i < |batch| ==> batch[i] in t.rows
    requires forall i, j :: 0 <= i < |batch| && 0 <= j < |newIds| ==> newIds[j] != batch[i]
    requires x in t.rows && t.rows[x].isRead && x !in newIds
    ensures x in RunBatch(t, batch, calls, newIds, now).0.rows && RunBatch(t, batch, calls, newIds, now).0.rows[x].isRead
    decreases |batch|
  {
    if |batch| > 0 {
      var s := ProcessMessage(t, batch[0], calls[0], newIds[0], now);
      if s.Answered? {
        assert forall i :: 0 <= i < |batch[1..]| ==> batch[1..][i] == batch[i + 1];
        assert x !in newIds[1..] by {
          assert forall j :: 0 <= j < |newIds[1..]| ==> newIds[1..][j] == newIds[j + 1];
        }
        BatchKeepsRead(s.tables, batch[1..], calls[1..], newIds[1..], now, x);
      }
    }
  }

  /** When every message has a sender and every call gets an answer
      through, the loop runs to the end and leaves every message of the
      batch read. */
  lemma {:induction false} BatchReadsAll(t: NotificationViews.Tables, batch: seq<nat>, calls: seq<ServiceCall>,
                                         newIds: seq<nat>, now: int)
    requires |calls| == |batch| == |newIds|
    requires forall i :: 0 <= i < |batch| ==> batch[i] in t.rows && t.rows[batch[i]].sender.Some? && Delivered(calls[i]).Some?
    requires forall i, j :: 0 <= i < |batch| && 0 <= j < |newIds| ==> newIds[j] != batch[i]
    ensures RunBatch(t, batch, calls, newIds, now).1.Answered?
    ensures forall i :: 0 <= i < |batch| ==>
      batch[i] in RunBatch(t, batch, calls, newIds, now).0.rows && RunBatch(t, batch, calls, newIds, now).0.rows[batch[i]].isRead
    decreases |batch|
  {
    if |batch| > 0 {
      var s := ProcessMessage(t, batch[0], calls[0], newIds[0], now);
      assert s.Answered?;
      var u := s.tables;
      assert forall i :: 0 <= i < |batch| ==> batch[i] in u.rows && u.rows[batch[i]].sender.Some?;
      assert u.rows[batch[0]].isRead;
      assert forall i :: 0 <= i < |batch[1..]| ==> batch[1..][i] == batch[i + 1] && calls[1..][i] == calls[i + 1];
      assert forall j :: 0 <= j < |newIds[1..]| ==> newIds[1..][j] == newIds[j + 1];
      BatchReadsAll(u, batch[1..], calls[1..], newIds[1..], now);
      BatchKeepsRead(u, batch[1..], calls[1..], newIds[1..], now, batch[0]);
      var r := RunBatch(t, batch, calls, newIds, now);
      assert r == RunBatch(u, batch[1..], calls[1..], newIds[1..], now);
      forall i | 0 <= i < |batch|
        ensures batch[i] in r.0.rows && r.0.rows[batch[i]].isRead
      {
        if i > 0 {
          assert batch[i] == batch[1..][i - 1];
        }
      }
    }
  }

  /** `process_ai_teacher_message` over the batch (the latest unread
      messages to the AI teachers): the tables when the loop stopped, and
      how it stopped. */
  method ProcessBatch(t: NotificationViews.Tables, batch: seq<nat>, calls: seq<ServiceCall>, newIds: seq<nat>, now: int)
    returns (after: NotificationViews.Tables, last: Step)
    requires |calls| == |batch| == |newIds|
    requires forall i :: 0 <= i < |batch| ==> batch[i] in t.rows
    requires forall i, j :: 0 <= i < |batch| && 0 <= j < |newIds| ==> newIds[j] != batch[i]
    ensures (after, last) == RunBatch(t, batch, calls, newIds, now)
  {
    after := t;
    var i := 0;
    while i < |batch|
      invariant 0 <= i <= |batch|
      invariant forall k :: 0 <= k < |batch| ==> batch[k] in after.rows
      invariant RunBatch(after, batch[i..], calls[i..], newIds[i..], now) == RunBatch(t, batch, calls, newIds, now)
    {
      var s := ProcessMessage(after, batch[i], calls[i], newIds[i], now);
      if !s.Answered? {
        return after, s;
      }
      assert batch[i..][1..] == batch[i + 1..] && calls[i..][1..] == calls[i + 1..] && newIds[i..][1..] == newIds[i + 1..];
      after := s.tables;
      i := i + 1;
    }
    last := Answered(after);
  }
}
