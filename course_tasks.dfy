/** The periodic grading jobs (backend/course/tasks.py): the poller asks
    the AI service for each dispatched submission's job and records the
    outcome; the reaper fails submissions stuck in `Processing`. Both
    overwrite records in place, so they work on an array of submissions.
    The HTTP exchange is an input (`reply` maps a job id to what the
    status request produced), and the Python conversions the poller relies
    on are the `Decoder` parameter. */
module CourseTasks {
  import opened Wrappers
  import opened Text
  import opened CourseUtils
  import opened CourseModels
  import AiService

  const PARSE_FAILED_PREFIX := "AI返回结果解析失败或缺少字段。原始输出: "
  const TASK_FAILED_PREFIX := "AI批改任务失败: "
  const NOT_FOUND_PREFIX := "AI批改任务ID "
  const NOT_FOUND_SUFFIX := " 在AI服务中未找到。"
  const INTERNAL_ERROR_PREFIX := "检查AI批改结果时发生内部错误: "
  const REAPED_COMMENT := "AI批改任务超时或系统错误，请联系管理员。"
  /** The text the status endpoint uses for a job it cannot report yet. */
  const NOT_READY_MARK := "Task not ready"
  /** Characters of the raw answer kept in a parse-failure comment. */
  const RAW_EXCERPT: nat := 500
  /** Characters of an exception text kept in a comment. */
  const ERROR_EXCERPT: nat := 100
  /** Age, in seconds, after which a processing submission is stuck (two hours). */
  const STUCK_AFTER: int := 2 * 60 * 60

  /** What one status request produced: a reply with its code and decoded
      body, a timeout, a transport error, or any other exception raised
      before the reply was used (an undecodable body, say). */
  datatype PollReply =
    | Status(code: int, body: AiService.AIResponse)
    | TimedOut
    | RequestFailed
    | Crashed(message: string)

  // ---------------------------------------------------------------------
  // The extractor copy

  /** The text the copy of `extract_json_from_string` in this file picks,
      written as its own nested branches over find/rfind; `None` where it
      returns before decoding. */
  function CopyJsonText(s: string): Option<string> {
    var fence := FindFence(s, 0);
    if fence.Some? then Some(Slice(s, fence.value))
    else
      var firstBrace := Find(s, '{');
      var lastBrace := RFind(s, '}');
      if firstBrace != -1 && lastBrace != -1 && lastBrace > firstBrace then
        Some(s[firstBrace..lastBrace + 1])
      else
        var firstBracket := Find(s, '[');
        var lastBracket := RFind(s, ']');
        if firstBracket != -1 && lastBracket != -1 && lastBracket > firstBracket then
          Some(s[firstBracket..lastBracket + 1])
        else None
  }

  /** The copy: the picked text, stripped and decoded. */
  function ExtractJsonCopy(s: string, parse: string -> Option<Json>): Option<Json> {
    match CopyJsonText(s)
    case None => None
    case Some(t) => parse(Strip(t))
  }

  /** The copy decodes exactly what the course helper decodes. */
  lemma CopyAgrees(s: string, parse: string -> Option<Json>)
    ensures ExtractJsonCopy(s, parse) == ExtractJson(s, parse)
  {
    CopyPicksCandidate(s);
  }

  /** The copy picks the slice the course helper's candidate names. */
  lemma CopyPicksCandidate(s: string)
    ensures CopyJsonText(s).None? <==> CandidateSpan(s).None?
    ensures CopyJsonText(s).Some? ==> CopyJsonText(s).value == Slice(s, CandidateSpan(s).value)
  {
    if FindFence(s, 0).None? {
      var braces := DelimitedSpan(s, '{', '}');
      var brackets := DelimitedSpan(s, '[', ']');
      if braces.Some? {
        assert CandidateSpan(s) == braces;
      } else {
        assert CandidateSpan(s) == brackets;
      }
    }
  }

  // ---------------------------------------------------------------------
  // The poller

  /** The score the poller stores for an answer's `score` value: a number
      (a boolean counts as 1 or 0) or numeric text is clamped into
      `[0, maxScore]`, a `null` stays absent, text `float()` rejects with
      ValueError becomes absent (the poller catches it), and a list or
      object makes `float()` raise `TypeError`. */
  function ScoreFrom(v: Json, maxScore: real, dec: Decoder): (r: ScoreOutcome)
    ensures r.Score? && r.value.Some? && 0.0 <= maxScore ==> 0.0 <= r.value.value <= maxScore
    ensures r.ScoreRaised? <==> v.JArray? || v.JObject?
  {
    if v.JArray? then ScoreRaised("float() argument must be a string or a real number, not 'list'")
    else if v.JObject? then ScoreRaised("float() argument must be a string or a real number, not 'dict'")
    else
      match NumberFrom(v, dec)
      case Some(x) => Score(Some(Clamp(x, maxScore)))
      case None => Score(None)
  }

  /** The record after an exception inside the poll: only the state and
      the comment are saved. */
  function InternalFailure(sub: Submission, message: string): Submission {
    sub.(status := Failed, aiComment := Some(INTERNAL_ERROR_PREFIX + Take(message, ERROR_EXCERPT)))
  }

  /** The record after a reply that carries the model's answer `raw`,
      which decoded to `parsed`. A full save stamps `updateTime`; an
      exception saves only state and comment. */
  function RecordAnswer(sub: Submission, raw: string, parsed: Option<Json>, maxScore: real, dec: Decoder, now: int): (r: Submission)
    ensures SameSubmission(sub, r) && (r.status == Completed || r.status == Failed)
    ensures r.status == Completed && r.aiScore.Some? && 0.0 <= maxScore ==> 0.0 <= r.aiScore.value <= maxScore
  {
    if parsed.Some? && parsed.value.JObject? && HasGradeKeys(parsed.value.fields) then
      var fields := parsed.value.fields;
      match ScoreFrom(fields["score"], maxScore, dec)
      case ScoreRaised(message) => InternalFailure(sub, message)
      case Score(score) =>
        var similarityKey := if SIMILARITY_KEY in fields then Some(fields[SIMILARITY_KEY]) else None;
        match SimilarityFrom(similarityKey, dec)
        case FloatRaised(message) => InternalFailure(sub, message)
        case Float(similarity) =>
          sub.(aiScore := score, aiComment := TextFrom(fields["comment"], dec), similarity := similarity,
               status := Completed, updateTime := Some(now))
    else if parsed.Some? && parsed.value.JArray? && ListWithGradeKeys(parsed.value.items) then
      InternalFailure(sub, "'list' object has no attribute 'get'")
    else
      sub.(status := Failed, aiComment := Some(PARSE_FAILED_PREFIX + Take(raw, RAW_EXCERPT)), updateTime := Some(now))
  }

  /** The record after one status request for its job. */
  function Poll(sub: Submission, taskId: string, maxScore: real, reply: PollReply, dec: Decoder, now: int): (r: Submission)
    ensures SameSubmission(sub, r) && (r == sub || r.status == Completed || r.status == Failed)
    ensures r != sub && r.status == Completed && r.aiScore.Some? && 0.0 <= maxScore ==> 0.0 <= r.aiScore.value <= maxScore
  {
    match reply
    case Status(code, body) =>
      if code == 200 then
        if body.success && body.content.Some? && body.content.value != "" then
          RecordAnswer(sub, body.content.value, ExtractJsonCopy(body.content.value, dec.parse), maxScore, dec, now)
        else if body.error.Some? && body.error.value != "" && !Contains(body.error.value, NOT_READY_MARK) then
          sub.(status := Failed, aiComment := Some(TASK_FAILED_PREFIX + body.error.value))
        else sub
      else if code == 404 then
        sub.(status := Failed, aiComment := Some(NOT_FOUND_PREFIX + taskId + NOT_FOUND_SUFFIX))
      else sub
    case TimedOut => sub
    case RequestFailed => sub
    case Crashed(message) => InternalFailure(sub, message)
  }

  /** The records the poller examines: processing, with a non-empty job id. */
  predicate IsPolled(sub: Submission) {
    sub.status == Processing && sub.taskId.Some? && sub.taskId.value != ""
  }

  /** One record's fate in a poller run. */
  function PollStep(sub: Submission, maxScoreOf: nat -> real, reply: string -> PollReply, dec: Decoder, now: int): Submission {
    if IsPolled(sub) then Poll(sub, sub.taskId.value, maxScoreOf(sub.assignment), reply(sub.taskId.value), dec, now)
    else sub
  }

  /** `check_ai_grading_results`: `maxScoreOf` gives an assignment's
      maximum score, `reply` the status reply for a job id. */
  method CheckAiGradingResults(subs: array<Submission>, maxScoreOf: nat -> real, reply: string -> PollReply,
                               dec: Decoder, now: int)
    modifies subs
    ensures forall i :: 0 <= i < subs.Length ==> subs[i] == PollStep(old(subs[i]), maxScoreOf, reply, dec, now)
  {
    ghost var before := subs[..];
    for i := 0 to subs.Length
      invariant forall j :: 0 <= j < i ==> subs[j] == PollStep(before[j], maxScoreOf, reply, dec, now)
      invariant forall j :: i <= j < subs.Length ==> subs[j] == before[j]
    {
      var polled := PollRecord(subs[i], maxScoreOf, reply, dec, now);
      assert polled == PollStep(before[i], maxScoreOf, reply, dec, now);
      subs[i] := polled;
    }
  }

  /** The poller's work on one record: records that are not processing or
      have no job id are skipped; the others are polled. */
  method PollRecord(sub: Submission, maxScoreOf: nat -> real, reply: string -> PollReply, dec: Decoder, now: int)
    returns (r: Submission)
    ensures r == PollStep(sub, maxScoreOf, reply, dec, now)
  {
    r := sub;
    if sub.status != Processing || sub.taskId.None? {
      return;
    }
    var taskId := sub.taskId.value;
    if taskId == "" {
      return;
    }
    r := Poll(sub, taskId, maxScoreOf(sub.assignment), reply(taskId), dec, now);
  }

  /** The fields no poll outcome touches. */
  predicate SameSubmission(a: Submission, b: Submission) {
    a.id == b.id && a.assignment == b.assignment && a.student == b.student && a.title == b.title &&
    a.content == b.content && a.score == b.score && a.teacherComment == b.teacherComment &&
    a.isReturned == b.isReturned && a.submitted == b.submitted && a.taskId == b.taskId
  }

  /** The poller changes only processing records with a job id, moves them
      only to `Completed` or `Failed` (or leaves them as they were), and
      never touches the submission itself, the teacher's grade or the job
      id. Records in any other state, terminal ones included, are left
      exactly as they were. */
  lemma PollTransitions(sub: Submission, maxScoreOf: nat -> real, reply: string -> PollReply, dec: Decoder, now: int)
    ensures var r := PollStep(sub, maxScoreOf, reply, dec, now);
      SameSubmission(sub, r) &&
      (r != sub ==> IsPolled(sub) && (r.status == Completed || r.status == Failed)) &&
      (!IsPolled(sub) ==> r == sub)
  {
  }

  /** A completed poll leaves an AI score in `[0, max]` (or none). */
  lemma PolledScoreClamped(sub: Submission, maxScoreOf: nat -> real, reply: string -> PollReply, dec: Decoder, now: int)
    requires IsPolled(sub) && 0.0 <= maxScoreOf(sub.assignment)
    ensures var r := PollStep(sub, maxScoreOf, reply, dec, now);
      r.status == Completed && r.aiScore.Some? ==> 0.0 <= r.aiScore.value <= maxScoreOf(sub.assignment)
  {
  }

  /** A decoded object with both keys and a convertible score and
      similarity completes the record with the answer's comment; text
      `float()` rejects as a score still completes it, without a score. */
  lemma AnswerCompletes(sub: Submission, raw: string, parsed: Option<Json>, maxScore: real, dec: Decoder, now: int)
    requires parsed.Some? && parsed.value.JObject? && HasGradeKeys(parsed.value.fields)
    requires !parsed.value.fields["score"].JArray? && !parsed.value.fields["score"].JObject?
    requires SIMILARITY_KEY !in parsed.value.fields || parsed.value.fields[SIMILARITY_KEY].JNull? ||
             parsed.value.fields[SIMILARITY_KEY].JNumber?
    ensures var r := RecordAnswer(sub, raw, parsed, maxScore, dec, now);
      r.status == Completed && r.updateTime == Some(now) &&
      r.aiComment == TextFrom(parsed.value.fields["comment"], dec)
    ensures parsed.value.fields["score"].JString? && dec.toFloat(parsed.value.fields["score"].s).None? ==>
      RecordAnswer(sub, raw, parsed, maxScore, dec, now).aiScore.None?
  {
  }

  /** An answer that does not decode to an object holding both keys (nor to
      a list naming both) fails the record with at most the first 500
      characters of the answer, leaving the AI score alone. */
  lemma AnswerUnusable(sub: Submission, raw: string, parsed: Option<Json>, maxScore: real, dec: Decoder, now: int)
    requires parsed.None? || (parsed.value.JObject? && !HasGradeKeys(parsed.value.fields)) ||
             (!parsed.value.JObject? && !(parsed.value.JArray? && ListWithGradeKeys(parsed.value.items)))
    ensures var r := RecordAnswer(sub, raw, parsed, maxScore, dec, now);
      r.status == Failed && r.aiComment.Some? &&
      StartsWith(r.aiComment.value, PARSE_FAILED_PREFIX) &&
      |r.aiComment.value| <= |PARSE_FAILED_PREFIX| + RAW_EXCERPT &&
      r.aiScore == sub.aiScore
  {
  }

  /** The status replies: "not ready" and answerless successes keep the
      record processing; a reported failure or an unknown job fails it;
      other status codes, timeouts and transport errors change nothing;
      any other exception fails it with an excerpt of at most 100
      characters of its text. */
  lemma ReplyRules(sub: Submission, taskId: string, maxScore: real, reply: PollReply, dec: Decoder, now: int)
    ensures (reply.Status? && reply.code == 200 && !(reply.body.success && reply.body.content.Some? && reply.body.content.value != "") &&
             reply.body.error.Some? && Contains(reply.body.error.value, NOT_READY_MARK)) ==>
      Poll(sub, taskId, maxScore, reply, dec, now) == sub
    ensures (reply.Status? && reply.code == 200 && !(reply.body.success && reply.body.content.Some? && reply.body.content.value != "") &&
             reply.body.error.Some? && reply.body.error.value != "" && !Contains(reply.body.error.value, NOT_READY_MARK)) ==>
      Poll(sub, taskId, maxScore, reply, dec, now) == sub.(status := Failed, aiComment := Some(TASK_FAILED_PREFIX + reply.body.error.value))
    ensures reply.Status? && reply.code == 404 ==> Poll(sub, taskId, maxScore, reply, dec, now).status == Failed
    ensures (reply.Status? && reply.code != 200 && reply.code != 404) || reply.TimedOut? || reply.RequestFailed? ==>
      Poll(sub, taskId, maxScore, reply, dec, now) == sub
    ensures reply.Crashed? ==>
      var r := Poll(sub, taskId, maxScore, reply, dec, now);
      r.status == Failed && r.aiComment.Some? && |r.aiComment.value| <= |INTERNAL_ERROR_PREFIX| + ERROR_EXCERPT &&
      r.updateTime == sub.updateTime
  {
  }

  // ---------------------------------------------------------------------
  // The reaper

  /** Processing and last saved more than two hours before `now`; a record
      with no update time never qualifies. */
  predicate Stuck(sub: Submission, now: int) {
    sub.status == Processing && sub.updateTime.Some? && sub.updateTime.value < now - STUCK_AFTER
  }

  function Reap(sub: Submission, now: int): Submission {
    if Stuck(sub, now) then sub.(status := Failed, aiComment := Some(REAPED_COMMENT)) else sub
  }

  /** `cleanup_old_processing_ai_submissions`. */
  method CleanupOldProcessing(subs: array<Submission>, now: int)
    modifies subs
    ensures forall i :: 0 <= i < subs.Length ==> subs[i] == Reap(old(subs[i]), now)
  {
    for i := 0 to subs.Length
      invariant forall j :: 0 <= j < i ==> subs[j] == Reap(old(subs[j]), now)
      invariant forall j :: i <= j < subs.Length ==> subs[j] == old(subs[j])
    {
      if Stuck(subs[i], now) {
        subs[i] := subs[i].(status := Failed, aiComment := Some(REAPED_COMMENT));
      }
    }
  }

  /** The reaper fails exactly the stuck records, writing only state and
      comment (the update time is not refreshed); after it no record is
      stuck, and a second run at the same time changes nothing. */
  lemma ReapRules(sub: Submission, now: int)
    ensures Stuck(sub, now) ==> Reap(sub, now) == sub.(status := Failed, aiComment := Some(REAPED_COMMENT))
    ensures !Stuck(sub, now) ==> Reap(sub, now) == sub
    ensures !Stuck(Reap(sub, now), now)
    ensures Reap(Reap(sub, now), now) == Reap(sub, now)
  {
  }

  /** Terminal records are never revisited by either job. */
  lemma TerminalRecordsStay(sub: Submission, maxScoreOf: nat -> real, reply: string -> PollReply, dec: Decoder, now: int)
    requires Terminal(sub.status)
    ensures PollStep(sub, maxScoreOf, reply, dec, now) == sub
    ensures Reap(sub, now) == sub
  {
  }
}
