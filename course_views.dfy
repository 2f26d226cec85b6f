/** The course views that decide things (backend/course/views.py): a
    student's submission with its uploads and the AI-grading decision, a
    teacher's grading of a submission, and the list of course/class pairs a
    teacher may still take on. Storage, the HTTP call to the AI service
    and file reading are inputs: each upload says whether storing it
    failed and what text could be read from it, and the AI service's reply
    is a `Dispatch` value. */
module CourseViews {
  import opened Wrappers
  import opened Text
  import opened Accounts
  import opened CourseUtils
  import opened CourseModels
  import Providers
  import AiService
  import CourseTasks

  // ---------------------------------------------------------------------
  // Uploads

  /** One uploaded file: its name, the error storing it raised (if any),
      and the text the reader extracted (`None` or empty when unreadable). */
  datatype Upload = Upload(name: string, storeError: Option<string>, text: Option<string>)

  datatype UploadError = UploadError(name: string, message: string)

  /** The state the upload loop builds: the upload that failed, whether the
      files can go to the AI, the names stored, and the text sections. */
  datatype FileScan = FileScan(failed: Option<UploadError>, canGrade: bool, names: seq<string>, contents: seq<string>)

  const NO_FILES := FileScan(None, true, [], [])

  /** Whether the last path component of `s` has a character other
      than '.'. */
  predicate ComponentHasNonDot(s: string)
    decreases |s|
  {
    |s| > 0 && s[|s| - 1] != '/' && (s[|s| - 1] != '.' || ComponentHasNonDot(s[..|s| - 1]))
  }

  /** `os.path.splitext(name)[1]`: the text from the last '.' of the last
      path component, provided that something other than dots comes
      before that '.' in the component; otherwise empty. */
  function Ext(name: string): (e: string)
    ensures |e| <= |name|
    ensures e == "" || (e[0] == '.' && e == name[|name| - |e|..] && '.' !in e[1..] && '/' !in e)
    decreases |name|
  {
    if |name| == 0 then ""
    else
      var last := name[|name| - 1];
      var init := name[..|name| - 1];
      if last == '/' then ""
      else if last == '.' then (if ComponentHasNonDot(init) then "." else "")
      else
        var e := Ext(init);
        if e == "" then "" else
          assert name[|name| - |e| - 1..] == init[|init| - |e|..] + [last];
          e + [last]
  }

  /** Whether a file's lowercased extension is one the AI may read. */
  predicate Supported(name: string) {
    IsAllowedExtension(Lower(Ext(name)))
  }

  /** The text section a readable file adds to the grading text. */
  function Section(f: Upload): seq<string> {
    if f.text.Some? && f.text.value != "" then ["\n\n--- 文件: " + f.name + " ---\n" + f.text.value] else []
  }

  /** The upload loop from file `i` on, with `acc` built so far; `supported`
      is the file-type test, `Supported` in the view. */
  function ScanFrom(files: seq<Upload>, i: nat, acc: FileScan, supported: string -> bool): FileScan
    requires i <= |files|
    decreases |files| - i
  {
    if i == |files| then acc
    else
      var f := files[i];
      if f.storeError.Some? then acc.(failed := Some(UploadError(f.name, f.storeError.value)))
      else if !supported(f.name) then acc.(canGrade := false, names := acc.names + [f.name])
      else ScanFrom(files, i + 1, acc.(names := acc.names + [f.name], contents := acc.contents + Section(f)), supported)
  }

  /** One step of the upload loop. */
  lemma ScanStep(files: seq<Upload>, i: nat, acc: FileScan, supported: string -> bool)
    requires i < |files|
    ensures files[i].storeError.Some? ==>
      ScanFrom(files, i, acc, supported) == acc.(failed := Some(UploadError(files[i].name, files[i].storeError.value)))
    ensures files[i].storeError.None? && !supported(files[i].name) ==>
      ScanFrom(files, i, acc, supported) == acc.(canGrade := false, names := acc.names + [files[i].name])
    ensures files[i].storeError.None? && supported(files[i].name) ==>
      ScanFrom(files, i, acc, supported) ==
      ScanFrom(files, i + 1, acc.(names := acc.names + [files[i].name], contents := acc.contents + Section(files[i])), supported)
  {
  }

  /** The upload loop of `create`: store each file, stop at the first
      storage failure (the request fails) or at the first unsupported file
      (which is stored, but no file text goes to the AI). */
  method ScanUploads(files: seq<Upload>) returns (scan: FileScan)
    ensures scan == ScanFrom(files, 0, NO_FILES, Supported)
  {
    scan := NO_FILES;
    var i := 0;
    while i < |files|
      invariant i <= |files|
      invariant scan.failed.None? && scan.canGrade
      invariant ScanFrom(files, i, scan, Supported) == ScanFrom(files, 0, NO_FILES, Supported)
    {
      var f := files[i];
      ScanStep(files, i, scan, Supported);
      if f.storeError.Some? {
        scan := scan.(failed := Some(UploadError(f.name, f.storeError.value)));
        return;
      }
      var ok := Supported(f.name);
      scan := scan.(names := scan.names + [f.name]);
      if !ok {
        scan := scan.(canGrade := false);
        return;
      }
      scan := scan.(contents := scan.contents + Section(f));
      i := i + 1;
    }
  }

  /** A file stored without error and of a supported type. */
  predicate Accepted(f: Upload, supported: string -> bool) {
    f.storeError.None? && supported(f.name)
  }

  /** The names of `files`, in order. */
  function Names(files: seq<Upload>): (r: seq<string>)
    ensures |r| == |files|
    decreases |files|
  {
    if |files| == 0 then [] else [files[0].name] + Names(files[1..])
  }

  /** Every file accepted exactly when the scan neither fails nor refuses
      grading; then every file is stored, in order. */
  lemma {:induction false} ScanAccepts(files: seq<Upload>, i: nat, acc: FileScan, supported: string -> bool)
    requires i <= |files| && acc.failed.None? && acc.canGrade
    ensures var r := ScanFrom(files, i, acc, supported);
      (r.failed.None? && r.canGrade) <==> (forall k :: i <= k < |files| ==> Accepted(files[k], supported))
    ensures var r := ScanFrom(files, i, acc, supported);
      r.failed.None? && r.canGrade ==> r.names == acc.names + Names(files[i..])
    decreases |files| - i
  {
    if i == |files| {
      assert files[i..] == [];
    } else {
      var f := files[i];
      var accepted := Accepted(f, supported);
      ScanStep(files, i, acc, supported);
      if accepted {
        var acc' := acc.(names := acc.names + [f.name], contents := acc.contents + Section(f));
        ScanAccepts(files, i + 1, acc', supported);
        assert ScanFrom(files, i, acc, supported) == ScanFrom(files, i + 1, acc', supported);
        assert files[i..][1..] == files[i + 1..];
      } else {
        var r := ScanFrom(files, i, acc, supported);
        assert !(r.failed.None? && r.canGrade);
        assert !Accepted(files[i], supported);
      }
    }
  }

  /** The first unsupported file ends the scan: it and the files before it
      are stored, nothing after it is, and the files cannot be graded. */
  lemma {:induction false} ScanStopsAtUnsupported(files: seq<Upload>, i: nat, acc: FileScan, supported: string -> bool, k: nat)
    requires i <= k < |files| && acc.failed.None? && acc.canGrade
    requires files[k].storeError.None? && !supported(files[k].name)
    requires forall m :: i <= m < k ==> Accepted(files[m], supported)
    ensures var r := ScanFrom(files, i, acc, supported);
      r.failed.None? && !r.canGrade && r.names == acc.names + Names(files[i..k + 1])
    decreases k - i
  {
    var f := files[i];
    ScanStep(files, i, acc, supported);
    if i < k {
      assert Accepted(files[i], supported);
      var acc' := acc.(names := acc.names + [f.name], contents := acc.contents + Section(f));
      ScanStopsAtUnsupported(files, i + 1, acc', supported, k);
      assert ScanFrom(files, i, acc, supported) == ScanFrom(files, i + 1, acc', supported);
      var rest := Names(files[i + 1..k + 1]);
      assert files[i..k + 1][1..] == files[i + 1..k + 1];
      assert Names(files[i..k + 1]) == [f.name] + rest;
      assert acc'.names + rest == acc.names + ([f.name] + rest);
    } else {
      assert ScanFrom(files, i, acc, supported) == acc.(canGrade := false, names := acc.names + [f.name]);
      assert files[i..k + 1] == [f];
    }
  }

  /** The first file that fails to store is the one reported. */
  lemma {:induction false} ScanReportsFailure(files: seq<Upload>, i: nat, acc: FileScan, supported: string -> bool, k: nat)
    requires i <= k < |files| && acc.failed.None? && acc.canGrade
    requires files[k].storeError.Some?
    requires forall m :: i <= m < k ==> Accepted(files[m], supported)
    ensures ScanFrom(files, i, acc, supported).failed == Some(UploadError(files[k].name, files[k].storeError.value))
    decreases k - i
  {
    var f := files[i];
    ScanStep(files, i, acc, supported);
    if i < k {
      ScanReportsFailure(files, i + 1, acc.(names := acc.names + [f.name], contents := acc.contents + Section(f)), supported, k);
    }
  }

  // ---------------------------------------------------------------------
  // The AI-grading decision of `create`

  const UNSUPPORTED_COMMENT := "由于提交了不支持AI分析的文件类型（如压缩包、图片等），本次未进行AI辅助批改。"
  const TOO_LONG_COMMENT := "由于提交内容总字数超过15000字，本次未进行AI辅助批改。"
  const TIMEOUT_COMMENT := "AI服务请求超时（分发任务阶段）。"
  const REQUEST_ERROR_PREFIX := "AI服务请求错误: "
  const UNKNOWN_ERROR_PREFIX := "AI批改过程中发生未知错误: "
  const CALL_FAILED_PREFIX := "AI服务调用失败: "
  const BAD_FORMAT_PREFIX := "AI返回格式错误或缺少必要字段。原始输出: "

  /** What posting the grading request produced: a 2xx reply with its
      decoded body, a timeout, a transport error, or any other exception
      (an error status, an undecodable body). */
  datatype Dispatch =
    | Answered(body: AiService.AIResponse)
    | DispatchTimedOut
    | DispatchRequestError(message: string)
    | DispatchCrashed(message: string)

  function Concat(parts: seq<string>): string
    decreases |parts|
  {
    if |parts| == 0 then "" else parts[0] + Concat(parts[1..])
  }

  /** The text graded: the submission's own text, then each file section. */
  function GradingText(sub: Submission, scan: FileScan): string {
    sub.content + Concat(scan.contents)
  }

  /** The assignment's own prompt when it has one; `defaultPrompt` is the
      prompt built from the course name, title, description and maximum
      score. */
  function SystemPrompt(a: Assignment, defaultPrompt: string): string {
    if a.aiGradingPrompt.Some? && a.aiGradingPrompt.value != "" then a.aiGradingPrompt.value else defaultPrompt
  }

  function UserPrompt(sub: Submission, scan: FileScan): string {
    "学生作业标题：" + sub.title + "\n学生提交内容：\n" + GradingText(sub, scan) +
    (if |scan.names| > 0 then "\n\n学生上传文件列表：" + Join(scan.names, ", ") else "")
  }

  /** The request posted to the AI service. */
  function GradingRequest(a: Assignment, sub: Submission, scan: FileScan, defaultPrompt: string): AiService.AIRequest {
    AiService.AIRequest(
      [Providers.Message(Providers.System, SystemPrompt(a, defaultPrompt)),
       Providers.Message(Providers.User, UserPrompt(sub, scan))],
      None, None, true, false, None, None, None, Some(map["type" := "json_object"]))
  }

  /** `float()` of the score outside any handler: text it rejects raises. */
  function StrictScore(v: Json, maxScore: real, dec: Decoder): (r: ScoreOutcome)
    ensures r.Score? && r.value.Some? && 0.0 <= maxScore ==> 0.0 <= r.value.value <= maxScore
  {
    if v.JNull? then Score(None)
    else if v.JArray? then ScoreRaised("float() argument must be a string or a real number, not 'list'")
    else if v.JObject? then ScoreRaised("float() argument must be a string or a real number, not 'dict'")
    else
      match NumberFrom(v, dec)
      case Some(x) => Score(Some(Clamp(x, maxScore)))
      case None => ScoreRaised("could not convert string to float: " + dec.repr(v))
  }

  /** The record after an exception in the dispatch block: only the state
      and the comment are saved. */
  function DispatchFailure(sub: Submission, comment: string): Submission {
    sub.(status := Failed, aiComment := Some(comment))
  }

  /** A synchronous answer `raw`, decoded to `parsed`. */
  function RecordSyncAnswer(sub: Submission, raw: string, parsed: Option<Json>, maxScore: real, dec: Decoder, now: int): (r: Submission)
    ensures r.status == Completed || r.status == Failed
    ensures CourseTasks.SameSubmission(sub, r)
    ensures r.status == Completed ==> parsed.Some? && parsed.value.JObject? && HasGradeKeys(parsed.value.fields)
    ensures r.status == Completed && r.aiScore.Some? && 0.0 <= maxScore ==> 0.0 <= r.aiScore.value <= maxScore
  {
    if parsed.Some? && parsed.value.JObject? && HasGradeKeys(parsed.value.fields) then
      var fields := parsed.value.fields;
      match StrictScore(fields["score"], maxScore, dec)
      case ScoreRaised(message) => DispatchFailure(sub, UNKNOWN_ERROR_PREFIX + message)
      case Score(score) =>
        var similarityKey := if SIMILARITY_KEY in fields then Some(fields[SIMILARITY_KEY]) else None;
        match SimilarityFrom(similarityKey, dec)
        case FloatRaised(message) => DispatchFailure(sub, UNKNOWN_ERROR_PREFIX + message)
        case Float(similarity) =>
          sub.(aiScore := score, aiComment := TextFrom(fields["comment"], dec), similarity := similarity,
               status := Completed, updateTime := Some(now))
    else if parsed.Some? && parsed.value.JArray? && ListWithGradeKeys(parsed.value.items) then
      DispatchFailure(sub, UNKNOWN_ERROR_PREFIX + "'list' object has no attribute 'get'")
    else
      sub.(status := Failed, aiComment := Some(BAD_FORMAT_PREFIX + Take(raw, 500)), updateTime := Some(now))
  }

  /** `dict.get('error', '未知错误')` on a body that always has the key. */
  function ErrorText(e: Option<string>): string {
    if e.Some? then e.value else "None"
  }

  /** The record, already saved as processing, after the dispatch reply. */
  function Dispatched(sub: Submission, maxScore: real, reply: Dispatch, dec: Decoder, now: int): (r: Submission)
    ensures r.status == Processing || r.status == Completed || r.status == Failed
    ensures CourseTasks.SameSubmission(sub, r.(taskId := sub.taskId))
  {
    match reply
    case Answered(body) =>
      if body.success && body.taskId.Some? && body.taskId.value != "" then
        sub.(taskId := body.taskId, status := Processing, updateTime := Some(now))
      else if body.success && body.content.Some? && body.content.value != "" then
        RecordSyncAnswer(sub, body.content.value, ExtractJson(body.content.value, dec.parse), maxScore, dec, now)
      else
        sub.(status := Failed, aiComment := Some(CALL_FAILED_PREFIX + ErrorText(body.error)), updateTime := Some(now))
    case DispatchTimedOut => DispatchFailure(sub, TIMEOUT_COMMENT)
    case DispatchRequestError(message) => DispatchFailure(sub, REQUEST_ERROR_PREFIX + message)
    case DispatchCrashed(message) => DispatchFailure(sub, UNKNOWN_ERROR_PREFIX + message)
  }

  /** The AI-grading part of `create` for the freshly saved submission. */
  function GradeOnCreate(sub: Submission, a: Assignment, scan: FileScan, reply: Dispatch, dec: Decoder, now: int): Submission {
    if !a.aiGradingEnabled then sub.(status := Skipped)
    else if !scan.canGrade then sub.(status := Skipped, aiComment := Some(UNSUPPORTED_COMMENT))
    else if |GradingText(sub, scan)| > MAX_CONTENT_LENGTH then sub.(status := Skipped, aiComment := Some(TOO_LONG_COMMENT))
    else Dispatched(sub.(status := Processing), a.maxScore, reply, dec, now)
  }

  /** The decision table. Grading disabled: skipped, nothing else written.
      Unsupported files: skipped with the fixed comment. Text over the cap:
      skipped; at or under it the request is sent. */
  lemma GradeOnCreateSkips(sub: Submission, a: Assignment, scan: FileScan, reply: Dispatch, dec: Decoder, now: int)
    ensures !a.aiGradingEnabled ==> GradeOnCreate(sub, a, scan, reply, dec, now) == sub.(status := Skipped)
    ensures a.aiGradingEnabled && !scan.canGrade ==>
      GradeOnCreate(sub, a, scan, reply, dec, now) == sub.(status := Skipped, aiComment := Some(UNSUPPORTED_COMMENT))
    ensures a.aiGradingEnabled && scan.canGrade ==>
      (GradeOnCreate(sub, a, scan, reply, dec, now).status == Skipped <==> |GradingText(sub, scan)| > MAX_CONTENT_LENGTH)
  {
  }

  /** Whatever happens, the new submission leaves the create request in a
      state other than `Pending`, with the student's own fields kept. */
  lemma GradeOnCreateSettles(sub: Submission, a: Assignment, scan: FileScan, reply: Dispatch, dec: Decoder, now: int)
    ensures GradeOnCreate(sub, a, scan, reply, dec, now).status != Pending
    ensures CourseTasks.SameSubmission(sub, GradeOnCreate(sub, a, scan, reply, dec, now).(taskId := sub.taskId))
  {
    if a.aiGradingEnabled && scan.canGrade && |GradingText(sub, scan)| <= MAX_CONTENT_LENGTH {
      var processing := sub.(status := Processing);
      var r := Dispatched(processing, a.maxScore, reply, dec, now);
      assert GradeOnCreate(sub, a, scan, reply, dec, now) == r;
      assert CourseTasks.SameSubmission(processing, r.(taskId := processing.taskId));
    }
  }

  /** The dispatch replies: a success with a job id leaves the record
      processing under that id; a synchronous answer completes it only
      when it decodes to an object with a score and a comment, the score
      clamped into `[0, max]`; anything else fails it with a reason. */
  lemma DispatchRules(sub: Submission, maxScore: real, reply: Dispatch, dec: Decoder, now: int)
    ensures var r := Dispatched(sub, maxScore, reply, dec, now);
      reply.Answered? && reply.body.success && reply.body.taskId.Some? && reply.body.taskId.value != "" ==>
        r.status == Processing && r.taskId == reply.body.taskId
    ensures var r := Dispatched(sub, maxScore, reply, dec, now);
      r.status == Completed ==>
        reply.Answered? && reply.body.success && reply.body.content.Some? &&
        (var p := ExtractJson(reply.body.content.value, dec.parse); p.Some? && p.value.JObject? && HasGradeKeys(p.value.fields))
    ensures var r := Dispatched(sub, maxScore, reply, dec, now);
      r.status == Completed && r.aiScore.Some? && 0.0 <= maxScore ==> 0.0 <= r.aiScore.value <= maxScore
    ensures var r := Dispatched(sub, maxScore, reply, dec, now);
      !reply.Answered? ==> r.status == Failed && r.aiComment.Some?
    ensures var r := Dispatched(sub, maxScore, reply, dec, now);
      r.status == Processing || r.status == Completed || r.status == Failed
  {
  }

  /** The grading request always asks for the reasoning model, so the AI
      service queues it and answers with a job id: against that service a
      dispatched submission stays processing under the id it was given. */
  lemma ServiceQueuesGrading(sub: Submission, a: Assignment, scan: FileScan, defaultPrompt: string,
                             jobId: string, routed: Providers.LLMResponse, dec: Decoder, now: int)
    requires jobId != ""
    requires a.aiGradingEnabled && scan.canGrade && |GradingText(sub, scan)| <= MAX_CONTENT_LENGTH
    ensures AiService.IsQueued(GradingRequest(a, sub, scan, defaultPrompt))
    ensures var reply := AiService.ChatCompletions(GradingRequest(a, sub, scan, defaultPrompt), jobId, routed);
      reply.Reply? && reply.status == 200 &&
      GradeOnCreate(sub, a, scan, Answered(reply.body), dec, now).status == Processing &&
      GradeOnCreate(sub, a, scan, Answered(reply.body), dec, now).taskId == Some(jobId)
  {
  }

  // ---------------------------------------------------------------------
  // `create`

  /** The submission form: the assignment id from the body and from the
      URL, the title and text (absent when not sent), and the uploads. */
  datatype SubmitForm = SubmitForm(
    assignmentId: Option<nat>, urlAssignmentId: Option<nat>,
    title: Option<string>, content: Option<string>, files: seq<Upload>)

  datatype CreateReply =
    | Refused(status: nat, detail: string)
    /** The serializer's 400: the names of the fields it rejected. */
    | Invalid(fields: set<string>)
    | Created(submission: Submission, storedFiles: seq<string>)

  const NO_ASSIGNMENT_ID := "必须提供作业ID (assignment ID)"
  const NO_SUCH_ASSIGNMENT := "指定的作业不存在"
  const NOT_YOUR_CLASS := "无权限提交该作业"
  const PAST_DUE := "已超过作业截止时间，不能提交"

  /** The assignment id used: the body's if truthy, else the URL's. */
  function ChosenId(form: SubmitForm): Option<nat> {
    if form.assignmentId.Some? && form.assignmentId.value != 0 then form.assignmentId
    else if form.urlAssignmentId.Some? && form.urlAssignmentId.value != 0 then form.urlAssignmentId
    else None
  }

  /** The checks before anything is stored; `None` lets the request on. */
  function CreateRefusal(form: SubmitForm, assignments: map<nat, Assignment>, user: User, now: int): Option<CreateReply> {
    var id := ChosenId(form);
    if id.None? then Some(Refused(400, NO_ASSIGNMENT_ID))
    else if id.value !in assignments then Some(Refused(404, NO_SUCH_ASSIGNMENT))
    else
      var a := assignments[id.value];
      if a.courseClass.None? || Some(a.courseClass.value.classId) != user.classEnrolled then Some(Refused(403, NOT_YOUR_CLASS))
      else if now > a.dueDate then Some(Refused(400, PAST_DUE))
      else None
  }

  /** Longest stored submission title (the model's `max_length`). */
  const TITLE_MAX: nat := 100

  /** The title handed to the serializer: the one sent, else the
      assignment's title with a suffix. */
  function SubmittedTitle(form: SubmitForm, a: Assignment): string {
    if form.title.Some? then form.title.value else a.title + " - 提交"
  }

  /** The text handed to the serializer: the one sent, else empty. */
  function SubmittedContent(form: SubmitForm): string {
    if form.content.Some? then form.content.value else ""
  }

  /** The fields `is_valid` rejects. Both are required text fields that
      are trimmed first: a blank title or text fails, and so does a title
      longer than `TITLE_MAX` once trimmed. */
  function FormErrors(title: string, content: string): set<string> {
    set field | field in FORM_FIELDS && FieldFails(title, content, field)
  }

  /** The form fields the serializer validates. */
  const FORM_FIELDS: set<string> := {"title", "content"}

  /** `field` fails validation. */
  predicate FieldFails(title: string, content: string, field: string) {
    if field == "title" then Strip(title) == "" || |Strip(title)| > TITLE_MAX
    else field == "content" && Strip(content) == ""
  }

  lemma FormErrorsEmpty(title: string, content: string)
    ensures FormErrors(title, content) == {} <==>
      Strip(title) != "" && |Strip(title)| <= TITLE_MAX && Strip(content) != ""
    ensures "title" in FormErrors(title, content) <==> Strip(title) == "" || |Strip(title)| > TITLE_MAX
    ensures "content" in FormErrors(title, content) <==> Strip(content) == ""
    ensures FormErrors(title, content) <= {"title", "content"}
  {
    if Strip(title) == "" || |Strip(title)| > TITLE_MAX {
      assert "title" in FormErrors(title, content);
    } else if Strip(content) == "" {
      assert "content" in FormErrors(title, content);
    }
  }

  /** The submission as first saved, with the trimmed title and text. */
  function FirstSave(form: SubmitForm, a: Assignment, user: User, newId: nat, now: int): Submission {
    NewSubmission(newId, a.id, user.id, Strip(SubmittedTitle(form, a)), Strip(SubmittedContent(form)), now)
  }

  /** `AssignmentSubmissionView.create`. */
  function CreateSubmission(form: SubmitForm, assignments: map<nat, Assignment>, user: User, newId: nat, now: int,
                            reply: Dispatch, dec: Decoder): CreateReply
  {
    match CreateRefusal(form, assignments, user, now)
    case Some(refusal) => refusal
    case None =>
      var a := assignments[ChosenId(form).value];
      var errors := FormErrors(SubmittedTitle(form, a), SubmittedContent(form));
      if errors != {} then Invalid(errors)
      else
      var sub := FirstSave(form, a, user, newId, now);
      var scan := ScanFrom(form.files, 0, NO_FILES, Supported);
      if scan.failed.Some? then Refused(500, "文件 " + scan.failed.value.name + " 上传失败: " + scan.failed.value.message)
      else Created(GradeOnCreate(sub, a, scan, reply, dec, now), scan.names)
  }

  method Create(form: SubmitForm, assignments: map<nat, Assignment>, user: User, newId: nat, now: int,
                reply: Dispatch, dec: Decoder) returns (r: CreateReply)
    ensures r == CreateSubmission(form, assignments, user, newId, now, reply, dec)
  {
    var refusal := CreateRefusal(form, assignments, user, now);
    if refusal.Some? {
      return refusal.value;
    }
    var a := assignments[ChosenId(form).value];
    var errors := FormErrors(SubmittedTitle(form, a), SubmittedContent(form));
    if errors != {} {
      return Invalid(errors);
    }
    var sub := FirstSave(form, a, user, newId, now);
    var scan := ScanUploads(form.files);
    if scan.failed.Some? {
      return Refused(500, "文件 " + scan.failed.value.name + " 上传失败: " + scan.failed.value.message);
    }
    r := Created(GradeOnCreate(sub, a, scan, reply, dec, now), scan.names);
  }

  /** The refusals come first and in order: no id, unknown assignment,
      another class's assignment, past the due date (a submission at the
      due time itself is accepted). */
  lemma CreateRefusals(form: SubmitForm, assignments: map<nat, Assignment>, user: User, newId: nat, now: int,
                       reply: Dispatch, dec: Decoder)
    ensures ChosenId(form).None? ==> CreateSubmission(form, assignments, user, newId, now, reply, dec) == Refused(400, NO_ASSIGNMENT_ID)
    ensures ChosenId(form).Some? && ChosenId(form).value !in assignments ==>
      CreateSubmission(form, assignments, user, newId, now, reply, dec) == Refused(404, NO_SUCH_ASSIGNMENT)
    ensures (ChosenId(form).Some? && ChosenId(form).value in assignments &&
             (assignments[ChosenId(form).value].courseClass.None? ||
              Some(assignments[ChosenId(form).value].courseClass.value.classId) != user.classEnrolled)) ==>
      CreateSubmission(form, assignments, user, newId, now, reply, dec) == Refused(403, NOT_YOUR_CLASS)
    ensures CreateSubmission(form, assignments, user, newId, now, reply, dec).Created? ==>
      now <= assignments[ChosenId(form).value].dueDate
  {
  }

  /** Past those refusals the serializer rejects a blank title, a title
      over 100 characters or a blank text, naming each field it rejects,
      before any file is stored. */
  lemma CreateValidates(form: SubmitForm, assignments: map<nat, Assignment>, user: User, newId: nat, now: int,
                        reply: Dispatch, dec: Decoder)
    ensures CreateRefusal(form, assignments, user, now).None? ==>
      var title := Strip(SubmittedTitle(form, assignments[ChosenId(form).value]));
      var content := Strip(SubmittedContent(form));
      var r := CreateSubmission(form, assignments, user, newId, now, reply, dec);
      (r.Invalid? <==> title == "" || |title| > TITLE_MAX || content == "") &&
      (r.Invalid? ==> ("title" in r.fields <==> title == "" || |title| > TITLE_MAX) &&
                      ("content" in r.fields <==> content == "") && r.fields <= {"title", "content"})
  {
    if CreateRefusal(form, assignments, user, now).None? {
      var a := assignments[ChosenId(form).value];
      var errors := FormErrors(SubmittedTitle(form, a), SubmittedContent(form));
      FormErrorsEmpty(SubmittedTitle(form, a), SubmittedContent(form));
      var r := CreateSubmission(form, assignments, user, newId, now, reply, dec);
      if errors != {} {
        assert r == Invalid(errors);
      } else {
        assert !r.Invalid?;
      }
    }
  }

  /** A created submission holds the trimmed title and text, neither
      blank, the title at most 100 characters; it is the student's, for
      the chosen assignment, and marked submitted. */
  lemma CreatedIsValid(form: SubmitForm, assignments: map<nat, Assignment>, user: User, newId: nat, now: int,
                       reply: Dispatch, dec: Decoder)
    ensures var r := CreateSubmission(form, assignments, user, newId, now, reply, dec);
      r.Created? ==>
        var a := assignments[ChosenId(form).value];
        r.submission.title == Strip(SubmittedTitle(form, a)) && r.submission.content == Strip(SubmittedContent(form)) &&
        0 < |r.submission.title| <= TITLE_MAX && r.submission.content != "" &&
        r.submission.student == user.id && r.submission.assignment == a.id && r.submission.submitted
  {
    var r := CreateSubmission(form, assignments, user, newId, now, reply, dec);
    if r.Created? {
      assert CreateRefusal(form, assignments, user, now).None?;
      var a := assignments[ChosenId(form).value];
      FormErrorsEmpty(SubmittedTitle(form, a), SubmittedContent(form));
      assert FormErrors(SubmittedTitle(form, a), SubmittedContent(form)) == {};
      var sub := FirstSave(form, a, user, newId, now);
      var scan := ScanFrom(form.files, 0, NO_FILES, Supported);
      GradeOnCreateSettles(sub, a, scan, reply, dec, now);
      assert r.submission == GradeOnCreate(sub, a, scan, reply, dec, now);
    }
  }

  /** With the checks and the serializer passed: all files accepted means the submission is
      created with every file stored; the first file that fails to store
      is reported as a server error and nothing is created. */
  lemma CreateStoresFiles(form: SubmitForm, assignments: map<nat, Assignment>, user: User, newId: nat, now: int,
                          reply: Dispatch, dec: Decoder, k: nat)
    requires CreateRefusal(form, assignments, user, now).None?
    ensures FormErrors(SubmittedTitle(form, assignments[ChosenId(form).value]), SubmittedContent(form)) == {} &&
            (forall m :: 0 <= m < |form.files| ==> Accepted(form.files[m], Supported)) ==>
      (var r := CreateSubmission(form, assignments, user, newId, now, reply, dec);
       r.Created? && r.storedFiles == Names(form.files))
    ensures FormErrors(SubmittedTitle(form, assignments[ChosenId(form).value]), SubmittedContent(form)) == {} &&
            (k < |form.files| && form.files[k].storeError.Some? && forall m :: 0 <= m < k ==> Accepted(form.files[m], Supported)) ==>
      CreateSubmission(form, assignments, user, newId, now, reply, dec) ==
      Refused(500, "文件 " + form.files[k].name + " 上传失败: " + form.files[k].storeError.value)
  {
    ScanAccepts(form.files, 0, NO_FILES, Supported);
    assert form.files[0..] == form.files;
    if k < |form.files| && form.files[k].storeError.Some? && forall m :: 0 <= m < k ==> Accepted(form.files[m], Supported) {
      ScanReportsFailure(form.files, 0, NO_FILES, Supported, k);
    }
  }

  // ---------------------------------------------------------------------
  // `grade`

  /** The grading form; an absent comment is the empty text and an absent
      return flag is false. */
  datatype GradeForm = GradeForm(score: Option<int>, teacherComment: string, isReturned: bool)

  datatype GradeReply =
    | GradeRefused(status: nat, detail: string)
    /** `stored` is the row after the save, `shown` the record in the reply. */
    | Graded(stored: Submission, shown: Submission)

  const NOT_YOUR_SUBMISSION := "无权批改此提交"

  /** The fields the grading save writes. */
  const GRADE_UPDATE_FIELDS: set<string> := {"score", "teacher_comment", "is_returned", "update_time"}

  /** The record the view builds in memory. */
  function GradedRecord(sub: Submission, form: GradeForm, now: int): Submission {
    var kept := if form.score.Some? then form.score else sub.score;
    sub.(score := if form.isReturned then None else kept,
         submitted := if form.isReturned then false else sub.submitted,
         teacherComment := Some(form.teacherComment),
         isReturned := form.isReturned,
         updateTime := Some(now))
  }

  /** `grade` as written: the save lists score, comment, return flag and
      update time, but not `submitted`, so a returned submission is still
      stored as submitted. */
  function GradeAsWritten(sub: Submission, a: Assignment, teacher: User, form: GradeForm, now: int): GradeReply {
    if a.courseClass.None? || a.courseClass.value.teacher != teacher.id then GradeRefused(403, NOT_YOUR_SUBMISSION)
    else
      var shown := GradedRecord(sub, form, now);
      Graded(shown.(submitted := sub.submitted), shown)
  }

  /** `grade` with `submitted` saved too. */
  function Grade(sub: Submission, a: Assignment, teacher: User, form: GradeForm, now: int): GradeReply {
    if a.courseClass.None? || a.courseClass.value.teacher != teacher.id then GradeRefused(403, NOT_YOUR_SUBMISSION)
    else
      var shown := GradedRecord(sub, form, now);
      Graded(shown, shown)
  }

  /** Returning a submission that was submitted: the reply says it is no
      longer submitted, but the stored row still says it is. */
  lemma ReturnedStaysSubmitted(sub: Submission, a: Assignment, teacher: User, form: GradeForm, now: int)
    requires a.courseClass.Some? && a.courseClass.value.teacher == teacher.id
    requires form.isReturned && sub.submitted
    ensures var r := GradeAsWritten(sub, a, teacher, form, now);
      r.Graded? && !r.shown.submitted && r.stored.submitted && r.stored != r.shown
  {
  }

  /** Only the course's teacher may grade. The stored row is what the reply
      shows. Without a score the old one is kept; returning clears the
      score and marks the submission not submitted; the comment and return
      flag are written; only grading fields change. The save announces a
      grade exactly when a score is stored. */
  lemma GradeRules(sub: Submission, a: Assignment, teacher: User, student: User, form: GradeForm, now: int)
    ensures Grade(sub, a, teacher, form, now).GradeRefused? <==>
      a.courseClass.None? || a.courseClass.value.teacher != teacher.id
    ensures var r := Grade(sub, a, teacher, form, now);
      r.Graded? ==>
        r.stored == r.shown &&
        (form.isReturned ==> r.stored.score.None? && !r.stored.submitted) &&
        (!form.isReturned && form.score.None? ==> r.stored.score == sub.score) &&
        (!form.isReturned && form.score.Some? ==> r.stored.score == form.score) &&
        r.stored.teacherComment == Some(form.teacherComment) && r.stored.isReturned == form.isReturned &&
        r.stored.(score := sub.score, submitted := sub.submitted, teacherComment := sub.teacherComment,
                  isReturned := sub.isReturned, updateTime := sub.updateTime) == sub
    ensures var r := Grade(sub, a, teacher, form, now);
      r.Graded? ==>
        (|SubmissionNotices(r.stored, false, Some(GRADE_UPDATE_FIELDS), a, student, now)| == 1 <==> r.stored.score.Some?)
  {
  }

  // ---------------------------------------------------------------------
  // `available_courses`

  datatype CourseRow = CourseRow(id: nat, name: string, code: string, credit: real)
  datatype ClassRow = ClassRow(id: nat, name: string)

  /** One result row: a course offered to a class. */
  datatype Offer = Offer(courseId: nat, courseName: string, courseCode: string, classId: nat, className: string, credit: real)

  function MakeOffer(c: CourseRow, k: ClassRow): Offer {
    Offer(c.id, c.name, c.code, k.id, k.name, c.credit)
  }

  /** `name__icontains=search`, skipped when the search is empty. */
  predicate MatchesSearch(name: string, search: string) {
    search == "" || Contains(Lower(name), Lower(search))
  }

  function SearchCourses(cs: seq<CourseRow>, search: string): (r: seq<CourseRow>)
    ensures forall c :: c in r <==> c in cs && MatchesSearch(c.name, search)
    decreases |cs|
  {
    if |cs| == 0 then []
    else (if MatchesSearch(cs[0].name, search) then [cs[0]] else []) + SearchCourses(cs[1..], search)
  }

  function SearchClasses(ks: seq<ClassRow>, search: string): (r: seq<ClassRow>)
    ensures forall k :: k in r <==> k in ks && MatchesSearch(k.name, search)
    decreases |ks|
  {
    if |ks| == 0 then []
    else (if MatchesSearch(ks[0].name, search) then [ks[0]] else []) + SearchClasses(ks[1..], search)
  }

  /** The (course, class) pairs the teacher already teaches. */
  function BoundPairs(tccs: seq<TeacherCourseClass>, teacher: nat): set<(nat, nat)> {
    set t | t in tccs && t.teacher == teacher :: (t.course, t.classId)
  }

  /** The offers of one course, over the classes in order. */
  function CourseOffers(c: CourseRow, ks: seq<ClassRow>, bound: set<(nat, nat)>): seq<Offer>
    decreases |ks|
  {
    if |ks| == 0 then []
    else CourseOffers(c, ks[..|ks| - 1], bound) +
         (if (c.id, ks[|ks| - 1].id) !in bound then [MakeOffer(c, ks[|ks| - 1])] else [])
  }

  /** All offers, course by course. */
  function Offers(cs: seq<CourseRow>, ks: seq<ClassRow>, bound: set<(nat, nat)>): seq<Offer>
    decreases |cs|
  {
    if |cs| == 0 then [] else Offers(cs[..|cs| - 1], ks, bound) + CourseOffers(cs[|cs| - 1], ks, bound)
  }

  /** Python's `s[start:end]`: negative bounds count from the end, and
      every bound is cut to the sequence. */
  function PySlice<T>(s: seq<T>, start: int, end: int): (r: seq<T>)
    ensures 0 <= start <= end <= |s| ==> r == s[start..end]
    ensures |r| <= |s|
  {
    var n := |s|;
    var i := if start < 0 then (if start + n < 0 then 0 else start + n) else (if start > n then n else start);
    var j := if end < 0 then (if end + n < 0 then 0 else end + n) else (if end > n then n else end);
    if i < j then s[i..j] else []
  }

  datatype CoursePage = CoursePage(count: nat, results: seq<Offer>)

  /** The nested loop of `available_courses`: for each course, each class
      not already bound to it. */
  method CollectOffers(cs: seq<CourseRow>, ks: seq<ClassRow>, bound: set<(nat, nat)>) returns (offers: seq<Offer>)
    ensures offers == Offers(cs, ks, bound)
  {
    offers := [];
    for i := 0 to |cs|
      invariant offers == Offers(cs[..i], ks, bound)
    {
      assert cs[..i + 1][..i] == cs[..i];
      var c := cs[i];
      for j := 0 to |ks|
        invariant offers == Offers(cs[..i], ks, bound) + CourseOffers(c, ks[..j], bound)
      {
        assert ks[..j + 1][..j] == ks[..j];
        if (c.id, ks[j].id) !in bound {
          offers := offers + [MakeOffer(c, ks[j])];
        }
      }
      assert ks[..|ks|] == ks;
    }
    assert cs[..|cs|] == cs;
  }

  /** `available_courses`: every (course, class) pair among the searched
      courses and classes that the teacher does not teach yet, counted in
      full, and the requested page of them. */
  method AvailableCourses(teacher: nat, tccs: seq<TeacherCourseClass>, courses: seq<CourseRow>, classes: seq<ClassRow>,
                          search: string, page: int, pageSize: int) returns (r: CoursePage)
    ensures var all := Offers(SearchCourses(courses, search), SearchClasses(classes, search), BoundPairs(tccs, teacher));
      r.count == |all| && r.results == PySlice(all, (page - 1) * pageSize, (page - 1) * pageSize + pageSize)
  {
    var offers := CollectOffers(SearchCourses(courses, search), SearchClasses(classes, search), BoundPairs(tccs, teacher));
    var start := (page - 1) * pageSize;
    r := CoursePage(|offers|, PySlice(offers, start, start + pageSize));
  }

  /** The offers of one course are exactly its unbound classes. */
  lemma {:induction false} CourseOffersExact(c: CourseRow, ks: seq<ClassRow>, bound: set<(nat, nat)>, o: Offer)
    ensures o in CourseOffers(c, ks, bound) <==> exists k :: k in ks && (c.id, k.id) !in bound && o == MakeOffer(c, k)
    decreases |ks|
  {
    if |ks| > 0 {
      var init := ks[..|ks| - 1];
      var last := ks[|ks| - 1];
      CourseOffersExact(c, init, bound, o);
      assert ks == init + [last];
      if o in CourseOffers(c, ks, bound) && o !in CourseOffers(c, init, bound) {
        assert o == MakeOffer(c, last);
      }
    }
  }

  /** The offers are exactly the unbound pairs of the given courses and
      classes, and there are at most |courses| * |classes| of them. */
  lemma {:induction false} OffersExact(cs: seq<CourseRow>, ks: seq<ClassRow>, bound: set<(nat, nat)>, o: Offer)
    ensures o in Offers(cs, ks, bound) <==>
      exists c, k :: c in cs && k in ks && (c.id, k.id) !in bound && o == MakeOffer(c, k)
    decreases |cs|
  {
    if |cs| > 0 {
      var init := cs[..|cs| - 1];
      var last := cs[|cs| - 1];
      OffersExact(init, ks, bound, o);
      CourseOffersExact(last, ks, bound, o);
      assert cs == init + [last];
    }
  }

  lemma {:induction false} OffersCount(cs: seq<CourseRow>, ks: seq<ClassRow>, bound: set<(nat, nat)>)
    ensures |Offers(cs, ks, bound)| <= |cs| * |ks|
    decreases |cs|
  {
    if |cs| > 0 {
      OffersCount(cs[..|cs| - 1], ks, bound);
      CourseOffersCount(cs[|cs| - 1], ks, bound);
      assert |cs| * |ks| == (|cs| - 1) * |ks| + |ks| by {
        MulStep(|cs| - 1, |ks|);
      }
    }
  }

  lemma MulStep(a: int, b: int)
    ensures (a + 1) * b == a * b + b
  {
  }

  lemma {:induction false} CourseOffersCount(c: CourseRow, ks: seq<ClassRow>, bound: set<(nat, nat)>)
    ensures |CourseOffers(c, ks, bound)| <= |ks|
    decreases |ks|
  {
    if |ks| > 0 {
      CourseOffersCount(c, ks[..|ks| - 1], bound);
    }
  }

  /** For page p >= 1 and size s >= 0 the page is the offers from index
      (p-1)*s up to p*s, cut to the list: pages tile the list. */
  lemma PageWindow<T>(all: seq<T>, page: int, size: int)
    requires page >= 1 && size >= 0
    ensures var start := (page - 1) * size;
      var stop := if start + size > |all| then |all| else start + size;
      start <= |all| ==> PySlice(all, start, start + size) == all[start..stop]
    ensures (page - 1) * size >= |all| ==> PySlice(all, (page - 1) * size, (page - 1) * size + size) == []
  {
    var start := (page - 1) * size;
    NonNegativeProduct(page - 1, size);
    assert 0 <= start <= start + size;
  }

  lemma NonNegativeProduct(a: int, b: int)
    requires a >= 0 && b >= 0
    ensures a * b >= 0
  {
  }
}
