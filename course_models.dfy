/** The course app's records (backend/course/models.py): assignments, the
    submissions with their AI-grading state, and the two save hooks that
    notify students and teachers. Times are seconds; money-like decimals
    (scores) are reals. */
module CourseModels {
  import opened Wrappers
  import opened Text
  import opened Accounts
  import opened NotificationModels
  import opened CourseUtils

  /** The AI-grading state of a submission. */
  datatype GradingStatus = Pending | Processing | Completed | Failed | Skipped

  /** The stored code of each state. */
  function StatusCode(s: GradingStatus): string {
    match s
    case Pending => "pending"
    case Processing => "processing"
    case Completed => "completed"
    case Failed => "failed"
    case Skipped => "skipped"
  }

  /** The state a new submission starts in. */
  const DEFAULT_GRADING_STATUS: GradingStatus := Pending

  /** The maximum score of an assignment that sets none. */
  const DEFAULT_MAX_SCORE: real := 100.0

  /** States the grading pipeline never leaves once reached. */
  predicate Terminal(s: GradingStatus) {
    s == Completed || s == Failed || s == Skipped
  }

  /** The five codes are distinct, so the stored code determines the state. */
  lemma StatusCodesDistinct(s: GradingStatus, t: GradingStatus)
    ensures StatusCode(s) == StatusCode(t) <==> s == t
  {
  }

  /** A course taught to a class by a teacher. */
  datatype TeacherCourseClass = TeacherCourseClass(
    id: nat, course: nat, courseName: string, classId: nat, className: string, teacher: nat)

  /** An assignment; `courseClass` and `deployer` are required by the schema
      but the hooks test them, so they may be absent here. */
  datatype Assignment = Assignment(
    id: nat,
    courseClass: Option<TeacherCourseClass>,
    title: string,
    dueDate: int,
    maxScore: real,
    deployer: Option<nat>,
    active: bool,
    aiGradingEnabled: bool,
    aiGradingPrompt: Option<string>)

  /** A new assignment with the schema's defaults. */
  function NewAssignment(id: nat, tcc: TeacherCourseClass, title: string, dueDate: int, deployer: nat): (a: Assignment)
    ensures a.maxScore == DEFAULT_MAX_SCORE && a.active && !a.aiGradingEnabled && a.aiGradingPrompt.None?
  {
    Assignment(id, Some(tcc), title, dueDate, DEFAULT_MAX_SCORE, Some(deployer), true, false, None)
  }

  /** A student's submission. */
  datatype Submission = Submission(
    id: nat,
    assignment: nat,
    student: nat,
    title: string,
    content: string,
    score: Option<int>,
    teacherComment: Option<string>,
    isReturned: bool,
    submitted: bool,
    aiComment: Option<string>,
    aiScore: Option<real>,
    similarity: Option<real>,
    status: GradingStatus,
    taskId: Option<string>,
    updateTime: Option<int>)

  /** A new submission with the schema's defaults: submitted, not returned,
      ungraded, AI grading pending. */
  function NewSubmission(id: nat, assignment: nat, student: nat, title: string, content: string, now: int): (s: Submission)
    ensures s.status == DEFAULT_GRADING_STATUS && s.submitted && !s.isReturned
    ensures s.score.None? && s.aiScore.None? && s.aiComment.None? && s.taskId.None?
    ensures s.updateTime == Some(now)
  {
    Submission(id, assignment, student, title, content, None, None, false, true,
               None, None, None, DEFAULT_GRADING_STATUS, None, Some(now))
  }

  // ---------------------------------------------------------------------
  // The assignment save hook

  /** The students the assignment hook writes to: active accounts with the
      student role enrolled in the class. */
  predicate IsClassStudent(u: User, classId: nat) {
    u.classEnrolled == Some(classId) && u.role == STUDENT && u.isActive
  }

  /** The class's active students, in account order. */
  function ClassStudents(users: seq<User>, classId: nat): (r: seq<User>)
    ensures |r| <= |users|
    ensures forall j :: 0 <= j < |r| ==> r[j] in users && IsClassStudent(r[j], classId)
    ensures forall u :: u in users && IsClassStudent(u, classId) ==> u in r
    decreases |users|
  {
    if |users| == 0 then []
    else
      var rest := ClassStudents(users[1..], classId);
      assert forall u :: u in users ==> u == users[0] || u in users[1..];
      if IsClassStudent(users[0], classId) then [users[0]] + rest else rest
  }

  /** "发布了新作业" on creation, "更新了作业" on any later save. */
  function ActionText(created: bool): string {
    if created then "发布了新作业" else "更新了作业"
  }

  /** The notice one student gets; `dueText` is the due date as rendered. */
  function AssignmentNotice(a: Assignment, tcc: TeacherCourseClass, created: bool, student: User,
                            dueText: string, now: int): Notification
  {
    NewNotification(student.id, a.deployer, ASSIGNMENT_NEW,
                    Some("作业" + ActionText(created) + ": " + a.title),
                    "课程 '" + tcc.courseName + "' " + ActionText(created) + " '" + a.title + "'。截止日期: " + dueText + "。",
                    now)
      .(objectId := Some(a.id), canRecipientDelete := false, canRecipientReply := false)
  }

  /** The notices one save of an assignment sends. */
  function AssignmentNotices(a: Assignment, created: bool, users: seq<User>, dueText: string, now: int): seq<Notification> {
    match a.courseClass
    case None => []
    case Some(tcc) =>
      var students := ClassStudents(users, tcc.classId);
      seq(|students|, j requires 0 <= j < |students| => AssignmentNotice(a, tcc, created, students[j], dueText, now))
  }

  /** `assignment_created_or_updated_notification`: one row per student of
      the class, created in a loop. */
  method NotifyAssignmentSaved(a: Assignment, created: bool, users: seq<User>, dueText: string, now: int)
    returns (sent: seq<Notification>)
    ensures sent == AssignmentNotices(a, created, users, dueText, now)
  {
    sent := [];
    if a.courseClass.None? {
      return;
    }
    var tcc := a.courseClass.value;
    var students := ClassStudents(users, tcc.classId);
    for j := 0 to |students|
      invariant |sent| == j
      invariant forall k :: 0 <= k < j ==> sent[k] == AssignmentNotice(a, tcc, created, students[k], dueText, now)
    {
      sent := sent + [AssignmentNotice(a, tcc, created, students[j], dueText, now)];
    }
  }

  /** Every save of an assignment of a class sends exactly one notice per
      listed active student of the class, in account order. */
  lemma AssignmentNoticeCount(a: Assignment, created: bool, users: seq<User>, dueText: string, now: int)
    requires a.courseClass.Some?
    ensures |AssignmentNotices(a, created, users, dueText, now)| == |ClassStudents(users, a.courseClass.value.classId)| <= |users|
    ensures forall j :: 0 <= j < |AssignmentNotices(a, created, users, dueText, now)| ==>
      AssignmentNotices(a, created, users, dueText, now)[j].recipient == ClassStudents(users, a.courseClass.value.classId)[j].id
  {
  }

  /** No active student of the class is missed. */
  lemma AssignmentNoticesReachEveryStudent(a: Assignment, created: bool, users: seq<User>, dueText: string, now: int, u: User)
    requires a.courseClass.Some? && u in users && IsClassStudent(u, a.courseClass.value.classId)
    ensures exists j :: (0 <= j < |AssignmentNotices(a, created, users, dueText, now)| &&
                         AssignmentNotices(a, created, users, dueText, now)[j].recipient == u.id)
  {
    var students := ClassStudents(users, a.courseClass.value.classId);
    var r := AssignmentNotices(a, created, users, dueText, now);
    var j :| 0 <= j < |students| && students[j] == u;
    assert r[j].recipient == u.id;
  }

  /** Each notice is an `assignment_new` from the deployer about this
      assignment, neither deletable nor repliable, unread, and titled by
      whether the save created the assignment. */
  lemma AssignmentNoticeShape(a: Assignment, created: bool, users: seq<User>, dueText: string, now: int, j: nat)
    requires j < |AssignmentNotices(a, created, users, dueText, now)|
    ensures var n := AssignmentNotices(a, created, users, dueText, now)[j];
      n.kind == ASSIGNMENT_NEW && n.sender == a.deployer && n.objectId == Some(a.id) &&
      !n.canRecipientDelete && !n.canRecipientReply && !n.isRead &&
      n.title == Some("作业" + ActionText(created) + ": " + a.title)
  {
  }

  /** A hook on an assignment without a class sends nothing. */
  lemma AssignmentWithoutClassSendsNothing(a: Assignment, created: bool, users: seq<User>, dueText: string, now: int)
    requires a.courseClass.None?
    ensures AssignmentNotices(a, created, users, dueText, now) == []
  {
  }

  // ---------------------------------------------------------------------
  // The submission save hook

  /** The notice the deployer gets for a new submission. */
  function SubmittedNotice(sub: Submission, a: Assignment, student: User, teacher: nat, now: int): Notification {
    NewNotification(teacher, Some(student.id), SUBMISSION_NEW,
                    Some("新作业提交: " + a.title),
                    "学生 " + DisplayName(student) + " 提交了作业 '" + a.title + "'。", now)
      .(objectId := Some(sub.id), canRecipientDelete := true, canRecipientReply := false)
  }

  /** The notice the student gets for a grade. */
  function GradedNotice(sub: Submission, a: Assignment, score: int, now: int): Notification {
    var remark := if sub.teacherComment.Some? && sub.teacherComment.value != "" then " 教师评语: " + sub.teacherComment.value else "";
    NewNotification(sub.student, a.deployer, ASSIGNMENT_GRADED,
                    Some("作业已批改: " + a.title),
                    "您提交的作业 '" + a.title + "' 已被批改。得分: " + IntToString(score) + "。" + remark, now)
      .(objectId := Some(sub.id), canRecipientDelete := false, canRecipientReply := false)
  }

  /** `assignment_graded_or_submitted_notification`: `updateFields` is the
      save's `update_fields` (`None` for a full save). */
  function SubmissionNotices(sub: Submission, created: bool, updateFields: Option<set<string>>,
                             a: Assignment, student: User, now: int): seq<Notification>
  {
    if created && sub.submitted then
      (if a.deployer.Some? then [SubmittedNotice(sub, a, student, a.deployer.value, now)] else [])
    else if !created && updateFields.Some? && "score" in updateFields.value && sub.score.Some? then
      [GradedNotice(sub, a, sub.score.value, now)]
    else []
  }

  /** At most one notice per save. A submitted new submission tells the
      deployer (deletable, not repliable); an update that saves a present
      score tells the student (neither deletable nor repliable); every
      other save, including a full save of a score, sends nothing. */
  lemma SubmissionNoticeRules(sub: Submission, created: bool, updateFields: Option<set<string>>,
                              a: Assignment, student: User, now: int)
    ensures var r := SubmissionNotices(sub, created, updateFields, a, student, now);
      |r| <= 1 &&
      (|r| == 1 <==> (created && sub.submitted && a.deployer.Some?) ||
                     (!created && updateFields.Some? && "score" in updateFields.value && sub.score.Some?))
    ensures var r := SubmissionNotices(sub, created, updateFields, a, student, now);
      created && |r| == 1 ==>
        r[0].kind == SUBMISSION_NEW && Some(r[0].recipient) == a.deployer && r[0].sender == Some(student.id) &&
        r[0].canRecipientDelete && !r[0].canRecipientReply
    ensures var r := SubmissionNotices(sub, created, updateFields, a, student, now);
      !created && |r| == 1 ==>
        r[0].kind == ASSIGNMENT_GRADED && r[0].recipient == sub.student && r[0].sender == a.deployer &&
        !r[0].canRecipientDelete && !r[0].canRecipientReply
  {
  }

  // ---------------------------------------------------------------------
  // Storing a decoded grading answer

  /** The similarity key of the model's answer. */
  const SIMILARITY_KEY := "AI生成疑似度"

  /** `json.loads` (`None` where it raises), `float()` on text (`None`
      where it raises ValueError), and `str()`/`repr()` of a decoded value. */
  datatype Decoder = Decoder(
    parse: string -> Option<Json>,
    toFloat: string -> Option<real>,
    str: Json -> string,
    repr: Json -> string)

  /** `min(max(0, x), m)` as Python computes it. */
  function Clamp(x: real, m: real): (r: real)
    ensures 0.0 <= m ==> 0.0 <= r <= m
    ensures 0.0 <= x <= m ==> r == x
    ensures r <= m
  {
    var low := if 0.0 >= x then 0.0 else x;
    if m < low then m else low
  }

  /** `float()` of a scalar value: `None` for `null` and for text it
      rejects. */
  function NumberFrom(v: Json, dec: Decoder): Option<real>
    requires !v.JArray? && !v.JObject?
  {
    match v
    case JNull => None
    case JBool(b) => Some(if b then 1.0 else 0.0)
    case JNumber(x) => Some(x)
    case JString(t) => dec.toFloat(t)
  }

  /** A score to store, or the text of the exception computing it raised. */
  datatype ScoreOutcome = Score(value: Option<real>) | ScoreRaised(raised: string)

  /** What a text field stores for a decoded value: text as is, `null` as
      no value, anything else as its `str()`. */
  function TextFrom(v: Json, dec: Decoder): Option<string> {
    match v
    case JNull => None
    case JString(t) => Some(t)
    case _ => Some(dec.str(v))
  }

  /** What the float similarity column accepts for a decoded value (`None`
      when the key is absent or `null`), or the error the save raises. */
  datatype FloatOutcome = Float(value: Option<real>) | FloatRaised(raised: string)

  function SimilarityFrom(v: Option<Json>, dec: Decoder): FloatOutcome {
    match v
    case None => Float(None)
    case Some(JNull) => Float(None)
    case Some(JBool(b)) => Float(Some(if b then 1.0 else 0.0))
    case Some(JNumber(x)) => Float(Some(x))
    case Some(JString(t)) =>
      (match dec.toFloat(t)
       case Some(x) => Float(Some(x))
       case None => FloatRaised("Field 'ai_generated_similarity' expected a number but got " + dec.repr(v.value) + "."))
    case Some(other) => FloatRaised("Field 'ai_generated_similarity' expected a number but got " + dec.repr(other) + ".")
  }

  /** How a decoded answer is read: an object with both keys, a
      list holding both key strings (whose `.get` then raises), or anything
      else (nothing decoded, an empty value, a missing key). Text that
      starts with `{` or `[` decodes only to an object or a list. */
  predicate HasGradeKeys(m: map<string, Json>) {
    "score" in m && "comment" in m
  }

  predicate ListWithGradeKeys(items: seq<Json>) {
    JString("score") in items && JString("comment") in items
  }
}
