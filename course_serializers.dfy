/** The computed fields of the course serializers
    (backend/course/serializers.py): submission status labels, the time
    left before a deadline, attachment URLs, a student's pending-assignment
    count and the teacher's display name. Times are whole seconds. */
module CourseSerializers {
  import opened Wrappers
  import opened Text
  import opened Accounts
  import opened CourseModels

  const NOT_SUBMITTED := "未提交"
  const RETURNED := "被退回"
  const MARKED := "已批改"
  const SUBMITTED := "已提交"
  const OVERDUE := "已过期"
  const NO_TEACHER := "暂无教师信息"

  /** The status column of the assignment list. `mine` are the viewing
      student's submissions to the assignment; the first one is used. A
      return is reported before a score. */
  function ListStatus(mine: seq<Submission>): (r: string)
    ensures |mine| == 0 <==> r == NOT_SUBMITTED
    ensures |mine| > 0 ==>
      (r == RETURNED <==> mine[0].isReturned) &&
      (r == MARKED <==> !mine[0].isReturned && mine[0].score.Some?) &&
      (r == SUBMITTED <==> !mine[0].isReturned && mine[0].score.None?)
  {
    if |mine| == 0 then NOT_SUBMITTED
    else if mine[0].isReturned then RETURNED
    else if mine[0].score.Some? then MARKED
    else SUBMITTED
  }

  /** The status of the brief assignment view: without a submission it is
      "not submitted" strictly before the due time and "overdue" from it;
      a scored submission shows its score. */
  function BriefStatus(mine: seq<Submission>, due: int, now: int): (r: string)
    ensures |mine| == 0 ==> (r == NOT_SUBMITTED <==> due > now) && (r == OVERDUE <==> due <= now)
    ensures |mine| > 0 && mine[0].score.Some? ==> r == "已评分 (" + IntToString(mine[0].score.value) + ")"
    ensures |mine| > 0 && mine[0].score.None? ==> r == SUBMITTED
  {
    if |mine| == 0 then (if due > now then NOT_SUBMITTED else OVERDUE)
    else if mine[0].score.Some? then "已评分 (" + IntToString(mine[0].score.value) + ")"
    else SUBMITTED
  }

  const DAY := 86400
  const HOUR := 3600

  /** `timedelta.days` of a span in seconds (rounded down). */
  function Days(delta: int): int {
    delta / DAY
  }

  /** `timedelta.seconds`: what is left after the whole days, in [0, 86400). */
  function Seconds(delta: int): (r: int)
    ensures 0 <= r < DAY
  {
    delta % DAY
  }

  /** The remaining-time column. */
  function RemainingTime(due: int, now: int): string {
    var delta := due - now;
    if Days(delta) < 0 then OVERDUE
    else NatToString(Days(delta)) + "天" + NatToString(Seconds(delta) / HOUR) + "小时"
  }

  /** The time left is shown exactly when the due time has not passed; the
      days and hours then recompose the span to within an hour. */
  lemma RemainingTimeRules(due: int, now: int)
    ensures RemainingTime(due, now) == OVERDUE <==> due < now
    ensures due >= now ==>
      0 <= Seconds(due - now) / HOUR < 24 &&
      Days(due - now) * DAY + (Seconds(due - now) / HOUR) * HOUR <= due - now <
      Days(due - now) * DAY + (Seconds(due - now) / HOUR) * HOUR + HOUR
  {
    var delta := due - now;
    assert delta == Days(delta) * DAY + Seconds(delta);
    if delta < 0 {
      assert Days(delta) < 0;
    }
  }

  /** The storage settings the attachment URL is built from. */
  datatype Storage = Storage(endpoint: string, bucket: string)

  /** The endpoint with a scheme and without trailing slashes. */
  function BaseUrl(endpoint: string): string {
    RStripChar(WithScheme(endpoint), '/')
  }

  /** The bucket segment of the URL: the bucket with its slashes
      stripped, and '/', or nothing when that leaves it empty. */
  function BucketPath(bucket: string): (r: string)
    ensures r == "" || (r[|r| - 1] == '/' && r[0] != '/')
  {
    var stripped := if bucket != "" then StripChar(bucket, '/') else bucket;
    if stripped != "" then
      assert stripped[0] == LStripChar(bucket, '/')[0];
      stripped + "/"
    else ""
  }

  /** The URL of one stored file. */
  function FileUrl(st: Storage, fileName: string): string {
    BaseUrl(st.endpoint) + "/" + BucketPath(st.bucket) + fileName
  }

  function StripChar(s: string, c: char): string {
    RStripChar(LStripChar(s, c), c)
  }

  /** The endpoint with a scheme. */
  function WithScheme(endpoint: string): (r: string)
    ensures |r| >= 4 && r[..4] == "http"
  {
    if StartsWith(endpoint, "http") then endpoint
    else
      var r := "http://" + endpoint;
      assert r[..4] == "http://"[..4];
      r
  }

  /** The base has a scheme and no trailing slash, and so every URL
      starts with "http". */
  lemma BaseUrlShape(st: Storage, fileName: string)
    ensures |BaseUrl(st.endpoint)| >= 4 && BaseUrl(st.endpoint)[..4] == "http"
    ensures BaseUrl(st.endpoint)[|BaseUrl(st.endpoint)| - 1] != '/'
    ensures StartsWith(FileUrl(st, fileName), "http")
  {
    var scheme := WithScheme(st.endpoint);
    var base := RStripChar(scheme, '/');
    assert scheme[3] == 'p' by {
      assert scheme[3] == scheme[..4][3];
    }
    assert |base| >= 4;
    assert base[..4] == scheme[..4];
    var url := FileUrl(st, fileName);
    assert url[..4] == base[..4];
  }

  /** One attachment: its original name and its URL. */
  datatype FileEntry = FileEntry(name: string, url: string)

  /** A stored attachment: the original name and the stored file name. */
  datatype StoredFile = StoredFile(originalName: string, fileName: string)

  /** `get_files`: one entry per attachment, in order. */
  method GetFiles(st: Storage, files: seq<StoredFile>) returns (entries: seq<FileEntry>)
    ensures |entries| == |files|
    ensures forall i :: 0 <= i < |files| ==> entries[i] == FileEntry(files[i].originalName, FileUrl(st, files[i].fileName))
  {
    entries := [];
    for i := 0 to |files|
      invariant |entries| == i
      invariant forall j :: 0 <= j < i ==> entries[j] == FileEntry(files[j].originalName, FileUrl(st, files[j].fileName))
    {
      entries := entries + [FileEntry(files[i].originalName, FileUrl(st, files[i].fileName))];
    }
  }

  /** Whether an assignment belongs to the student's class and is still open. */
  predicate OpenForClass(a: Assignment, classEnrolled: Option<nat>, now: int) {
    a.courseClass.Some? && Some(a.courseClass.value.classId) == classEnrolled && a.dueDate > now
  }

  /** The ids of the class's assignments still open. */
  function OpenIds(assignments: seq<Assignment>, classEnrolled: Option<nat>, now: int): (r: seq<nat>)
    ensures |r| <= |assignments|
    ensures forall id :: id in r <==> exists a :: a in assignments && OpenForClass(a, classEnrolled, now) && a.id == id
    decreases |assignments|
  {
    if |assignments| == 0 then []
    else
      var a := assignments[|assignments| - 1];
      var rest := OpenIds(assignments[..|assignments| - 1], classEnrolled, now);
      assert assignments == assignments[..|assignments| - 1] + [a];
      if OpenForClass(a, classEnrolled, now) then rest + [a.id] else rest
  }

  /** The submissions, by anyone, to the given assignments that are not
      returned. */
  function OpenSubmissions(subs: seq<Submission>, ids: seq<nat>): (r: seq<Submission>)
    ensures |r| <= |subs|
    ensures forall s :: s in r <==> s in subs && s.assignment in ids && !s.isReturned
    decreases |subs|
  {
    if |subs| == 0 then []
    else
      var s := subs[|subs| - 1];
      var rest := OpenSubmissions(subs[..|subs| - 1], ids);
      assert subs == subs[..|subs| - 1] + [s];
      if s.assignment in ids && !s.isReturned then rest + [s] else rest
  }

  /** `get_pending_assignments` as written: open assignments minus the
      unreturned submissions to them, counted over every student. */
  function PendingAsWritten(assignments: seq<Assignment>, subs: seq<Submission>, classEnrolled: Option<nat>, now: int): int {
    var ids := OpenIds(assignments, classEnrolled, now);
    |ids| - |OpenSubmissions(subs, ids)|
  }

  /** Whether `student` has an unreturned submission to assignment `id`. */
  predicate Handed(subs: seq<Submission>, student: nat, id: nat) {
    exists s :: s in subs && s.student == student && s.assignment == id && !s.isReturned
  }

  /** The student's open assignments without an unreturned submission of
      theirs. */
  function PendingIds(ids: seq<nat>, subs: seq<Submission>, student: nat): (r: seq<nat>)
    ensures |r| <= |ids|
    ensures forall id :: id in r <==> id in ids && !Handed(subs, student, id)
    decreases |ids|
  {
    if |ids| == 0 then []
    else
      var id := ids[|ids| - 1];
      var rest := PendingIds(ids[..|ids| - 1], subs, student);
      assert ids == ids[..|ids| - 1] + [id];
      if Handed(subs, student, id) then rest else rest + [id]
  }

  /** The count counted for the viewing student only. */
  function Pending(assignments: seq<Assignment>, subs: seq<Submission>, student: User, now: int): (r: nat)
    ensures r <= |OpenIds(assignments, student.classEnrolled, now)|
  {
    |PendingIds(OpenIds(assignments, student.classEnrolled, now), subs, student.id)|
  }

  /** The corrected count is a number of open assignments, none handed in
      by the student, and an assignment the student has handed in is never
      among them. */
  lemma PendingRules(assignments: seq<Assignment>, subs: seq<Submission>, student: User, now: int, id: nat)
    ensures var ids := OpenIds(assignments, student.classEnrolled, now);
      id in PendingIds(ids, subs, student.id) <==> id in ids && !Handed(subs, student.id, id)
    ensures Pending(assignments, subs, student, now) == 0 ==>
      forall a :: a in assignments && OpenForClass(a, student.classEnrolled, now) ==> Handed(subs, student.id, a.id)
  {
    var ids := OpenIds(assignments, student.classEnrolled, now);
    if Pending(assignments, subs, student, now) == 0 {
      assert PendingIds(ids, subs, student.id) == [];
      forall a | a in assignments && OpenForClass(a, student.classEnrolled, now)
        ensures Handed(subs, student.id, a.id)
      {
        assert a.id in ids;
      }
    }
  }

  /** One open assignment, handed in by two classmates: the count as
      written is -1 for a third student, who has not handed it in; the
      corrected count for that student is 1. */
  lemma PendingCountsOtherStudents()
    ensures var tcc := TeacherCourseClass(1, 1, "C", 7, "K", 9);
      var a := NewAssignment(1, tcc, "H", 100, 9);
      var s1 := NewSubmission(1, 1, 2, "H", "x", 0);
      var s2 := NewSubmission(2, 1, 3, "H", "y", 0);
      var viewer := User(4, "u4", None, STUDENT, true, false, false, Some(7));
      PendingAsWritten([a], [s1, s2], Some(7), 50) == -1 &&
      Pending([a], [s1, s2], viewer, 50) == 1
  {
    var tcc := TeacherCourseClass(1, 1, "C", 7, "K", 9);
    var a := NewAssignment(1, tcc, "H", 100, 9);
    var s1 := NewSubmission(1, 1, 2, "H", "x", 0);
    var s2 := NewSubmission(2, 1, 3, "H", "y", 0);
    var viewer := User(4, "u4", None, STUDENT, true, false, false, Some(7));
    assert OpenIds([a], Some(7), 50) == [1] by {
      assert [a][..0] == [];
    }
    assert OpenSubmissions([s1, s2], [1]) == [s1, s2] by {
      assert [s1, s2][..1] == [s1];
      assert [s1][..0] == [];
    }
    assert !Handed([s1, s2], 4, 1);
    assert PendingIds([1], [s1, s2], 4) == [1] by {
      assert [1][..0] == [];
    }
  }

  /** The teacher column: name or username, or a fixed text without a
      teacher. */
  function TeacherName(teacher: Option<User>): (r: string)
    ensures teacher.None? ==> r == NO_TEACHER
    ensures teacher.Some? ==>
      (teacher.value.name.Some? && teacher.value.name.value != "" ==> r == teacher.value.name.value) &&
      (teacher.value.name.None? || teacher.value.name.value == "" ==> r == teacher.value.username)
  {
    if teacher.Some? then DisplayName(teacher.value) else NO_TEACHER
  }
}
