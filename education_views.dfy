/** The education app's views (backend/education/views.py): the login
    role check and the bulk import of students into a class from a sheet.
    Password checking is the `authenticate` result passed in; the sheet
    is its header row and its cells as the reader types them. */
module EducationViews {
  import opened Wrappers
  import opened Text
  import opened Accounts

  /** What `login_view` answers. */
  datatype LoginReply = LoginRefused(status: nat, detail: string) | LoggedIn(role: string, username: string)

  const BAD_CREDENTIALS := "用户名/邮箱或密码错误"

  /** `login_view`: `user` is the account the credentials authenticate,
      `requested` the role the login page declares. */
  function Login(user: Option<User>, requested: Option<string>): LoginReply {
    if user.None? then LoginRefused(401, BAD_CREDENTIALS)
    else
      var u := user.value;
      if requested.Some? && requested.value != "" && u.role != requested.value then
        if u.role == SUPERADMIN && requested.value == ADMIN then LoggedIn(SUPERADMIN, u.username)
        else LoginRefused(403, "该账号角色(" + u.role + ")与选择的(" + requested.value + ")不匹配")
      else LoggedIn(u.role, u.username)
  }

  /** A login succeeds exactly when the credentials hold and the declared
      role is absent, the account's own, or "admin" for a superadmin; it
      always reports the account's real role. */
  lemma LoginRules(user: Option<User>, requested: Option<string>)
    ensures var r := Login(user, requested);
      (r.LoggedIn? <==> (user.Some? &&
        (requested.None? || requested.value == "" || requested.value == user.value.role ||
         (user.value.role == SUPERADMIN && requested.value == ADMIN)))) &&
      (r.LoggedIn? ==> r.role == user.value.role && r.username == user.value.username) &&
      (user.None? ==> r == LoginRefused(401, BAD_CREDENTIALS)) &&
      (r.LoginRefused? && user.Some? ==> r.status == 403)
  {
  }

  /** A sheet cell as the reader types it: text, a whole number, a whole
      number the reader keeps as a float because its column also has
      empty cells, or the empty cell the reader turns into NaN. */
  datatype Cell = Text(s: string) | Int(n: int) | Float(n: int) | Missing

  /** The uploaded sheet: header row and data rows. */
  datatype Sheet = Sheet(headers: seq<string>, rows: seq<seq<Cell>>)

  /** The headers accepted for each standard column, in order. */
  const STUDENT_NUMBER_HEADERS: seq<string> := ["student_number", "student_id", "学号"]
  const NAME_HEADERS: seq<string> := ["name", "姓名"]
  const EMAIL_HEADERS: seq<string> := ["email", "邮箱"]
  const GENDER_HEADERS: seq<string> := ["gender", "性别"]
  const PHONE_HEADERS: seq<string> := ["phone", "手机", "电话"]
  const QQ_HEADERS: seq<string> := ["qq"]
  const PASSWORD_HEADERS: seq<string> := ["password", "初始密码"]

  const REQUIRED_FIELDS: seq<string> := ["student_number", "name", "email", "password"]

  /** A header as the import compares it: lower case, stripped. */
  function Normalized(h: string): string {
    Strip(Lower(h))
  }

  /** The headers as the import compares them. */
  function NormalizedHeaders(headers: seq<string>): (r: seq<string>)
    ensures |r| == |headers| && forall k :: 0 <= k < |headers| ==> r[k] == Normalized(headers[k])
  {
    seq(|headers|, k requires 0 <= k < |headers| => Normalized(headers[k]))
  }

  /** The position of the first of the (normalized) headers equal to `name`. */
  function HeaderIndex(headers: seq<string>, name: string): (r: Option<nat>)
    ensures r.Some? ==> (r.value < |headers| && headers[r.value] == name &&
      forall k :: 0 <= k < r.value ==> headers[k] != name)
    ensures r.None? ==> forall k :: 0 <= k < |headers| ==> headers[k] != name
    decreases |headers|
  {
    if |headers| == 0 then None
    else if headers[0] == name then Some(0)
    else
      var rest := HeaderIndex(headers[1..], name);
      assert forall k :: 1 <= k < |headers| ==> headers[k] == headers[1..][k - 1];
      if rest.None? then None else Some(rest.value + 1)
  }

  /** The column a standard field is read from: the first accepted header
      present. */
  function ColumnFor(alternatives: seq<string>, headers: seq<string>): (r: Option<nat>)
    ensures r.Some? ==> (r.value < |headers| &&
      exists a :: 0 <= a < |alternatives| && HeaderIndex(headers, alternatives[a]) == r &&
        forall b :: 0 <= b < a ==> HeaderIndex(headers, alternatives[b]).None?)
    ensures r.None? ==> forall a :: 0 <= a < |alternatives| ==> HeaderIndex(headers, alternatives[a]).None?
    decreases |alternatives|
  {
    if |alternatives| == 0 then None
    else
      var here := HeaderIndex(headers, alternatives[0]);
      if here.Some? then here
      else
        var rest := ColumnFor(alternatives[1..], headers);
        assert forall a :: 1 <= a < |alternatives| ==> alternatives[a] == alternatives[1..][a - 1];
        if rest.Some? then
          var a' :| 0 <= a' < |alternatives[1..]| && HeaderIndex(headers, alternatives[1..][a']) == rest &&
            forall b :: 0 <= b < a' ==> HeaderIndex(headers, alternatives[1..][b]).None?;
          assert HeaderIndex(headers, alternatives[a' + 1]) == rest;
          rest
        else rest
  }

  /** Where each standard field is read from, given the raw headers. */
  function Columns(headers: seq<string>): map<string, Option<nat>> {
    var h := NormalizedHeaders(headers);
    map["student_number" := ColumnFor(STUDENT_NUMBER_HEADERS, h), "name" := ColumnFor(NAME_HEADERS, h),
        "email" := ColumnFor(EMAIL_HEADERS, h), "gender" := ColumnFor(GENDER_HEADERS, h),
        "phone" := ColumnFor(PHONE_HEADERS, h), "qq" := ColumnFor(QQ_HEADERS, h),
        "password" := ColumnFor(PASSWORD_HEADERS, h)]
  }

  /** The first required field no header provides. */
  function MissingRequired(cols: map<string, Option<nat>>): (r: Option<string>)
    ensures r.Some? ==> r.value in REQUIRED_FIELDS
  {
    if "student_number" !in cols || cols["student_number"].None? then Some("student_number")
    else if "name" !in cols || cols["name"].None? then Some("name")
    else if "email" !in cols || cols["email"].None? then Some("email")
    else if "password" !in cols || cols["password"].None? then Some("password")
    else None
  }

  /** The cell of a row in a standard column, `None` when the file has
      no such column. */
  function CellOf(cols: map<string, Option<nat>>, row: seq<Cell>, field: string): Option<Cell> {
    if field !in cols || cols[field].None? then None
    else if cols[field].value < |row| then Some(row[cols[field].value])
    else Some(Missing)
  }

  /** Python's `str(value).strip()` as written: a float keeps its ".0"
      and an empty cell reads as the text "nan". */
  function CellTextAsWritten(c: Cell): string {
    match c
    case Text(s) => Strip(s)
    case Int(n) => IntToString(n)
    case Float(n) => IntToString(n) + ".0"
    case Missing => "nan"
  }

  /** A cell's value as intended: a whole number is its digits, an empty
      cell is empty. */
  function CellText(c: Cell): string {
    match c
    case Text(s) => Strip(s)
    case Int(n) => IntToString(n)
    case Float(n) => IntToString(n)
    case Missing => ""
  }

  /** A required value as written: an absent column reads as "None". */
  function RequiredTextAsWritten(c: Option<Cell>): string {
    if c.None? then "None" else CellTextAsWritten(c.value)
  }

  /** A required value as intended: an absent column or an empty cell is
      an empty value. */
  function RequiredText(c: Option<Cell>): string {
    if c.None? then "" else CellText(c.value)
  }

  /** An optional value as written: empty for an empty cell or an absent
      column. */
  function OptionalTextAsWritten(c: Option<Cell>): string {
    if c.Some? && !c.value.Missing? then CellTextAsWritten(c.value) else ""
  }

  /** An optional value as intended. */
  function OptionalText(c: Option<Cell>): string {
    if c.Some? then CellText(c.value) else ""
  }

  /** The gender value: the gender cell is stripped without `str`, so a
      number has no `strip` and the row fails (`None`). */
  function GenderText(c: Option<Cell>): Option<string> {
    if c.None? then Some("")
    else
      match c.value
      case Text(s) => Some(Strip(s))
      case Missing => Some("")
      case Int(_) => None
      case Float(_) => None
  }

  /** The message of the failure to strip a number. */
  function NoStripMessage(c: Option<Cell>): string {
    if c.Some? && c.value.Float? then "'float' object has no attribute 'strip'"
    else "'int' object has no attribute 'strip'"
  }

  /** The stored gender code of a gender cell. */
  function GenderCode(g: string): (r: string)
    ensures r in {"M", "F", "O"}
  {
    if g == "男" then "M" else if g == "女" then "F" else "O"
  }

  /** A student the import will create: username and student number are
      the same; `password` is the initial password it is set to. */
  datatype Student = Student(
    username: string, studentNumber: string, name: string, email: string,
    gender: string, phone: string, qq: string, classEnrolled: nat, password: string)

  datatype RowResult = RowOk(student: Student) | RowFailed(error: string)

  /** The checks of one row, given its read values. */
  function CheckValues(studentNumber: string, name: string, email: string, password: string,
                       gender: string, phone: string, qq: string, classId: nat): RowResult {
    if studentNumber == "" || name == "" || email == "" || password == "" then
      RowFailed("学号" + studentNumber + "：必填字段不完整")
    else if '@' !in email then RowFailed("学号" + studentNumber + "：邮箱格式不正确")
    else RowOk(Student(studentNumber, studentNumber, name, email, GenderCode(gender), phone, qq, classId, password))
  }

  /** One row as written. */
  function CheckRowAsWritten(cols: map<string, Option<nat>>, row: seq<Cell>, classId: nat): RowResult {
    var sn := RequiredTextAsWritten(CellOf(cols, row, "student_number"));
    var gender := CellOf(cols, row, "gender");
    if GenderText(gender).None? then RowFailed("学号" + sn + "：" + NoStripMessage(gender))
    else
      CheckValues(sn, RequiredTextAsWritten(CellOf(cols, row, "name")),
                  RequiredTextAsWritten(CellOf(cols, row, "email")), RequiredTextAsWritten(CellOf(cols, row, "password")),
                  GenderText(gender).value, OptionalTextAsWritten(CellOf(cols, row, "phone")),
                  OptionalTextAsWritten(CellOf(cols, row, "qq")), classId)
  }

  /** One row with an empty cell counted as an empty value and a whole
      number read without a decimal point. */
  function CheckRow(cols: map<string, Option<nat>>, row: seq<Cell>, classId: nat): RowResult {
    var sn := RequiredText(CellOf(cols, row, "student_number"));
    var gender := CellOf(cols, row, "gender");
    if GenderText(gender).None? then RowFailed("学号" + sn + "：" + NoStripMessage(gender))
    else
      CheckValues(sn, RequiredText(CellOf(cols, row, "name")),
                  RequiredText(CellOf(cols, row, "email")), RequiredText(CellOf(cols, row, "password")),
                  GenderText(gender).value, OptionalText(CellOf(cols, row, "phone")),
                  OptionalText(CellOf(cols, row, "qq")), classId)
  }

  /** As written, a row whose name cell is empty passes the
      required-field check and imports a student named "nan"; read as
      intended, the same row is refused. */
  lemma EmptyNameImportsNan(cols: map<string, Option<nat>>, row: seq<Cell>, classId: nat)
    requires CellOf(cols, row, "name") == Some(Missing)
    requires CellOf(cols, row, "student_number").Some? && CellOf(cols, row, "student_number").value.Text?
    requires CellOf(cols, row, "email").Some? && CellOf(cols, row, "email").value.Text?
    requires CellOf(cols, row, "password").Some? && CellOf(cols, row, "password").value.Text?
    requires RequiredText(CellOf(cols, row, "student_number")) != "" && RequiredText(CellOf(cols, row, "password")) != ""
    requires '@' in RequiredText(CellOf(cols, row, "email"))
    requires GenderText(CellOf(cols, row, "gender")).Some?
    ensures CheckRowAsWritten(cols, row, classId).RowOk?
    ensures CheckRowAsWritten(cols, row, classId).student.name == "nan"
    ensures CheckRow(cols, row, classId).RowFailed?
  {
    var sn := RequiredText(CellOf(cols, row, "student_number"));
    var em := RequiredText(CellOf(cols, row, "email"));
    var pw := RequiredText(CellOf(cols, row, "password"));
    var g := GenderText(CellOf(cols, row, "gender")).value;
    var ph, ph' := OptionalText(CellOf(cols, row, "phone")), OptionalTextAsWritten(CellOf(cols, row, "phone"));
    var qq, qq' := OptionalText(CellOf(cols, row, "qq")), OptionalTextAsWritten(CellOf(cols, row, "qq"));
    assert CheckRowAsWritten(cols, row, classId) == CheckValues(sn, "nan", em, pw, g, ph', qq', classId);
    assert CheckRow(cols, row, classId) == CheckValues(sn, "", em, pw, g, ph, qq, classId);
    NanPassesCheck(sn, em, pw, g, ph', qq', classId);
    NanPassesCheck(sn, em, pw, g, ph, qq, classId);
  }

  /** As written, a student number in a column that also has empty cells
      is read as a float and the student's username ends in ".0"; read as
      intended, it is the number's digits. */
  lemma FloatNumberKeepsPoint(cols: map<string, Option<nat>>, row: seq<Cell>, classId: nat, n: nat)
    requires CellOf(cols, row, "student_number") == Some(Float(n))
    requires CellOf(cols, row, "name").Some? && CellOf(cols, row, "name").value.Text?
    requires CellOf(cols, row, "email").Some? && CellOf(cols, row, "email").value.Text?
    requires CellOf(cols, row, "password").Some? && CellOf(cols, row, "password").value.Text?
    requires RequiredText(CellOf(cols, row, "name")) != "" && RequiredText(CellOf(cols, row, "password")) != ""
    requires '@' in RequiredText(CellOf(cols, row, "email"))
    requires GenderText(CellOf(cols, row, "gender")).Some?
    ensures CheckRowAsWritten(cols, row, classId).RowOk?
    ensures CheckRowAsWritten(cols, row, classId).student.username == NatToString(n) + ".0"
    ensures CheckRow(cols, row, classId).RowOk?
    ensures CheckRow(cols, row, classId).student.username == NatToString(n)
  {
    var nm := RequiredText(CellOf(cols, row, "name"));
    var em := RequiredText(CellOf(cols, row, "email"));
    var pw := RequiredText(CellOf(cols, row, "password"));
    var g := GenderText(CellOf(cols, row, "gender")).value;
    var ph, ph' := OptionalText(CellOf(cols, row, "phone")), OptionalTextAsWritten(CellOf(cols, row, "phone"));
    var qq, qq' := OptionalText(CellOf(cols, row, "qq")), OptionalTextAsWritten(CellOf(cols, row, "qq"));
    assert CheckRowAsWritten(cols, row, classId) == CheckValues(NatToString(n) + ".0", nm, em, pw, g, ph', qq', classId);
    assert CheckRow(cols, row, classId) == CheckValues(NatToString(n), nm, em, pw, g, ph, qq, classId);
  }

  /** The checks pass a row whose name reads "nan" and refuse it once the
      name is empty. */
  lemma NanPassesCheck(sn: string, em: string, pw: string, g: string, ph: string, qq: string, classId: nat)
    requires sn != "" && pw != "" && '@' in em
    ensures CheckValues(sn, "nan", em, pw, g, ph, qq, classId).RowOk?
    ensures CheckValues(sn, "nan", em, pw, g, ph, qq, classId).student.name == "nan"
    ensures CheckValues(sn, "", em, pw, g, ph, qq, classId).RowFailed?
  {
  }

  /** A row fails on a gender cell holding a number, with the error of
      `strip`; otherwise it is accepted exactly when its four required
      values are present and the email holds an '@'. The student then
      takes the student number as username, the class of the import and a
      gender code. */
  lemma CheckRowRules(cols: map<string, Option<nat>>, row: seq<Cell>, classId: nat)
    ensures var sn := RequiredText(CellOf(cols, row, "student_number"));
      var email := RequiredText(CellOf(cols, row, "email"));
      var gender := CellOf(cols, row, "gender");
      var r := CheckRow(cols, row, classId);
      (GenderText(gender).None? <==> gender.Some? && (gender.value.Int? || gender.value.Float?)) &&
      (GenderText(gender).None? ==> r == RowFailed("学号" + sn + "：" + NoStripMessage(gender))) &&
      (r.RowOk? <==> GenderText(gender).Some? && sn != "" && RequiredText(CellOf(cols, row, "name")) != "" &&
                     email != "" && RequiredText(CellOf(cols, row, "password")) != "" && '@' in email) &&
      (r.RowOk? ==> r.student.username == sn && r.student.studentNumber == sn && r.student.email == email &&
                    r.student.classEnrolled == classId && r.student.gender == GenderCode(GenderText(gender).value)) &&
      (CellOf(cols, row, "name") == Some(Missing) ==> r.RowFailed?)
  {
  }

  /** Gender 男, 女 and 其他 map to M, F and O; anything else, or
      nothing, to O. */
  lemma GenderRules(g: string)
    ensures GenderCode("男") == "M" && GenderCode("女") == "F" && GenderCode("其他") == "O"
    ensures g != "男" && g != "女" ==> GenderCode(g) == "O"
  {
  }

  /** The row check of an import into class `classId` whose columns are
      `cols`. */
  function RowCheck(cols: map<string, Option<nat>>, classId: nat): seq<Cell> -> RowResult {
    row => CheckRow(cols, row, classId)
  }

  /** The students the rows yield under `check`, in row order. */
  function Accepted(rows: seq<seq<Cell>>, check: seq<Cell> -> RowResult): seq<Student>
    decreases |rows|
  {
    if |rows| == 0 then []
    else
      var r := check(rows[|rows| - 1]);
      Accepted(rows[..|rows| - 1], check) + (if r.RowOk? then [r.student] else [])
  }

  /** The error messages of the rows refused under `check`, in row order. */
  function Refused(rows: seq<seq<Cell>>, check: seq<Cell> -> RowResult): seq<string>
    decreases |rows|
  {
    if |rows| == 0 then []
    else
      var r := check(rows[|rows| - 1]);
      Refused(rows[..|rows| - 1], check) + (if r.RowFailed? then [r.error] else [])
  }

  /** The row loop of `import_students`: every row adds to exactly one of
      the two counters, accepted rows to the list to create and refused
      ones to the error list. */
  method CheckRows(rows: seq<seq<Cell>>, check: seq<Cell> -> RowResult)
    returns (toCreate: seq<Student>, success: nat, failed: nat, errors: seq<string>)
    ensures toCreate == Accepted(rows, check) && errors == Refused(rows, check)
    ensures success == |toCreate| && failed == |errors| && success + failed == |rows|
  {
    toCreate, success, failed, errors := [], 0, 0, [];
    for i := 0 to |rows|
      invariant toCreate == Accepted(rows[..i], check) && errors == Refused(rows[..i], check)
      invariant success == |toCreate| && failed == |errors| && success + failed == i
    {
      assert rows[..i + 1][..i] == rows[..i];
      var r := check(rows[i]);
      if r.RowFailed? {
        failed := failed + 1;
        errors := errors + [r.error];
      } else {
        toCreate := toCreate + [r.student];
        success := success + 1;
      }
    }
    assert rows[..|rows|] == rows;
  }

  /** The size of a write batch. */
  const BATCH_SIZE := 100

  /** The usernames of some students that `taken` already holds. */
  function Clashing(batch: seq<Student>, taken: set<string>): (r: set<string>)
    ensures forall u :: u in r <==> u in taken && exists i :: 0 <= i < |batch| && batch[i].username == u
    decreases |batch|
  {
    if |batch| == 0 then {}
    else
      var rest := Clashing(batch[1..], taken);
      assert forall i :: 1 <= i < |batch| ==> batch[i] == batch[1..][i - 1];
      (if batch[0].username in taken then {batch[0].username} else {}) + rest
  }

  /** The students of a batch whose usernames are free, in order. */
  function Free(batch: seq<Student>, taken: set<string>): (r: seq<Student>)
    ensures |r| <= |batch|
    ensures forall i :: 0 <= i < |r| ==> r[i].username !in taken
    decreases |batch|
  {
    if |batch| == 0 then []
    else (if batch[0].username in taken then [] else [batch[0]]) + Free(batch[1..], taken)
  }

  function Usernames(s: seq<Student>): (r: set<string>)
    ensures forall u :: u in r <==> exists i :: 0 <= i < |s| && s[i].username == u
    decreases |s|
  {
    if |s| == 0 then {}
    else
      assert forall i :: 1 <= i < |s| ==> s[i] == s[1..][i - 1];
      {s[0].username} + Usernames(s[1..])
  }

  /** Two students of the list share a username. */
  predicate SharesUsername(s: seq<Student>)
    decreases |s|
  {
    |s| > 0 && (s[0].username in Usernames(s[1..]) || SharesUsername(s[1..]))
  }

  /** A list without a shared username has pairwise distinct usernames. */
  lemma {:induction false} DistinctUsernames(s: seq<Student>)
    requires !SharesUsername(s)
    ensures forall i, j :: 0 <= i < j < |s| ==> s[i].username != s[j].username
    decreases |s|
  {
    if |s| > 0 {
      DistinctUsernames(s[1..]);
      forall i, j | 0 <= i < j < |s| ensures s[i].username != s[j].username {
        if i == 0 {
          assert s[j] == s[1..][j - 1];
        } else {
          assert s[i] == s[1..][i - 1] && s[j] == s[1..][j - 1];
        }
      }
    }
  }

  /** A batch written: the rows for taken usernames move from success to
      failed; the rest is created together, or, when two of them share a
      username, the write fails and they all move to failed. */
  datatype BatchOutcome = BatchOutcome(taken: set<string>, created: seq<Student>, moved: nat)

  function WriteBatch(taken: set<string>, batch: seq<Student>): BatchOutcome {
    var clash := |Clashing(batch, taken)|;
    var kept := Free(batch, taken);
    if SharesUsername(kept) then BatchOutcome(taken, [], clash + |kept|)
    else BatchOutcome(taken + Usernames(kept), kept, clash)
  }

  /** Fewer usernames clash than students are filtered out. */
  lemma {:induction false} ClashBound(batch: seq<Student>, taken: set<string>)
    ensures |Clashing(batch, taken)| + |Free(batch, taken)| <= |batch|
    decreases |batch|
  {
    if |batch| > 0 {
      ClashBound(batch[1..], taken);
      var rest := Clashing(batch[1..], taken);
      if batch[0].username in taken {
        assert Clashing(batch, taken) == {batch[0].username} + rest;
        assert |{batch[0].username} + rest| <= 1 + |rest|;
      } else {
        assert Clashing(batch, taken) == rest;
      }
    }
  }

  /** A batch moves at most its own rows, and creates only students whose
      usernames were free, with distinct usernames, all then taken. */
  lemma WriteBatchRules(taken: set<string>, batch: seq<Student>)
    ensures var o := WriteBatch(taken, batch);
      o.moved + |o.created| <= |batch| &&
      (forall i :: 0 <= i < |o.created| ==> o.created[i].username !in taken && o.created[i].username in o.taken) &&
      (forall i, j :: 0 <= i < j < |o.created| ==> o.created[i].username != o.created[j].username) &&
      taken <= o.taken
  {
    ClashBound(batch, taken);
    var kept := Free(batch, taken);
    var o := WriteBatch(taken, batch);
    if SharesUsername(kept) {
      assert o == BatchOutcome(taken, [], |Clashing(batch, taken)| + |kept|);
    } else {
      assert o == BatchOutcome(taken + Usernames(kept), kept, |Clashing(batch, taken)|);
      DistinctUsernames(kept);
    }
  }

  function Min(a: nat, b: nat): nat {
    if a < b then a else b
  }

  /** One outcome followed by another. */
  function Then(first: BatchOutcome, next: BatchOutcome): BatchOutcome {
    BatchOutcome(next.taken, first.created + next.created, first.moved + next.moved)
  }

  /** All batches written in turn, each seeing the usernames the ones
      before created. */
  function WriteAll(taken: set<string>, pending: seq<Student>): BatchOutcome
    decreases |pending|
  {
    if |pending| == 0 then BatchOutcome(taken, [], 0)
    else
      var n := Min(BATCH_SIZE, |pending|);
      var b := WriteBatch(taken, pending[..n]);
      Then(b, WriteAll(b.taken, pending[n..]))
  }

  lemma ThenAssociates(a: BatchOutcome, b: BatchOutcome, c: BatchOutcome)
    ensures Then(a, Then(b, c)) == Then(Then(a, b), c)
  {
    assert a.created + (b.created + c.created) == (a.created + b.created) + c.created;
  }

  /** Writing the batch at `i` moves it from the batches to come to the
      batches done. */
  lemma BatchLoopStep(done: BatchOutcome, pending: seq<Student>, i: nat, n: nat, b: BatchOutcome)
    requires i < |pending| && n == Min(BATCH_SIZE, |pending| - i) && b == WriteBatch(done.taken, pending[i..i + n])
    ensures Then(Then(done, b), WriteAll(b.taken, pending[i + n..])) == Then(done, WriteAll(done.taken, pending[i..]))
  {
    assert pending[i..][..n] == pending[i..i + n] && pending[i..][n..] == pending[i + n..];
    assert WriteAll(done.taken, pending[i..]) == Then(b, WriteAll(b.taken, pending[i + n..]));
    ThenAssociates(done, b, WriteAll(b.taken, pending[i + n..]));
  }

  /** The batch loop of `import_students`, with the counters it moves. */
  method WriteBatches(taken: set<string>, pending: seq<Student>, success: int, failed: int)
    returns (after: set<string>, created: seq<Student>, success': int, failed': int)
    ensures var o := WriteAll(taken, pending);
      after == o.taken && created == o.created && success' == success - o.moved && failed' == failed + o.moved
    ensures success' + failed' == success + failed
  {
    var done := BatchOutcome(taken, [], 0);
    var i := 0;
    while i < |pending|
      invariant 0 <= i <= |pending|
      invariant Then(done, WriteAll(done.taken, pending[i..])) == WriteAll(taken, pending)
      decreases |pending| - i
    {
      var n := Min(BATCH_SIZE, |pending| - i);
      var b := WriteBatch(done.taken, pending[i..i + n]);
      BatchLoopStep(done, pending, i, n, b);
      done := Then(done, b);
      i := i + n;
    }
    after, created, success', failed' := done.taken, done.created, success - done.moved, failed + done.moved;
  }

  /** All batches together move at most the students they were given. */
  lemma {:induction false} WriteAllBound(taken: set<string>, pending: seq<Student>)
    ensures WriteAll(taken, pending).moved <= |pending|
    decreases |pending|
  {
    if |pending| > 0 {
      var n := Min(BATCH_SIZE, |pending|);
      WriteBatchRules(taken, pending[..n]);
      WriteAllBound(WriteBatch(taken, pending[..n]).taken, pending[n..]);
    }
  }

  /** A batch fails when two of its students with free usernames share
      one: `bulk_create` raises `IntegrityError`. */
  predicate BatchFails(taken: set<string>, batch: seq<Student>) {
    SharesUsername(Free(batch, taken))
  }

  /** How the import's one surrounding transaction ends. */
  datatype TransactionEnd =
    | Committed
    /** The block ended normally but had been marked for rollback. */
    | RolledBack
    /** A query in the marked transaction raised; the import fails. */
    | Aborted

  /** The batches inside one `transaction.atomic()` block, as written: the
      first failing batch marks the whole transaction for rollback; the
      next batch's first query then raises, and when there is no next
      batch the block ends and every batch is undone. */
  function TransactionAsWritten(taken: set<string>, pending: seq<Student>): TransactionEnd
    decreases |pending|
  {
    if |pending| == 0 then Committed
    else
      var n := Min(BATCH_SIZE, |pending|);
      if BatchFails(taken, pending[..n]) then (if n < |pending| then Aborted else RolledBack)
      else TransactionAsWritten(WriteBatch(taken, pending[..n]).taken, pending[n..])
  }

  /** As written, a failure in a batch that is not the last aborts the
      whole import. */
  lemma FailedBatchAborts(taken: set<string>, pending: seq<Student>)
    requires BATCH_SIZE < |pending| && BatchFails(taken, pending[..BATCH_SIZE])
    ensures TransactionAsWritten(taken, pending) == Aborted
  {
  }

  /** As written, a failure in the last batch undoes the clean batch before
      it, while each batch on its own keeps that batch's students. */
  lemma {:induction false} LastBatchFailureRollsBack(taken: set<string>, first: seq<Student>, last: seq<Student>)
    requires |first| == BATCH_SIZE && 0 < |last| <= BATCH_SIZE
    requires !BatchFails(taken, first) && BatchFails(WriteBatch(taken, first).taken, last)
    ensures TransactionAsWritten(taken, first + last) == RolledBack
    ensures WriteAll(taken, first + last).created == Free(first, taken)
  {
    var pending := first + last;
    assert pending[..BATCH_SIZE] == first && pending[BATCH_SIZE..] == last;
    var t1 := WriteBatch(taken, first).taken;
    LastBatchFails(t1, last);
    assert TransactionAsWritten(taken, pending) == TransactionAsWritten(t1, last);
    assert WriteAll(taken, pending) == Then(WriteBatch(taken, first), WriteAll(t1, last));
  }

  /** A failing batch that is the last one: rolled back as written, and
      nothing created from it on its own. */
  lemma LastBatchFails(taken: set<string>, last: seq<Student>)
    requires 0 < |last| <= BATCH_SIZE && BatchFails(taken, last)
    ensures TransactionAsWritten(taken, last) == RolledBack
    ensures WriteAll(taken, last).created == []
  {
    assert last[..|last|] == last && last[|last|..] == [];
    assert WriteBatch(taken, last).created == [];
  }

  /** The text of the error a query raises once the transaction is marked. */
  const BROKEN_TRANSACTION :=
    "An error occurred in the current transaction. You can't execute queries until the end of the 'atomic' block."

  /** The reply as written, from the reply with each batch on its own: an
      aborted transaction is a 500 and a rolled-back one creates nothing
      while the counts stand. */
  function ImportReplyAsWritten(reply: ImportReply, taken: set<string>, pending: seq<Student>): ImportReply {
    if !reply.Imported? then reply
    else
      match TransactionAsWritten(taken, pending)
      case Committed => reply
      case RolledBack => reply.(created := [], taken := taken)
      case Aborted => ImportRefused(500, "导入过程发生错误: " + BROKEN_TRANSACTION)
  }

  /** What `import_students` answers. */
  datatype ImportReply =
    | ImportRefused(status: nat, detail: string)
    | Imported(success: int, failed: int, errors: seq<string>, created: seq<Student>, taken: set<string>)

  /** The file's format, from its name. */
  function Readable(fileName: string): bool {
    EndsWith(fileName, ".csv") || EndsWith(fileName, ".xlsx") || EndsWith(fileName, ".xls")
  }

  /** `import_students` into class `classId`; `taken` holds the usernames
      already in use; `fileName` is `None` when no file came. */
  method ImportStudents(classId: nat, fileName: Option<string>, sheet: Sheet, taken: set<string>) returns (reply: ImportReply)
    ensures fileName.None? ==> reply == ImportRefused(400, "未提供文件")
    ensures fileName.Some? && !Readable(fileName.value) ==> reply == ImportRefused(400, "不支持的文件格式")
    ensures fileName.Some? && Readable(fileName.value) && MissingRequired(Columns(sheet.headers)).Some? ==>
      reply == ImportRefused(400, "文件缺少必填字段: " + MissingRequired(Columns(sheet.headers)).value)
    ensures fileName.Some? && Readable(fileName.value) && MissingRequired(Columns(sheet.headers)).None? ==>
      reply.Imported? &&
      var check := RowCheck(Columns(sheet.headers), classId);
      var o := WriteAll(taken, Accepted(sheet.rows, check));
      reply.success == |Accepted(sheet.rows, check)| - o.moved && reply.failed == |Refused(sheet.rows, check)| + o.moved
    ensures reply.Imported? ==>
      reply.success + reply.failed == |sheet.rows| && 0 <= reply.success &&
      reply.errors == Refused(sheet.rows, RowCheck(Columns(sheet.headers), classId)) &&
      reply.created == WriteAll(taken, Accepted(sheet.rows, RowCheck(Columns(sheet.headers), classId))).created &&
      reply.taken == WriteAll(taken, Accepted(sheet.rows, RowCheck(Columns(sheet.headers), classId))).taken
  {
    if fileName.None? {
      return ImportRefused(400, "未提供文件");
    }
    if !Readable(fileName.value) {
      return ImportRefused(400, "不支持的文件格式");
    }
    var cols := Columns(sheet.headers);
    var missing := MissingRequired(cols);
    if missing.Some? {
      return ImportRefused(400, "文件缺少必填字段: " + missing.value);
    }
    var toCreate, success, failed, errors := CheckRows(sheet.rows, RowCheck(cols, classId));
    var after, created, success', failed' := WriteBatches(taken, toCreate, success, failed);
    WriteAllBound(taken, toCreate);
    reply := Imported(success', failed', errors, created, after);
  }
}
