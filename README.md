# eduSys core, modelled in Dafny

eduSys is a school platform. Its parts are:
- a Django back end with apps for accounts (education), courses and grading (course), notifications, a forum and class chat rooms;
- a small FastAPI inference service (`ai_service`) that routes chat requests to language-model providers, inline or through a job queue;
- a Vue front end whose user store and navigation guard decide what a signed-in user may reach;
- a `tree.py` script that prints the project's directory tree.

This project models the decision-making core of these parts and proves what each of them promises.

- **Inference service.** These files model it:
  - `providers.dfy`: the provider data and the model-name rule;
  - `provider_registry.dfy`: the ordered registry, which skips providers that fail to construct;
  - `router.dfy`: `LLMRouter`, a class with its round-robin cursor and the nested retry loop, proved against a recursive specification `Route`;
  - `ai_service.dfy`: the chat endpoint's inline/queued decision, the job-status mapping and the health check;
  - `ai_worker.dfy`: the queued worker.

  Provider calls are an oracle. It maps the call number and the provider to an outcome.
- **AI grading.** These files model it:
  - `course_utils.dfy`: the JSON-candidate extractor. JSON decoding is a parameter.
  - `course_models.dfy`: the grading status and the records;
  - `course_views.dfy`: the submission view's upload scan and grading dispatch, teacher grading, and the available-course pairing with pagination;
  - `course_tasks.dfy`: the poller and the reaper. Both overwrite an array of submissions in place;
  - `course_serializers.dfy`: the computed serializer fields;
  - `course_permissions.dfy`: the permission predicates.
- **Notifications.** These files model it:
  - `notification_models.dfy`: rows with in-place read/unread toggles, the message policies and their defaults;
  - `notification_serializers.dfy`: the delete/reply flag table;
  - `notification_views.dfy`: send, retract, mark read, reply, block, and the policy setting;
  - `notification_tasks.dfy`: the AI-teacher task, with its history character budget, prompt cut and model choice.
- **Education, forum and chat.** These files model them:
  - `education_*.dfy`: login, student import, and account creation and update;
  - `forum_*.dfy`: post visibility, like and comment counters, the hot list, author anonymity and moderation permission;
  - `chatroom_*.dfy`: the room administrator check, moderation, uploads, history, and room bootstrap with its backfill command.
- **Front end.** `user_store.dfy` models the user store as a class. `route_guard.dfy` models `beforeEach`.
- **Directory listing.** `tree.dfy` models `print_tree`: the ignore filter loop and the recursive drawing.

Shared pieces:
- `accounts.dfy` holds the user record;
- `text.dfy` holds the string helpers: Python's whitespace set for stripping, ASCII letters for lowercasing;
- `wrappers.dfy` holds `Option`.

Code that loops or updates state in place is modelled as methods with loop invariants. Each such method is proved equal to a specification function, and the properties are lemmas about that function. Pure decision code is modelled as functions, with lemmas stating each decision table in both directions.

Clocks are integer seconds. Scores are `real`.

These are inputs to the model:
- HTTP replies, storage outcomes, the job queue and `authenticate`;
- random nicknames;
- the user's profile lines;
- directory listings.

## Model

| member | source | states |
|---|---|---|
| AiService.ToRaw | ai_service/app/main.py:49-52 | the queued payload carries one raw message per request message, in order, with the role's wire name and the content unchanged |
| AiService.QueuedReplyIgnoresRouter | ai_service/app/main.py:48-58 | a reasoning request or one whose timeout exceeds 60 seconds is queued and answered with success, the task id and the placeholder text, whatever the router would answer; a timeout of exactly 60 stays inline |
| AiService.InlineReply | ai_service/app/main.py:37-80 | an inline request goes to the router with the caller's timeout or 30 seconds; a router error becomes a 500 reply carrying that error, otherwise a 200 reply with the router's content, provider and model |
| AiService.UnawaitedRouterFailsInline | ai_service/app/main.py:59-62 | as written the coroutine is never awaited, so every inline request fails with a 500 even where the router would answer; queued requests are unaffected |
| AiService.QueuedPayloadRebuildsRequest | ai_service/app/main.py:48-52 | the worker rebuilds exactly the caller's request from the queued payload (messages, model, flags, provider, limits), taking its own timeout only when none was set |
| AiService.TaskStatusRules | ai_service/app/main.py:83-113 | a finished job reports success and copies its result even when that result holds an error; a failed job reports an error beginning "Task failed: "; an unfinished job reports "not ready", and an unknown task id gets the same answer as a job still pending; the task id is always echoed |
| AiService.ActiveNames | ai_service/app/main.py:118-120 | the active names are the names of the providers with a non-empty API key, one per such provider, in the providers' order |
| AiService.ActiveNamesCover | ai_service/app/main.py:118-120 | every provider with a key is named, there are never more names than providers, and the list is empty exactly when no provider has a key |
| AiService.HealthCheck | ai_service/app/main.py:116-133 | unhealthy (503) exactly when no provider has an API key, with the "no providers loaded" detail when the list is empty; a healthy answer lists exactly the active names, between one and all providers |
| Worker.ParseMessages | ai_service/app/tasks.py:28 | the messages parse exactly when every role is valid, and then one message per raw entry, in order, with its role and content |
| Worker.TaskResultShape | ai_service/app/tasks.py:23-63 | the job never raises: a well-formed payload yields the router's response dumped to a dictionary, with the payload's provider passed on; an input error yields a dictionary with no content, an "input data error" message, the payload's provider and the fallback model; a non-list `messages` is such an input error |
| Worker.PayloadDefaults | ai_service/app/tasks.py:30-39 | a missing key takes the worker's default (reasoning model on, streaming off, a 1500-second timeout) and a present key is used as given |
| Worker.ErrorModelRule | ai_service/app/tasks.py:61-62 | the error dictionary names the payload's model when it has one, else the reasoning model only when the flag is literally true, else the default model, so an absent flag names the default model even though the request would have used the reasoning one |
| Worker.UnawaitedRouterNeverAnswers | ai_service/app/tasks.py:44-49 | as written the router call returns an un-awaited coroutine whose dump fails, so every well-formed job ends with the execution-failure error and no content, unlike a job whose router answers |
| Providers.ParseRole | ai_service/app/llm_providers/base_provider.py:6-8 | a role parses exactly when it is "system", "user" or "assistant", and parses back to the same name |
| Providers.ResolveModel | ai_service/app/llm_providers/deepseek_provider.py:21 | an adapter asks for the request's own model when it is a non-empty string, else the reasoning model when the flag is set, else the default model |
| Providers.CallTimeout | ai_service/app/llm_providers/deepseek_provider.py:30 | the remote call gets the request's timeout when it is set and non-zero, else the service default |
| Providers.GenerateResponse | ai_service/app/llm_providers/deepseek_provider.py:20-40 | the response always names the provider and the model asked for; it holds content exactly when the call completed with content and an error otherwise, and a raised exception's message becomes the error |
| Providers.DefaultRequestUsesDefaultModel | ai_service/app/llm_providers/base_provider.py:11-19 | a request with every field defaulted asks any provider for its default model, with the default timeout, no streaming and no response format |
| Providers.AdapterUsableIff | ai_service/app/llm_providers/deepseek_provider.py:35-40 | an adapter's response is usable exactly when the remote call returned non-empty content |
| ProviderRegistry.GetProviderInstances | ai_service/app/llm_providers/__init__.py:14-21 | the loop builds exactly the specification list: the classes in order, skipping each one whose constructor raises |
| ProviderRegistry.BuiltLength | ai_service/app/llm_providers/__init__.py:14-21 | one instance per class whose constructor succeeds, never more than the classes listed |
| ProviderRegistry.BuiltEntries | ai_service/app/llm_providers/__init__.py:16-18 | every instance comes from a listed class that constructs and carries that class's settings unchanged |
| ProviderRegistry.BuiltComplete | ai_service/app/llm_providers/__init__.py:16-18 | every listed class that constructs contributes an instance |
| ProviderRegistry.BuiltKeepsOrder | ai_service/app/llm_providers/__init__.py:5-11 | instances keep the class order and no class appears twice |
| ProviderRegistry.RegistryShape | ai_service/app/llm_providers/__init__.py:7-21 | the registry holds at most three instances, in DeepSeek, SiliconFlow, VolcEngine order, and holds a class exactly when its constructor does not raise |
| Router.FindByNameFirst | ai_service/app/core/llm_router.py:26-31 | the named lookup returns the first provider whose name matches case-insensitively, and nothing exactly when none matches |
| Router.LLMRouter.constructor | ai_service/app/core/llm_router.py:13-18 | the router loads the registry once and starts the rotation cursor at 0 |
| Router.LLMRouter.GetLLMResponse | ai_service/app/core/llm_router.py:20-78 | the method returns the response, the calls made and the new cursor the specification `Route` gives for the old state; the provider list is unchanged |
| Router.RunAttempts | ai_service/app/core/llm_router.py:44-78 | the retry rounds make the calls `RunRounds` plans; the first usable response is returned, otherwise the named-provider or "All attempts failed" message with the last error |
| Router.RouteFirstSuccessWins | ai_service/app/core/llm_router.py:49-54 | the router returns a usable response exactly when its last call succeeded; that response is the one returned and every earlier call failed |
| Router.RouteNoProviders | ai_service/app/core/llm_router.py:21-22 | with no providers the router reports so, calls nothing and keeps the cursor |
| Router.RouteNamed | ai_service/app/core/llm_router.py:26-33 | a named request calls only the first provider matching the name, at most RETRY_ATTEMPTS + 1 times, never fails over and keeps the cursor; an unknown name calls nothing and reports "not found"; exhausted retries report the named failure with the last error |
| Router.RouteRotating | ai_service/app/core/llm_router.py:34-78 | an unnamed request advances the cursor by one modulo the provider count and calls providers in rotation from the old cursor, round after round; when every call fails it has called each provider once per round and reports the last failure |
| Router.RotationCoversAll | ai_service/app/core/llm_router.py:37-40 | the rotation from a valid cursor lists every provider exactly once, starting at the cursor |
| CourseUtils.SkipSpace | backend/course/utils.py:21 | the `\s*` of the fence pattern: the first position at or after the start that is not whitespace, with only whitespace skipped |
| CourseUtils.FirstFenceEnd | backend/course/utils.py:21 | the lazy `\{.*?\}\s*` followed by three backticks: the first `}` at or after the start that closes the fence, and none when no position closes it |
| CourseUtils.FenceAt | backend/course/utils.py:21 | a fence match at a position starts with "```json", and its object starts with `{` and ends at a `}` that closes the fence |
| CourseUtils.FindFence | backend/course/utils.py:21-23 | the leftmost fence match: its object opens with `{` and closes with `}`, and none is found exactly when no position starts a fence |
| CourseUtils.DelimitedSpan | backend/course/utils.py:26-29 | the slice from the first opening to the last closing delimiter, found exactly when both exist with the closing one after the opening one |
| CourseUtils.CandidateDelimited | backend/course/utils.py:21-34 | every candidate has at least two characters and opens and closes with matching braces or brackets |
| CourseUtils.OneCandidateDecoded | backend/course/utils.py:38-47 | only the one candidate is decoded, so a failed decode yields `None` and never falls through to a later stage |
| CourseUtils.FindFenceNone | backend/course/utils.py:21-22 | when no position starts a fence the search finds none |
| CourseUtils.IsAllowedExtension | backend/course/utils.py:8 | an extension is allowed exactly when it is one of the twelve listed |
| CourseModels.StatusCodesDistinct | backend/course/models.py:88-96 | the five grading status codes are distinct, so the stored code determines the state |
| CourseModels.NewAssignment | backend/course/models.py:52-67 | a new assignment has a maximum score of 100, is active, and has AI grading off with no prompt |
| CourseModels.NewSubmission | backend/course/models.py:73-100 | a new submission is submitted, not returned, ungraded, with no AI result or task id and AI grading pending |
| CourseModels.ClassStudents | backend/course/models.py:129 | the recipients are exactly the listed users who are active students enrolled in the class |
| CourseModels.NotifyAssignmentSaved | backend/course/models.py:117-146 | the hook's loop creates exactly the notices the specification `AssignmentNotices` lists |
| CourseModels.AssignmentNoticeCount | backend/course/models.py:129-146 | a save sends one notice per active student of the class, in account order |
| CourseModels.AssignmentNoticesReachEveryStudent | backend/course/models.py:135-146 | no active student of the class is missed |
| CourseModels.AssignmentNoticeShape | backend/course/models.py:132-146 | each notice is an `assignment_new` from the deployer about this assignment, unread, neither deletable nor repliable, titled by whether the save created the assignment |
| CourseModels.AssignmentWithoutClassSendsNothing | backend/course/models.py:124-126 | an assignment without a teaching class sends nothing |
| CourseModels.SubmissionNoticeRules | backend/course/models.py:152-186 | at most one notice per save: a new submitted submission tells the deployer (deletable); an update whose saved fields name a present score tells the student (not deletable); every other save, including a full save of a score, sends nothing |
| CourseModels.Clamp | backend/course/tasks.py:89 | `min(max(0, x), m)`: within 0 and the maximum score whenever the maximum is non-negative, and the score itself when already in range |
| CourseUtils.CandidateSpan | backend/course/utils.py:21-36 | the candidate chosen is a span of the input |
| CourseTasks.CopyAgrees | backend/course/tasks.py:16-38 | the poller's copy of the extractor decodes exactly what the course helper decodes |
| CourseTasks.CopyPicksCandidate | backend/course/tasks.py:18-32 | the copy's nested find/rfind branches pick nothing exactly when the helper has no candidate, and otherwise pick the same slice |
| CourseTasks.ScoreFrom | backend/course/tasks.py:83-93 | a numeric or numeric-text score is clamped into [0, max]; `float()` raises TypeError exactly for a list or an object |
| CourseTasks.RecordAnswer | backend/course/tasks.py:76-104 | an answer leaves the record completed or failed, never touching the submission itself, and a completed AI score lies in [0, max] |
| CourseTasks.Poll | backend/course/tasks.py:69-138 | one status request leaves the record unchanged or moves it to completed or failed; a completed score lies in [0, max] |
| CourseTasks.PollRecord | backend/course/tasks.py:58-69 | one record's turn in the loop gives what `PollStep` specifies: a record that is not processing or has no job id comes back unchanged, any other is polled |
| CourseTasks.CheckAiGradingResults | backend/course/tasks.py:48-138 | the loop leaves every record as the specification `PollStep` gives for its old value |
| CourseTasks.PollTransitions | backend/course/tasks.py:58-67 | only processing records with a job id are changed, only to completed or failed, and never in the submission, the teacher's grade or the job id |
| CourseTasks.PolledScoreClamped | backend/course/tasks.py:85-93 | a completed poll leaves an AI score within [0, max] or none |
| CourseTasks.AnswerCompletes | backend/course/tasks.py:82-97 | an object with both keys and a convertible score completes the record with the answer's comment and stamps the update time; score text `float()` rejects completes it without a score |
| CourseTasks.AnswerUnusable | backend/course/tasks.py:100-102 | an answer without both keys fails the record with a comment holding at most the first 500 characters of the answer, and leaves the AI score alone |
| CourseTasks.ReplyRules | backend/course/tasks.py:74-138 | "not ready" and answerless replies keep the record; a reported error fails it with that error; a 404 fails it; other codes, timeouts and request errors change nothing; any other exception fails it with at most 100 characters of its text |
| CourseTasks.CleanupOldProcessing | backend/course/tasks.py:141-158 | the loop leaves every record as the specification `Reap` gives for its old value |
| CourseTasks.ReapRules | backend/course/tasks.py:147-157 | the reaper fails exactly the records processing for over two hours, writing only state and comment; afterwards none is stuck and a second run changes nothing |
| CourseTasks.TerminalRecordsStay | backend/course/tasks.py:58-61 | completed, failed and skipped records are never revisited by either job |
| CoursePermissions.TeacherCheckRefusesTeachers | backend/course/permissions.py:12-15 | as written no account with a stored role passes the teacher check, since it compares with 'Teacher'; the intended check admits exactly teachers |
| CoursePermissions.TeacherRefused | backend/course/permissions.py:15 | a concrete teacher account is refused by the check as written and admitted by the corrected one |
| CoursePermissions.PermissionRules | backend/course/permissions.py:7-39 | an anonymous visitor fails every check; a student never passes the staff check; the staff check admits exactly teacher, admin and superadmin roles |
| CourseViews.Ext | backend/course/views.py:1121 | `os.path.splitext(name)[1]`: empty, or a suffix of the name that starts with its only '.' and holds no '/' |
| CourseViews.ScanUploads | backend/course/views.py:1119-1154 | the upload loop produces exactly the specification scan `ScanFrom` of the files |
| CourseViews.ScanAccepts | backend/course/views.py:1119-1154 | the scan neither fails nor refuses grading exactly when every file stores and has a supported extension, and then every file's name is recorded, in order |
| CourseViews.ScanStopsAtUnsupported | backend/course/views.py:1141-1147 | the first unsupported file ends the loop: it and the files before it are stored, none after it, and the files cannot be graded |
| CourseViews.ScanReportsFailure | backend/course/views.py:1134-1139 | the first file that fails to store is the one reported |
| CourseViews.StrictScore | backend/course/views.py:1242-1244 | `float()` outside any handler: a converted score is clamped into [0, max] |
| CourseViews.RecordSyncAnswer | backend/course/views.py:1235-1255 | a synchronous answer completes the record only when it decodes to an object with a score and a comment, with the score in [0, max]; otherwise it fails; the student's fields are kept |
| CourseViews.Dispatched | backend/course/views.py:1225-1279 | after the dispatch reply the record is processing, completed or failed, with only grading fields and the job id changed |
| CourseViews.GradeOnCreateSkips | backend/course/views.py:1157-1178 | grading disabled means skipped; unsupported files mean skipped with the fixed comment; text over 15000 characters means skipped, otherwise the request is sent |
| CourseViews.GradeOnCreateSettles | backend/course/views.py:1156-1282 | the new submission never leaves the request pending, and the student's own fields are kept |
| CourseViews.DispatchRules | backend/course/views.py:1230-1279 | a success with a job id leaves the record processing under that id; a completed record came from a synchronous answer with both keys and has its score clamped; a failed request fails the record with a reason |
| CourseViews.ServiceQueuesGrading | backend/course/views.py:1187-1232 | the grading request asks for the reasoning model, so the AI service queues it; a dispatched submission therefore stays processing under the job id it was given |
| CourseViews.Create | backend/course/views.py:1076-1288 | the view returns exactly the specification `CreateSubmission` outcome: the refusals, then the serializer's 400, then the upload loop, then grading |
| CourseViews.CreateRefusals | backend/course/views.py:1077-1093 | the refusals come first and in order: no id (400), unknown assignment (404), another class's assignment (403), past the due date (400); a submission made exactly at the due time is accepted |
| CourseViews.CreateValidates | backend/course/views.py:1100-1108 | past those refusals, the serializer's 400 comes exactly when the trimmed title is blank or over 100 characters or the trimmed text is blank (an unsent text is blank, an unsent title is the assignment's title plus a suffix), and it names exactly the rejected fields |
| CourseViews.CreatedIsValid | backend/course/views.py:1100-1109 | a created submission holds the trimmed title and text, neither blank and the title at most 100 characters, and belongs to the student and the chosen assignment, marked submitted |
| CourseViews.CreateStoresFiles | backend/course/views.py:1119-1139 | once the checks and the serializer pass and every file is accepted, the submission is created with every file stored in order; the first file that fails to store yields a 500 naming it, and the submission with its file rows is deleted |
| CourseViews.ReturnedStaysSubmitted | backend/course/views.py:751-760 | as written, returning a submitted submission answers "not submitted" but the stored row still says submitted, because `submitted` is missing from the saved fields |
| CourseViews.GradeRules | backend/course/views.py:736-760 | only the course's teacher may grade; the stored row equals the reply; no score keeps the old one; returning clears the score and the submitted flag; comment and return flag are written and nothing else changes; a grade notice goes out exactly when a score is stored |
| CourseViews.SearchCourses | backend/course/views.py:446-447 | a course is kept exactly when its name contains the search text, ignoring case; an empty search keeps every course |
| CourseViews.SearchClasses | backend/course/views.py:451-452 | a class is kept exactly when its name contains the search text, ignoring case |
| CourseViews.PySlice | backend/course/views.py:472 | Python slicing: in-range bounds give the ordinary slice and the result is never longer than the list |
| CourseViews.CollectOffers | backend/course/views.py:455-466 | the nested loop builds exactly the specification list `Offers` |
| CourseViews.AvailableCourses | backend/course/views.py:432-476 | the count is the number of searched (course, class) pairs the teacher does not teach yet, and the results are the requested page of them |
| CourseViews.CourseOffersExact | backend/course/views.py:457-458 | one course offers exactly its classes not already bound to the teacher |
| CourseViews.OffersExact | backend/course/views.py:455-466 | the offers are exactly the unbound pairs of the searched courses and classes |
| CourseViews.OffersCount | backend/course/views.py:455-466 | there are at most as many offers as courses times classes |
| CourseViews.CourseOffersCount | backend/course/views.py:457-458 | one course offers at most one entry per class |
| CourseViews.PageWindow | backend/course/views.py:469-472 | for page p >= 1 and size s >= 0 the page is the offers from (p-1)*s up to p*s, cut to the list, and empty past the end |
| CourseSerializers.ListStatus | backend/course/serializers.py:169-180 | "not submitted" exactly without a submission; otherwise "returned" exactly when the first submission is returned, "marked" exactly when it is not returned and scored, "submitted" exactly when neither |
| CourseSerializers.BriefStatus | backend/course/serializers.py:115-121 | without a submission: "not submitted" strictly before the due time and "overdue" from it on; a scored submission shows its score; otherwise "submitted" |
| CourseSerializers.Seconds | backend/course/serializers.py:127 | `timedelta.seconds` lies in [0, 86400) |
| CourseSerializers.RemainingTimeRules | backend/course/serializers.py:123-127 | "overdue" exactly when the due time has passed; otherwise the days and hours shown recompose the time left to within one hour, with hours below 24 |
| CourseSerializers.BucketPath | backend/course/serializers.py:240-243 | the bucket segment is empty, or ends with '/' and does not start with one |
| CourseSerializers.WithScheme | backend/course/serializers.py:238-239 | an endpoint without a scheme gets "http://" put in front, so the result starts with "http" |
| CourseSerializers.BaseUrlShape | backend/course/serializers.py:237-243 | the base URL starts with "http" and has no trailing slash, so every file URL starts with "http" |
| CourseSerializers.GetFiles | backend/course/serializers.py:232-251 | one entry per attachment, in order, with the original name and the URL built from the stored name |
| CourseSerializers.OpenIds | backend/course/serializers.py:280-283 | the ids are exactly those of the class's assignments due strictly after now |
| CourseSerializers.OpenSubmissions | backend/course/serializers.py:284-286 | the counted submissions are exactly the unreturned ones, by anyone, to those assignments |
| CourseSerializers.PendingIds | backend/course/serializers.py:277-288 | the pending ids are exactly the open assignments the student has no unreturned submission for |
| CourseSerializers.Pending | backend/course/serializers.py:277-288 | the corrected pending count never exceeds the number of open assignments |
| CourseSerializers.PendingRules | backend/course/serializers.py:277-288 | an assignment is pending exactly when it is open and the student has not handed it in; a count of zero means every open assignment is handed in |
| CourseSerializers.PendingCountsOtherStudents | backend/course/serializers.py:284-287 | as written, one open assignment handed in by two classmates gives a third student a count of -1, where the corrected count is 1 |
| CourseSerializers.TeacherName | backend/course/serializers.py:374-378 | the teacher's real name when it is non-empty, else the username, else the fixed "no teacher" text |
| EducationPermissions.PermissionRules | backend/education/permissions.py:4-32 | an anonymous visitor fails every check; a superadmin passes the admin check; no one is both teacher and admin; for a signed-in user each check tests the role alone; a student passes none |
| EducationSerializers.Account.constructor | backend/education/serializers.py:34 | a new account holds the given attributes, password hash and flags |
| EducationSerializers.Account.Update | backend/education/serializers.py:44-52 | each validated field is set on the account, in order, the password is re-hashed only when a non-empty one is given, and the staff flags are untouched |
| EducationSerializers.Account.UpdateSuperAdmin | backend/education/serializers.py:125-139 | a role other than "superadmin" is refused before anything changes; otherwise the fields are set and the password re-hashed only when given |
| EducationSerializers.SetAllRules | backend/education/serializers.py:47-48 | after the fields are set, each given attribute holds its value and every other attribute is unchanged |
| EducationSerializers.InitialPassword | backend/education/serializers.py:35-39 | a new account gets the given password when non-empty, else "123456" |
| EducationSerializers.CreateAttrsRules | backend/education/serializers.py:30-123 | a new student is always a student and a new teacher a teacher whose username is the teacher number, whatever role the request names; every other given field is kept and nothing else is set; a new superadmin has the superadmin role |
| EducationSerializers.CreateStudent | backend/education/serializers.py:30-42 | a new student account holds the student attributes and the initial password, without staff flags |
| EducationSerializers.CreateTeacher | backend/education/serializers.py:67-80 | a new teacher account holds the teacher attributes and the initial password, without staff flags |
| EducationSerializers.CreateSuperAdmin | backend/education/serializers.py:106-123 | an empty username is refused first, then a missing password; otherwise the account is a staff superuser with the superadmin role and the given password |
| EducationViews.LoginRules | backend/education/views.py:35-82 | a login succeeds exactly when the credentials hold and the declared role is absent, empty, the account's own, or "admin" for a superadmin; success reports the account's real role; bad credentials give 401 and a role mismatch 403 |
| EducationViews.NormalizedHeaders | backend/education/views.py:224 | every header is lower-cased and stripped, in place |
| EducationViews.HeaderIndex | backend/education/views.py:241 | the position of the first header equal to the name, and none exactly when no header equals it |
| EducationViews.ColumnFor | backend/education/views.py:239-243 | a field is read from the first of its accepted headers that is present, and from none when none is |
| EducationViews.MissingRequired | backend/education/views.py:249-254 | a reported missing field is one of the four required ones |
| EducationViews.GenderCode | backend/education/views.py:281-284 | the stored gender code is always M, F or O |
| EducationViews.EmptyNameImportsNan | backend/education/views.py:260-272 | as written, a row with an empty name cell passes the required-field check and imports a student named "nan"; read as intended the row is refused |
| EducationViews.FloatNumberKeepsPoint | backend/education/views.py:259 | as written, a student number in a column that also has empty cells is read as a float, so the username ends in ".0"; read as intended it is the number's digits |
| EducationViews.CheckRowRules | backend/education/views.py:258-308 | corrected for empty and float cells: a gender cell holding a number makes the row fail with the error of `strip`; otherwise a row is accepted exactly when its four required values are non-empty and the email holds an '@'; the student then has the student number as username, the import's class and the code of its gender; an empty name cell is refused |
| EducationViews.GenderRules | backend/education/views.py:194 | 男, 女 and 其他 map to M, F and O; any other value, or none, maps to O |
| EducationViews.CheckRows | backend/education/views.py:257-308 | every row adds to exactly one counter; accepted rows go to the creation list and refused ones to the error list, in order |
| EducationViews.Clashing | backend/education/views.py:317-318 | the clashing usernames are exactly the batch's usernames already taken |
| EducationViews.Free | backend/education/views.py:327 | the students kept after filtering all have usernames not yet taken |
| EducationViews.ClashBound | backend/education/views.py:320-327 | the clashing usernames and the students kept together never outnumber the batch |
| EducationViews.WriteBatchRules | backend/education/views.py:313-331 | a batch moves at most its own rows from success to failure and creates only students whose usernames were free, with distinct usernames, all then taken |
| EducationViews.WriteBatches | backend/education/views.py:311-336 | the batch loop creates exactly what the specification `WriteAll` gives and moves that many rows from success to failure, keeping the total |
| EducationViews.WriteAllBound | backend/education/views.py:313-331 | all batches together move at most the students they were given |
| EducationViews.ImportStudents | backend/education/views.py:192-342 | with the corrected row check and each batch written on its own: no file gives 400; a file that is neither .csv, .xlsx nor .xls gives 400; a missing required column gives 400 naming it; otherwise the import answers with its counts, success being the accepted rows less those the batches moved and failed the refused rows plus those moved, the errors listing the refused rows and the created students being those of the batches |
| EducationViews.FailedBatchAborts | backend/education/views.py:311-336 | as written, a failing batch that is not the last leaves the transaction marked for rollback, so the next batch's query raises and the whole import fails |
| EducationViews.LastBatchFailureRollsBack | backend/education/views.py:311-342 | as written, a failing last batch rolls back the clean batch before it while the reply still counts it; with each batch on its own, that batch's students are created |
| NotificationModels.NewNotification | backend/notifications/models.py:36-62 | a row created with only the given fields is unread with no read time, deletable, not repliable, unattached and without a parent |
| NotificationModels.MarkAsReadRules | backend/notifications/models.py:75-80 | marking read leaves the row read, stamps the time only when it was unread, touches no other field, and a second call at any time changes nothing |
| NotificationModels.MarkAsUnreadRules | backend/notifications/models.py:82-87 | marking unread leaves the row unread with no read time, changes nothing on an unread row, touches no other field, and is idempotent |
| NotificationModels.ToggleRoundTrip | backend/notifications/models.py:75-87 | marking read then unread gives back an unread row with no read time, the original row when it started that way |
| NotificationModels.NotificationRow.constructor | backend/notifications/models.py:9-62 | the object holds the given row |
| NotificationModels.NotificationRow.MarkAsRead | backend/notifications/models.py:75-80 | the row becomes `MarkedRead` of its old value |
| NotificationModels.NotificationRow.MarkAsUnread | backend/notifications/models.py:82-87 | the row becomes `MarkedUnread` of its old value |
| NotificationModels.ParsePolicy | backend/notifications/models.py:112-121 | a stored code parses back only to the policy it encodes |
| NotificationModels.PolicyCodeRoundTrip | backend/notifications/models.py:112-119 | the six policy codes are distinct and every policy survives storage |
| NotificationModels.DefaultSettings | backend/notifications/models.py:94-121 | new settings receive every kind of notification and use the "everyone" policy |
| NotificationSerializers.CreateFlags | backend/notifications/serializers.py:53-74 | a private message is repliable and, to a student, undeletable exactly when the sender is staff; assignment, course, class and announcement notices are neither deletable nor repliable; forum notices are deletable and not repliable; other types keep the caller's flags, so only a private message can become repliable |
| NotificationViews.WithSettings | backend/notifications/views.py:134 | the settings row is created with the defaults only when the user has none; an existing row, the notifications and the blocks are left as they were |
| NotificationViews.CanSendTable | backend/notifications/views.py:137-150 | the message-policy table: `Everyone` admits every sender, `ContactsOnly` none, a non-superadmin gets through only as staff to a student or an admin to a teacher, and a student only under `Everyone` |
| NotificationViews.SendValidates | backend/notifications/serializers.py:22-50 | the serializer answers before the view: a missing or blank content, a trimmed title over 255 characters, an unknown recipient or an unknown parent is a 400 naming exactly those fields, even when no recipient was sent, and nothing is stored |
| NotificationViews.SendRules | backend/notifications/views.py:120-159 | once the serializer accepts the form, a private message is stored exactly when the recipient has not blocked the sender and their policy admits the sender; a block is answered with its own 400; a refusal stores nothing; the stored content is the trimmed, non-blank one |
| NotificationViews.StoredMessageFields | backend/notifications/views.py:151-158 | the stored message goes from the sender to the recipient, keeps the trimmed content and the read flag and parent the client sent, is answerable, and is deletable unless staff sent it to a student |
| NotificationViews.RetractNeverDeletes | backend/notifications/views.py:105-117 | as written, retracting one's own message always ends in a server error and deletes nothing |
| NotificationViews.RetractRules | backend/notifications/views.py:98-118 | corrected, a message is deleted exactly when the caller sent it, it is at most ten minutes old and still unread; every other call changes nothing |
| NotificationViews.MarkReadRules | backend/notifications/views.py:168-199 | only the recipient's call on a message that is not their own changes anything, only that row's read state changes, and a repeated call changes nothing more |
| NotificationViews.ReplyRules | backend/notifications/views.py:217-276 | a reply is stored exactly when the caller received the original, it can be answered, has a sender, the content is not empty and the original sender has not blocked the caller; it goes back to that sender, points at the original, and leaves the original read |
| NotificationViews.ReplyIgnoresPolicy | backend/notifications/views.py:233-236 | a reply gets through even when the original sender's policy refuses every new message |
| NotificationViews.BlockRefusalTable | backend/notifications/views.py:297-304 | a block is allowed exactly when it is not of oneself, a superadmin is blocked only by a superadmin, a student does not block staff and a teacher does not block an admin |
| NotificationViews.BlockSenderIdempotent | backend/notifications/views.py:279-315 | blocking a sender adds at most the one (recipient, sender) pair and changes nothing else; repeating it adds nothing and answers that the sender is already blocked |
| NotificationViews.UpdatePolicyRules | backend/notifications/views.py:327-336 | a student is refused exactly the two staff-only policies, everyone else may choose any, and the chosen policy is the one stored |
| NotificationTasks.Window | backend/notifications/tasks.py:83-89 | the history draws on at most the latest ten messages, oldest first |
| NotificationTasks.Lines | backend/notifications/tasks.py:89-93 | one history line per message, in the same order |
| NotificationTasks.BuildHistory | backend/notifications/tasks.py:87-100 | the history loop keeps exactly the budgeted lines |
| NotificationTasks.BudgetedIsPrefix | backend/notifications/tasks.py:89-100 | the kept history lines are a prefix of all the lines |
| NotificationTasks.BudgetedFits | backend/notifications/tasks.py:96-100 | whenever a line is kept, the header and the kept lines together fit in 8000 characters |
| NotificationTasks.BudgetedStopsAtOverflow | backend/notifications/tasks.py:96-97 | the first line left out is one that would pass the 8000-character budget |
| NotificationTasks.SenderContext | backend/notifications/tasks.py:20-107 | the context is the profile parts, the history header and the kept history (or the no-history line) joined by newlines |
| NotificationTasks.ContextRules | backend/notifications/tasks.py:78-107 | the history comes from the latest ten messages, oldest first, is a prefix kept only while it fits the budget, stops at the first line that would overflow, and without a kept line the context ends with the no-history line |
| NotificationTasks.PyPrefix | backend/notifications/tasks.py:142 | Python's `s[:k]`: a prefix of `s`, of length `min(k, len(s))` when `k` is not negative |
| NotificationTasks.FitPromptRules | backend/notifications/tasks.py:140-142 | the user prompt is cut only when both prompts pass 10000 characters, always to a prefix, and then to exactly the limit when the system prompt fits in it |
| NotificationTasks.ModelChoice | backend/notifications/tasks.py:145-152 | only requests from `teacherDeepseekR` ask for the reasoning model, and the AI service queues exactly those |
| NotificationTasks.ProcessMessageRules | backend/notifications/tasks.py:125-186 | an answered message gets one reply from the AI teacher back to the asker under "Re: title", deletable, answerable and pointing at the original, which is then read; a failed call writes nothing and asks for a retry |
| NotificationTasks.ReasoningAnswerIsPlaceholder | backend/notifications/tasks.py:145-186 | as written, a message to the reasoning teacher is answered, and marked read, with the AI service's queue placeholder |
| NotificationTasks.ReasoningAnswerIsJobResult | backend/notifications/tasks.py:145-186 | corrected, the reasoning teacher answers with the job's content once the job has finished, and writes nothing before |
| NotificationTasks.ProcessBatch | backend/notifications/tasks.py:110-186 | the task runs over the latest unread messages to the AI teachers in turn, as the step-by-step batch definition says, and stops at the first call that asks for a retry |
| NotificationTasks.BatchKeepsRead | backend/notifications/tasks.py:125-186 | a message already read stays read through the rest of the loop |
| NotificationTasks.BatchReadsAll | backend/notifications/tasks.py:125-186 | when every message has a sender and every call gets an answer through, the loop runs to the end and every message of the batch is left read |
| NotificationTasks.Budgeted | backend/notifications/tasks.py:89-100 | no more lines are kept than given |
| ForumModels.NewPost | backend/forum/models.py:19-43 | a post stored from a form is anonymous, public, open to comments and closed to AI comments unless the form says otherwise, and its counters start at zero |
| ForumPermissions.CanManage | backend/forum/permissions.py:15-38 | read-only methods, superusers and the author are always allowed; anyone else may write exactly when they are a teacher of the student author's class |
| ForumPermissions.WriteRefusals | backend/forum/permissions.py:29-38 | a non-teacher, an author who is not a student and an author without a class are all refused to other users |
| ForumSerializers.CommentAuthor | backend/forum/serializers.py:66-71 | a comment shows the AI assistant exactly when it is generated, the anonymous placeholder exactly when it is anonymous and not generated, and the real account otherwise |
| ForumSerializers.PostAuthorRules | backend/forum/serializers.py:117-140 | a post's author is hidden exactly when the post is anonymous and the viewer may not see the author; a shown card keeps id, username and role, and shows the real name only to a viewer who may see it |
| ForumSerializers.PostAuthorViewers | backend/forum/serializers.py:119-125 | the author and a superuser always see the real name; a student never sees another user's real name |
| ForumSerializers.ValidateAsWritten | backend/forum/serializers.py:148-152 | as written, the only refusal is the no-anonymous-staff message |
| ForumSerializers.StaffPostAnonymousByDefault | backend/forum/serializers.py:148-152 | as written, a teacher who leaves the anonymity field out passes the check and gets an anonymous post |
| ForumSerializers.Validate | backend/forum/serializers.py:148-152 | corrected, the check looks at the value the post will be stored with and refuses only with the no-anonymous-staff message |
| ForumSerializers.ValidateRules | backend/forum/serializers.py:148-152 | corrected, a post is refused exactly when a teacher or an admin would store it anonymously; students and superadmins always pass |
| ForumSerializers.FileUrl | backend/forum/serializers.py:24-29 | a file has an address exactly when it has a path, and it is the signed path |
| ForumSerializers.ThumbnailUrl | backend/forum/serializers.py:31-35 | the thumbnail's signed address when there is one, otherwise the file's own; none only when neither path is set |
| ForumSignals.CommentNotification | backend/forum/signals.py:8-23 | a notification is made exactly for a new comment by someone other than the post's author and not generated by AI; it goes to the post's author, typed forum reply, about the post, with the first 100 characters of the comment |
| ForumViews.Filter | backend/forum/views.py:40-48 | the posts kept are exactly those of the input that pass the test |
| ForumViews.VisibilityRules | backend/forum/views.py:27-50 | a deny rule on any post of an author hides every post of that author, the user's own included; otherwise public posts and the user's own are seen, and a private post of another author only with an allow rule |
| ForumViews.CreatePost | backend/forum/views.py:52-55 | with the corrected anonymity check: a post is refused exactly when that check refuses it; a saved post is stored for the requesting user and an AI comment is queued exactly when the post allows one |
| ForumViews.PostRow.constructor | backend/forum/models.py:38-40 | a post's likes and counters as given |
| ForumViews.PostRow.Like | backend/forum/views.py:57-64 | a like row is created exactly when the user had none, and the like counter moves by one exactly then |
| ForumViews.PostRow.Unlike | backend/forum/views.py:66-73 | the user's like row is removed, and the like counter drops by one exactly when there was one |
| ForumViews.PostRow.CountComment | backend/forum/views.py:100-105 | creating a comment adds one to the comment counter and changes nothing else |
| ForumViews.LikeTwiceCountsOnce | backend/forum/views.py:57-64 | liking twice moves the counter at most once |
| ForumViews.SortByRankElements | backend/forum/views.py:83-85 | the ranking keeps every post, each as often as it was given |
| ForumViews.SortByRankSorted | backend/forum/views.py:83-85 | the ranking orders posts by likes plus twice the comments, newest first among equals |
| ForumViews.Top | backend/forum/views.py:85 | at most the first ten, a prefix of the ranking, all of it when it is shorter |
| ForumViews.HotRules | backend/forum/views.py:75-88 | the hot list holds at most ten visible posts from the last 30 days for "month" and 7 otherwise, in rank order, and every post of the window it leaves out ranks after each post it shows |
| ChatroomModels.ChatTables.constructor | backend/chatroom/models.py:53-106 | the room, membership and message tables start as given |
| ChatroomPermissions.MembershipOf | backend/chatroom/permissions.py:25 | the row found belongs to that room and user; none exactly when no row of the table does |
| ChatroomPermissions.UniqueRow | backend/chatroom/models.py:78-79 | with the table's one-row-per-room-and-user constraint, two rows with the same room and user are the same row |
| ChatroomPermissions.IsChatRoomAdminRules | backend/chatroom/permissions.py:13-28 | the check holds exactly when the user is signed in, the URL names a room, and the user has an active administrator's row in it; a visitor, a request without a room and a user without a row are refused |
| ChatroomSignals.TeacherNickname | backend/chatroom/signals.py:25 | the teacher's name, or "<username>(老师)" when the name is empty |
| ChatroomSignals.ClassStudents | backend/chatroom/signals.py:29 | exactly the users with the student role enrolled in the class |
| ChatroomSignals.StudentRowsShape | backend/chatroom/signals.py:29-39 | one active member row per student, in order, each with the nickname drawn for it |
| ChatroomSignals.InitialRowsRules | backend/chatroom/signals.py:20-39 | a new room starts with an active administrator row for the teacher, then one active member row per student of the class in order |
| ChatroomSignals.InitialRowsStudents | backend/chatroom/signals.py:29-39 | every student of the class, and nobody else, gets a member row |
| ChatroomSignals.WithRoomRules | backend/chatroom/signals.py:15-39 | opening a room appends one room named "<course> - <class> 交流群" and its initial rows, and changes nothing already stored |
| ChatroomSignals.AddRoom | backend/chatroom/signals.py:16-39 | the tables become the old tables with the room of the teaching assignment opened |
| ChatroomSignals.CreateChatRoomForTcc | backend/chatroom/signals.py:10-39 | a room is opened only for a newly created teaching assignment; a save of an existing one changes nothing |
| ChatroomSignals.Unroomed | backend/chatroom/management/commands/create_chatrooms_for_existing_tcc.py:16 | exactly the teaching assignments without a room |
| ChatroomSignals.WithRoomsRooms | backend/chatroom/management/commands/create_chatrooms_for_existing_tcc.py:23-28 | one room per assignment, appended in order after the existing ones |
| ChatroomSignals.Backfill | backend/chatroom/management/commands/create_chatrooms_for_existing_tcc.py:12-54 | every assignment without a room gets one, in order, and the count reported is the number of such assignments |
| ChatroomSignals.BackfillCovers | backend/chatroom/management/commands/create_chatrooms_for_existing_tcc.py:16-51 | after the backfill every assignment has a room and a second run finds nothing to do |
| ChatroomSignals.BackfillOneRoom | backend/chatroom/management/commands/create_chatrooms_for_existing_tcc.py:16-28 | the backfill gives no assignment a second room |
| ChatroomSignals.UnroomedEmpty | backend/chatroom/management/commands/create_chatrooms_for_existing_tcc.py:18-20 | when every assignment has a room there is nothing to do |
| ChatroomViews.ActiveMembership | backend/chatroom/views.py:79 | the row found is the user's active row in the room; none exactly when there is no such row |
| ChatroomViews.MemberRooms | backend/chatroom/views.py:22-26 | exactly the rooms where the user has an active membership |
| ChatroomViews.UploadKind | backend/chatroom/views.py:85-91 | image when the content type mentions "image", else video when it mentions "video", else file |
| ChatroomViews.UploadRules | backend/chatroom/views.py:65-107 | an upload is accepted exactly for an active member sending a named file; the placeholder message is stored under that membership with the file's kind and name, and the queued job refers to it |
| ChatroomViews.RoomHistory | backend/chatroom/views.py:39 | exactly the room's messages that are not deleted |
| ChatroomViews.SortNewestFirstElements | backend/chatroom/views.py:39 | the ordering keeps every message, each as often as it was given |
| ChatroomViews.SortNewestFirstSorted | backend/chatroom/views.py:39 | the ordering puts the newest message first |
| ChatroomViews.ListMessagesRules | backend/chatroom/views.py:28-49 | only active members get the history; it holds each live message of the room as often as the table does, no deleted message and no other room's, newest first |
| ChatroomViews.ActiveMembers | backend/chatroom/views.py:61 | exactly the room's active members |
| ChatroomViews.ListMembers | backend/chatroom/views.py:51-63 | an active member gets exactly the room's active members; anyone else gets not-found |
| ChatroomViews.MemberRow.constructor | backend/chatroom/models.py:65-76 | a membership row with its account |
| ChatroomViews.RoleSetRules | backend/chatroom/views.py:134-147 | a role change succeeds exactly for "admin" or "member" on a non-teacher and then changes the role only; a teacher's row gets a 403 and stays |
| ChatroomViews.KickedRules | backend/chatroom/views.py:155-164 | teachers and administrators are never kicked; anyone else keeps the row, only marked inactive |
| ChatroomViews.TeacherRowIsFixed | backend/chatroom/views.py:141-142 | no series of role changes and kicks changes a teacher's row |
| ChatroomViews.KicksOnly | backend/chatroom/views.py:158-162 | kicks alone never touch an administrator's row and leave any other row present but inactive |
| ChatroomViews.SetMemberRole | backend/chatroom/views.py:128-147 | a missing row is not-found; otherwise the row and the answer are those of the role-change rules |
| ChatroomViews.KickMember | backend/chatroom/views.py:149-164 | a missing row is not-found; otherwise the row and the answer are those of the kick rules |
| ChatroomViews.UpdateNickname | backend/chatroom/views.py:186-203 | an empty nickname is refused before the row is looked up, a missing row is not-found, and otherwise only the nickname changes |
| ChatroomViews.MessageRow.constructor | backend/chatroom/models.py:86-106 | a message row with its content and deletion flag |
| ChatroomViews.DeleteMessage | backend/chatroom/views.py:166-177 | a missing message is not-found; otherwise the row stays, marked deleted, with the fixed retraction notice as content |
| ChatroomViews.RetractedLeavesHistory | backend/chatroom/views.py:172-175 | a deleted message leaves the room's history and every other message stays |
| UserStore.NormalizeIgnoresCase | frontend/src/store/user.js:102-103 | normalising a role ignores its case |
| UserStore.NormalizeRoleRules | frontend/src/store/user.js:9-16 | the four administrator spellings, and only they, become "admin"; teachers and students keep their role; any other role is kept lower-cased |
| UserStore.KnownRolesFixed | frontend/src/store/user.js:9-16 | "admin", "teacher" and "student" are already normal |
| UserStore.NormalizeIdempotent | frontend/src/store/user.js:102-103 | normalising a normalised role changes nothing |
| UserStore.NormalizedNotEmpty | frontend/src/store/user.js:102-103 | a role that is not empty stays not empty when normalised |
| UserStore.InjectedRules | frontend/src/store/user.js:122-152 | after injection the router holds the role's own dynamic routes, none of the other table's that are not also its own, and every static route; injecting again changes nothing |
| UserStore.Store.constructor | frontend/src/store/user.js:19-22 | the store starts with the given user and routes, with routes not yet injected |
| UserStore.Store.RemoveAll | frontend/src/store/user.js:124-133 | exactly the named routes are removed and nothing else of the store changes |
| UserStore.Store.AddAll | frontend/src/store/user.js:148-152 | exactly the named routes are added and nothing else of the store changes |
| UserStore.Store.FetchAndSetUser | frontend/src/store/user.js:95-112 | the fetch fails exactly when there is no reply or no role; otherwise the user is kept with the role normalised, in the store and in storage; a failure changes nothing |
| UserStore.Store.InjectRoutes | frontend/src/store/user.js:115-161 | nothing changes when routes are already injected without force or there is no user or role; otherwise the routes become the role's and the flag is set exactly for the three known roles |
| UserStore.Store.Login | frontend/src/store/user.js:30-36 | sign-in succeeds exactly when both requests succeed and the reply has a role; then the user, storage and routes are set for the normalised role; a failure leaves the store as it was |
| UserStore.Store.Logout | frontend/src/store/user.js:39-65 | afterwards there is no user, no flag and no stored copy; an admin's or a student's dynamic routes are removed, and no route is touched for other roles |
| UserStore.Store.Restore | frontend/src/store/user.js:68-92 | a user already in the store is kept; else a saved copy in storage is taken; a corrupt copy fails; with nothing stored the back end decides, and the restore succeeds exactly when its reply has a role, setting the normalised user and saving it; the answer says whether a user is present; a failure clears the user, the flag and storage; a restored user's routes are injected |
| RouteGuard.HomePath | frontend/src/router/index.js:68-70 | the teacher's home is "/teacher/dashboard", the student's "/student", the admin's "/admin", and any other role's "/<role>" |
| RouteGuard.PublicRules | frontend/src/router/index.js:64-74 | public pages are always reached, except that a signed-in user on a sign-in page is sent to the role's home |
| RouteGuard.AnonymousRules | frontend/src/router/index.js:77-86 | a visitor who is not signed in is sent from a protected page to the teacher, admin or student sign-in page, in that order of precedence, with the page's full path to come back to |
| RouteGuard.RoleRules | frontend/src/router/index.js:90-110 | a signed-in user reaches a protected page only when it is for the user's role or for no role; a page for another role sends the user home; an unmatched named page is navigated to again once routes are injected |
| RouteGuard.BeforeEach | frontend/src/router/index.js:45-111 | a user known only from storage is restored and a user without injected routes gets them before the decision; a signed-in user is never changed |
| Tree.Kept | tree.py:14-26 | the entries kept are among the directory's entries and are never more |
| Tree.Skip | tree.py:16-24 | an entry is skipped exactly when some pattern matches it: a "*" pattern by the name's ending, any other by a substring of the full path |
| Tree.FilterEntries | tree.py:14-26 | the filter loop keeps exactly the entries no pattern matches, in order |
| Tree.PrintTree | tree.py:5-7 | without patterns the default list is used, and the lines are the drawing of the directory |
| Tree.Draw | tree.py:9-36 | the lines printed are the drawing: each kept entry on one line with "└── " for the last and "├── " otherwise, and a directory's entries below it under "    " or "│   " |
| Tree.KeptMembers | tree.py:14-26 | an entry is listed exactly when it is in the directory and no pattern matches it |
| Tree.KeptConcat | tree.py:14-26 | filtering keeps the sorted order: it distributes over concatenation |
| Tree.KeptIdempotent | tree.py:14-26 | filtering twice with the same patterns changes nothing |
| Tree.RenderEmpty | tree.py:14-36 | a directory draws nothing exactly when every entry in it is ignored |
| Tree.RenderPrefixed | tree.py:32-36 | every line drawn for a directory, at any depth, starts with the prefix it was drawn under |
| Tree.BlockLength | tree.py:29-36 | a directory draws at least one line per kept entry, and exactly one per entry when none is a directory |
| Tree.DefaultHidesGitPrefixed | tree.py:7 | the ".git" pattern also hides ".gitignore", ".github" and any entry whose name begins with ".git" |
| Tree.UnderVenvDrawsNothing | tree.py:7 | drawn from a directory whose path contains "venv", the default list hides every entry and nothing is drawn |

## Left out

- **Async plumbing.** The router's `async`/`await` and its `asyncio.sleep` backoff between rounds are left out: the router runs as a sequential method.
  - The unawaited calls are modelled as calls that never yield a response (see Findings).
- **Provider adapters.** Their SDK calls are an oracle. Only the model-name rule and the exception-to-error rule are kept.
- **Job queue.** The Celery/Redis queue, `apply_async`, `AsyncResult` and the worker's retry and time-limit decorators are left out.
  - The queue is a map from job id to job state.
  - The worker's retries never fire, because its body never raises, so leaving them out loses nothing.
- **Status endpoint.** It reports success even when the worker's result holds an error. Pending and unknown job ids give the same answer. Both are modelled as written.
- **JSON extractor.** `json.loads` and the DOTALL regular expression are replaced by a decoder parameter and a fence search on characters.
  - A decode failure does not fall through to a later stage, as in the code.
  - The file reader (`read_uploaded_file_content`, with chardet) is left out. Its result is an input.
- **HTTP calls.** The httpx calls from the course views, the poller and the AI-teacher task are inputs: the reply, or a failed transport.
- **Database, transactions and pagination.**
  - Querysets, DRF responses beyond their status and detail, URL configuration and migrations are left out.
  - Database tables are sequences or maps.
  - The atomic transaction of the backfill command is left out.
  - Only the explicit slice of `available_courses` is modelled, not DRF pagination.
- **Storage and media.** MinIO signing is a function parameter. Uploads to MinIO, thumbnails, the websocket consumer and the chat file task are left out.
- **Randomness and text output.**
  - `generate_random_nickname` is an input function of the row id.
  - The backfill command's progress messages are left out.
  - The import's batch error texts are left out: the one for a username already taken (backend/education/views.py:324) and the one for a failed batch (backend/education/views.py:336). The per-row texts and the success and failure counts are kept.
- **Chat views.**
  - The 403 answers of `list_messages`, `list_members` and `upload_file` cannot be reached: `get_object` already answers 404 to anyone who is not an active member. The model gives the 404.
  - An upload with an empty file name is refused like a missing file.
  - A member who was kicked can still rename themself, as in the code.
- **Forum.**
  - A deny rule hides every post of that author, the viewer's own included, as in the code.
  - `teacherClasses` (a teacher's classes) is an input. The post serializer reads `user.teacher_classes` (backend/forum/serializers.py:124), which no model declares.
  - backend/forum/serializers.py:7 imports `UserSimpleSerializer`, which backend/education/serializers.py does not define, so the forum app fails to import as written. The model treats it as loaded.
  - The project's URL configuration (backend/EDU/urls.py:21-29) mounts neither the forum nor the chat routes, so their views cannot be reached as shipped. They are modelled as if mounted.
  - The anonymity finding holds for JSON bodies only. The front end posts a new post as multipart form data (frontend/src/api/forum.js:44-48), and there an omitted boolean field reads as False.
  - The AI-comment task (backend/forum/tasks.py) is only queued. Its body is not part of this model.
- **Notifications.**
  - A reply skips the recipient's message policy, as in the code (`ReplyIgnoresPolicy`).
  - Cascade deletion of replies on retract is left out.
  - A non-numeric recipient id is left out: the recipient is a number or absent. A recipient sent as an empty string or null, which the serializer refuses, is not modelled either.
  - NotificationViews.Send: the client-writable `data` field is not modelled. The title is stored as sent, untrimmed; only its trimmed length is checked, as in the code.
- **Education.**
  - A student serializer update can also set the role, as in the code.
  - EducationSerializers.Account.UpdateSuperAdmin: `role` is read-only in `SuperAdminSerializer` (backend/education/serializers.py:99), so a request never reaches the role refusal at lines 129-130. The model keeps the check on whatever fields it is given.
  - EducationViews.WriteBatch, EducationViews.WriteAll and EducationViews.ImportStudents write each batch on its own, as the per-batch `except IntegrityError` intends. The one surrounding transaction of the code is modelled separately, by `TransactionAsWritten` and `ImportReplyAsWritten` (see Findings). Both differ from the code only past 100 accepted rows.
  - EducationViews.ImportStudents: a file the reader cannot parse, which the code answers with a 500, is not modelled: the sheet is an input. A student number already held by another account under a different username, which fails its batch on the unique `student_number`, is not modelled either: only usernames are checked.
  - EducationViews.CheckRowRules, EducationViews.CheckRow and EducationViews.ImportStudents: a cell is text, a whole number (read as an integer or, in a column with empty cells, as a float) or empty. Cells holding fractional numbers, dates or booleans are not modelled.
  - A sheet with duplicate headers is not modelled: the first matching column is used.
- **AI-teacher task.**
  - The profile lines of `get_sender_context` are an input. They come from ORM queries and f-string formatting.
  - The order of the selected messages is an input (newest first).
  - Logging is left out.
- **Front end.**
  - `ROLE_MAP` lookups of JavaScript prototype keys, such as `constructor`, are not modelled.
  - Route tables and the store's initial state are inputs. A corrupt stored user at store creation (the `JSON.parse` in `state`) is not modelled; a corrupt copy during `restore` is.
  - `ElMessage`, `console` and `router.replace` after logout are left out.
- **tree.py.**
  - The directory listing, with its sort order, is an input. `main`'s header line and the filesystem access are left out.
  - Printing is modelled as the list of lines returned.
- **Excluded source.** Declarations-only files (`schemas.py`, the legacy education models) and one-off scripts are not part of this model. The configuration constants `RETRY_ATTEMPTS = 2` and `DEFAULT_TIMEOUT = 120` are model constants.
- Worker.BuildRequest: the input error for a message with an invalid role carries only the first line of pydantic's report, as if there were one error (`Worker.INVALID_MESSAGE`). The rest of the report, which lists each error and counts them, is not modelled.
- **Lowercasing.** `Text.Lower` lowers ASCII letters only, where Python's `str.lower` and JavaScript's `toLowerCase` cover all of Unicode. This affects UserStore.NormalizeRole, EducationViews.Normalized (the sheet headers), CourseViews.SearchCourses and CourseViews.SearchClasses (`icontains`), CourseViews.Ext's extension check and Router.FindByNameFirst. Stripping uses Python's full whitespace set.
- CourseViews.CreateStoresFiles: the teacher's "新作业提交" notification, which the submission's `post_save` receiver creates (backend/course/models.py:152-170), stays after the submission is deleted on a failed upload. The notification points at it only through a generic relation. The files already uploaded to MinIO stay too. The model does not track either.
- **Number types.** Floats are `real`, without rounding (`avg_score` formatting, the temperature bounds). Integers are unbounded. No counter in the core can reach a width limit.

## Findings

| source | as written | input that shows it | evidently intended | confidence | as-written member | corrected member |
|---|---|---|---|---|---|---|
| ai_service/app/main.py:59-62 | `get_llm_response` is a coroutine but is called without `await`, so the inline path reads fields of a coroutine object and fails | any request that is not queued, e.g. a default request with a 30 s timeout | await the router and return its response | high, not executed | AiService.UnawaitedRouterFailsInline | AiService.InlineReply |
| ai_service/app/tasks.py:44-49 | the worker calls the async router without `await`, so every job ends in its error branch | any queued payload | await the router and encode its response | high, not executed | Worker.UnawaitedRouterNeverAnswers | Worker.TaskResultShape |
| backend/notifications/views.py:105-117 | `retract` uses `timedelta`, which the module never imports, so every retract by the sender ends in a server error and nothing is deleted | the sender retracting an unread message of theirs sent a minute ago | delete the sender's unread message within ten minutes | high, not executed | NotificationViews.RetractNeverDeletes | NotificationViews.RetractRules |
| backend/course/views.py:751-760 | `grade` clears `submitted` on a returned submission but leaves it out of `update_fields`, so the reply shows it cleared while the stored row stays submitted | the course's teacher returning a submitted submission | save the cleared flag with the other fields | medium, not executed | CourseViews.ReturnedStaysSubmitted | CourseViews.GradeRules |
| backend/course/permissions.py:15 | `IsTeacher` compares the role with 'Teacher', a spelling no account holds, so every teacher is refused | a signed-in user with role "teacher" | compare with 'teacher' | high, not executed | CoursePermissions.TeacherRefused | CoursePermissions.PermissionRules |
| backend/notifications/tasks.py:145-186 | for `teacherDeepseekR` the service queues the request and answers with a placeholder, which the task stores as the reply and marks the question read | any unread message to `teacherDeepseekR` | fetch the job's result and answer with it once it is finished | high, not executed | NotificationTasks.ReasoningAnswerIsPlaceholder | NotificationTasks.ReasoningAnswerIsJobResult |
| backend/course/serializers.py:277-288 | the pending count subtracts every open submission of every student from the number of open assignments, so it can go negative | one open assignment submitted by two classmates: a third student, who has not submitted it, is shown -1 | count the open assignments the viewing student has not submitted | high, not executed | CourseSerializers.PendingCountsOtherStudents | CourseSerializers.PendingRules |
| backend/education/views.py:260-272 | an empty name cell is read as NaN, turned into the string "nan", and passes the required-field check | a sheet row with a username but an empty name | refuse the row as missing its name | medium, not executed | EducationViews.EmptyNameImportsNan | EducationViews.CheckRowRules |
| backend/education/views.py:311-336 | all batches run in one `transaction.atomic()`; `bulk_create`'s `IntegrityError` is caught per batch, but the transaction is already marked for rollback | a sheet of 102 accepted rows whose last two share a student number: the first 100 are rolled back while the reply counts them as imported; with a third batch the import answers 500 | undo only the failing batch, with a savepoint per batch | medium, not executed | EducationViews.LastBatchFailureRollsBack | EducationViews.WriteBatches |
| backend/education/views.py:259 | a numeric column with an empty cell is read as floats, and `str` gives "2023001.0", which becomes the username | a sheet whose student-number column holds numbers and one empty cell | use the number's digits | medium, not executed | EducationViews.FloatNumberKeepsPoint | EducationViews.CheckRowRules |
| backend/forum/serializers.py:148-152 | `validate` reads a missing `is_anonymous` as False while the model stores True, so a teacher's post without the field is stored anonymously | a teacher creating a post with a JSON body that leaves out the anonymity field; the front end's multipart form reads an omitted field as False | check the value the post will be stored with | medium, not executed | ForumSerializers.StaffPostAnonymousByDefault | ForumSerializers.ValidateRules |
