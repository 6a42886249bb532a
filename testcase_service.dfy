/** The test-case service: who may touch a problem's test cases, the object keys they are stored under, and the URLs handed out for them. */
module TestcaseService {
  import opened Wrappers
  import opened Errors
  import opened Text
  import ProblemService

  type AuthUser = ProblemService.AuthUser
  type ProblemOwner = ProblemService.ProblemOwner

  const NoTeacherIdMessage: string := "No teacher id found"
  const TeacherOnlyMessage: string := "Unauthorized access, only teacher is allowed to modify testcases"
  const NoProblemMessage: string := "No problem exist with given id"
  const NoUploadProblemMessage: string := "Couldn't find id of the problem to upload the testcases."
  const PresignDeniedMessage: string := "Unauthorized access, you are not allowed to generate presigned url for given problem."
  const UploadUrlFailedMessage: string := "Failed to generate upload url for testcase, please try once again."
  const NothingToCreateMessage: string := "No testcases found to upload in database."
  const CreateDeniedMessage: string := "Unauthorized access, you are not allowed to create testcases in database."
  const CreateFailedMessage: string := "Failed to upload testcases, please try again."
  const NoProblemIdMessage: string := "No problem id found"
  const ListDeniedMessage: string := "Unauthorized access, you are not allowed to see all the hidden testcases."
  const PreviewFailedMessage: string := "Failed to fetch all the testcases"
  const NoTestcaseMessage: string := "No testcase found with given id."
  const ChangeDeniedMessage: string := "Unauthorized access, you are not allowed to perform changes on testcases."

  // ---------------------------------------------------------------------------
  // authenticateTeacher, isModeratorAllowed, checkProblem
  // ---------------------------------------------------------------------------

  /** `authenticateTeacher`: an id first, then a teacher role. */
  function AuthenticateTeacher(user: Option<AuthUser>): Result<(), Error> {
    if user.None? || !Present(user.value.id) then Err(Api(NoTeacherIdMessage))
    else if !ProblemService.IsTeacherRole(user.value.role) then Err(ApiWith(TeacherOnlyMessage, Unauthorized))
    else Ok(())
  }

  /** A user passes iff they have an id and a teacher role. */
  lemma TeacherIff(user: Option<AuthUser>)
    ensures AuthenticateTeacher(user).Ok? <==> user.Some? && Present(user.value.id) && ProblemService.IsTeacherRole(user.value.role)
    ensures user.Some? && !Present(user.value.id) ==> AuthenticateTeacher(user) == Err(Api(NoTeacherIdMessage))
  {
  }

  /** The two teacher checks take their conditions in opposite orders, so a non-teacher without an id is refused for different reasons. */
  lemma TeacherChecksDisagreeOnOrder(role: Option<string>)
    requires !ProblemService.IsTeacherRole(role)
    ensures AuthenticateTeacher(Some(ProblemService.AuthUser(None, role))) == Err(Api(NoTeacherIdMessage))
    ensures ProblemService.ValidateTeacherRole(ProblemService.CallerUser(Some(ProblemService.AuthUser(None, role)))) ==
      Err(ApiWith(ProblemService.TeachersOnlyMessage, Unauthorized))
  {
  }

  /** `isModeratorAllowed`: scans the problem's moderators for the teacher's user id, stopping at the first match. */
  method IsModeratorAllowed(teacherId: Option<string>, moderatorIds: seq<string>) returns (r: Result<bool, Error>)
    ensures !Present(teacherId) <==> r.Err?
    ensures r.Err? ==> r.error == Api(NoTeacherIdMessage)
    ensures r.Ok? ==> (r.value <==> exists i :: 0 <= i < |moderatorIds| && moderatorIds[i] == teacherId.value)
  {
    if !Present(teacherId) {
      return Err(Api(NoTeacherIdMessage));
    }
    var i := 0;
    while i < |moderatorIds|
      invariant 0 <= i <= |moderatorIds|
      invariant forall j :: 0 <= j < i ==> moderatorIds[j] != teacherId.value
    {
      if moderatorIds[i] == teacherId.value {
        return Ok(true);
      }
      i := i + 1;
    }
    r := Ok(false);
  }

  /** `checkProblem`'s answer: an id, then an existing problem; access for its creator or any moderator. */
  function ProblemAccess(teacherId: Option<string>, problem: Option<ProblemOwner>, moderatorIds: seq<string>): Result<bool, Error> {
    if !Present(teacherId) then Err(Api(NoTeacherIdMessage))
    else if problem.None? then Err(Api(NoProblemMessage))
    else Ok(problem.value.creatorId == Some(teacherId.value) || teacherId.value in moderatorIds)
  }

  /** Access, both directions: granted iff the teacher created the problem or is listed among its moderators. */
  lemma ProblemAccessIff(teacherId: Option<string>, problem: Option<ProblemOwner>, moderatorIds: seq<string>)
    ensures ProblemAccess(teacherId, problem, moderatorIds) == Ok(true) <==>
      Present(teacherId) && problem.Some? &&
      (problem.value.creatorId == Some(teacherId.value) || exists i :: 0 <= i < |moderatorIds| && moderatorIds[i] == teacherId.value)
    ensures ProblemAccess(teacherId, problem, moderatorIds).Err? <==> !Present(teacherId) || problem.None?
  {
  }

  /** `checkProblem`, with the problem row and the moderators' user ids as parameters. */
  method CheckProblem(teacherId: Option<string>, problem: Option<ProblemOwner>, moderatorIds: seq<string>) returns (r: Result<bool, Error>)
    ensures r == ProblemAccess(teacherId, problem, moderatorIds)
  {
    if !Present(teacherId) {
      return Err(Api(NoTeacherIdMessage));
    }
    if problem.None? {
      return Err(Api(NoProblemMessage));
    }
    var teacher := problem.value.creatorId == Some(teacherId.value);
    var moderator := IsModeratorAllowed(teacherId, moderatorIds);
    r := Ok(teacher || moderator.value);
  }

  /**
   * The checks shared by the per-problem operations: the teacher, then the operation's own check of the
   * problem id (`badId`), then access to the problem; `denied` is the operation's refusal.
   */
  function AccessGate(user: Option<AuthUser>, badId: Option<Error>, problem: Option<ProblemOwner>,
                      moderatorIds: seq<string>, denied: Error): Result<(), Error>
  {
    var auth := AuthenticateTeacher(user);
    if auth.Err? then Err(auth.error)
    else if badId.Some? then Err(badId.value)
    else
      var access := ProblemAccess(user.value.id, problem, moderatorIds);
      if access.Err? then Err(access.error)
      else if !access.value then Err(denied)
      else Ok(())
  }

  /** The gate opens iff a teacher with access asks with an acceptable problem id. */
  lemma AccessGateIff(user: Option<AuthUser>, badId: Option<Error>, problem: Option<ProblemOwner>,
                      moderatorIds: seq<string>, denied: Error)
    ensures AccessGate(user, badId, problem, moderatorIds, denied).Ok? <==>
      AuthenticateTeacher(user).Ok? && badId.None? && ProblemAccess(user.value.id, problem, moderatorIds) == Ok(true)
  {
  }

  /** The gate as a method: the access check runs `checkProblem`. */
  method Gate(user: Option<AuthUser>, badId: Option<Error>, problem: Option<ProblemOwner>,
              moderatorIds: seq<string>, denied: Error) returns (r: Result<(), Error>)
    ensures r == AccessGate(user, badId, problem, moderatorIds, denied)
  {
    var auth := AuthenticateTeacher(user);
    if auth.Err? {
      return Err(auth.error);
    }
    if badId.Some? {
      return Err(badId.value);
    }
    var access := CheckProblem(user.value.id, problem, moderatorIds);
    if access.Err? {
      return Err(access.error);
    }
    if !access.value {
      return Err(denied);
    }
    r := Ok(());
  }

  // ---------------------------------------------------------------------------
  // Object keys
  // ---------------------------------------------------------------------------

  /** `testcases/<problemId>/input/<file>`. */
  function InputKey(problemId: string, file: string): string {
    "testcases/" + problemId + "/input" + "/" + file
  }

  /** `testcases/<problemId>/output/<file>`. */
  function OutputKey(problemId: string, file: string): string {
    "testcases/" + problemId + "/output" + "/" + file
  }

  /** A file name without "/" is what the last-segment extraction of the submission path reads back from either key. */
  lemma KeysRoundTrip(problemId: string, file: string)
    requires '/' !in file
    ensures LastSegment(InputKey(problemId, file)) == file
    ensures LastSegment(OutputKey(problemId, file)) == file
  {
    LastSegmentOfPath("testcases/" + problemId + "/input", file);
    LastSegmentOfPath("testcases/" + problemId + "/output", file);
  }

  /** An input key is never an output key (of the same problem or any other), and each key determines its file name. */
  lemma KeysAreDistinct(problemId: string, file: string, otherProblem: string, other: string)
    ensures InputKey(problemId, file) != OutputKey(problemId, other)
    ensures InputKey(problemId, file) == InputKey(problemId, other) ==> file == other
    ensures OutputKey(problemId, file) == OutputKey(problemId, other) ==> file == other
  {
    var n := |"testcases/" + problemId + "/"|;
    assert InputKey(problemId, file)[n] == 'i';
    assert OutputKey(problemId, other)[n] == 'o';
    var ni := |"testcases/" + problemId + "/input/"|;
    assert InputKey(problemId, file)[ni..] == file;
    assert InputKey(problemId, other)[ni..] == other;
    var no := |"testcases/" + problemId + "/output/"|;
    assert OutputKey(problemId, file)[no..] == file;
    assert OutputKey(problemId, other)[no..] == other;
  }

  // ---------------------------------------------------------------------------
  // generatePresignedUrl and generateBulkPresignedUrl
  // ---------------------------------------------------------------------------

  /** The two file names an upload asks for. */
  datatype UploadRequest = UploadRequest(inputFilename: string, outputFilename: string)

  datatype UploadUrls = UploadUrls(inputUploadUrl: string, outputUploadUrl: string)

  /** The URLs for one request; `presign` yields None for a falsy URL. */
  function Presign(problemId: string, req: UploadRequest, presign: string -> Option<string>): Result<UploadUrls, Error> {
    var input := presign(InputKey(problemId, req.inputFilename));
    var output := presign(OutputKey(problemId, req.outputFilename));
    if input.None? || output.None? then Err(ApiWith(UploadUrlFailedMessage, InternalServerError))
    else Ok(UploadUrls(input.value, output.value))
  }

  /** The URLs for a list of requests, in request order; a missing URL anywhere fails the whole list. */
  function PresignAll(problemId: string, reqs: seq<UploadRequest>, presign: string -> Option<string>): Result<seq<UploadUrls>, Error> {
    if reqs == [] then Ok([])
    else
      var init := PresignAll(problemId, reqs[..|reqs| - 1], presign);
      var last := Presign(problemId, reqs[|reqs| - 1], presign);
      if init.Err? then init
      else if last.Err? then Err(last.error)
      else Ok(init.value + [last.value])
  }

  /** One URL pair per request, in order, each for that request's own keys; a single missing URL fails everything. */
  lemma {:induction false} PresignAllShape(problemId: string, reqs: seq<UploadRequest>, presign: string -> Option<string>)
    ensures PresignAll(problemId, reqs, presign).Ok? <==> forall i :: 0 <= i < |reqs| ==> Presign(problemId, reqs[i], presign).Ok?
    ensures PresignAll(problemId, reqs, presign).Ok? ==>
      |PresignAll(problemId, reqs, presign).value| == |reqs| &&
      forall i :: 0 <= i < |reqs| ==> PresignAll(problemId, reqs, presign).value[i] == Presign(problemId, reqs[i], presign).value
    ensures PresignAll(problemId, reqs, presign).Err? ==> PresignAll(problemId, reqs, presign).error == ApiWith(UploadUrlFailedMessage, InternalServerError)
  {
    if reqs != [] {
      var init := reqs[..|reqs| - 1];
      PresignAllShape(problemId, init, presign);
      assert forall i :: 0 <= i < |init| ==> init[i] == reqs[i];
    }
  }

  /** The problem-id check of the upload operations: a blank id is reported as not found. */
  function UploadIdCheck(problemId: string): Option<Error> {
    if Trim(problemId) == "" then Some(ApiWith(NoUploadProblemMessage, NotFound)) else None
  }

  /** `generatePresignedUrl`. */
  method GeneratePresignedUrl(user: Option<AuthUser>, problemId: string, req: UploadRequest, problem: Option<ProblemOwner>,
                              moderatorIds: seq<string>, presign: string -> Option<string>) returns (r: Result<UploadUrls, Error>)
    ensures AccessGate(user, UploadIdCheck(problemId), problem, moderatorIds, ApiWith(PresignDeniedMessage, Unauthorized)).Err? ==>
      r == Err(AccessGate(user, UploadIdCheck(problemId), problem, moderatorIds, ApiWith(PresignDeniedMessage, Unauthorized)).error)
    ensures AccessGate(user, UploadIdCheck(problemId), problem, moderatorIds, ApiWith(PresignDeniedMessage, Unauthorized)).Ok? ==>
      r == Presign(problemId, req, presign)
  {
    var gate := Gate(user, UploadIdCheck(problemId), problem, moderatorIds, ApiWith(PresignDeniedMessage, Unauthorized));
    if gate.Err? {
      return Err(gate.error);
    }
    r := Presign(problemId, req, presign);
  }

  /** `generateBulkPresignedUrl`: one pair of URLs per request, pushed in a loop that stops at the first missing URL. */
  method GenerateBulkPresignedUrl(user: Option<AuthUser>, problemId: string, reqs: seq<UploadRequest>, problem: Option<ProblemOwner>,
                                  moderatorIds: seq<string>, presign: string -> Option<string>) returns (r: Result<seq<UploadUrls>, Error>)
    ensures AccessGate(user, UploadIdCheck(problemId), problem, moderatorIds, ApiWith(PresignDeniedMessage, Unauthorized)).Err? ==>
      r == Err(AccessGate(user, UploadIdCheck(problemId), problem, moderatorIds, ApiWith(PresignDeniedMessage, Unauthorized)).error)
    ensures AccessGate(user, UploadIdCheck(problemId), problem, moderatorIds, ApiWith(PresignDeniedMessage, Unauthorized)).Ok? ==>
      r == PresignAll(problemId, reqs, presign)
  {
    var gate := Gate(user, UploadIdCheck(problemId), problem, moderatorIds, ApiWith(PresignDeniedMessage, Unauthorized));
    if gate.Err? {
      return Err(gate.error);
    }
    var urls: seq<UploadUrls> := [];
    var i := 0;
    while i < |reqs|
      invariant 0 <= i <= |reqs|
      invariant PresignAll(problemId, reqs[..i], presign) == Ok(urls)
    {
      assert reqs[..i + 1][..i] == reqs[..i];
      var inputUrl := presign(InputKey(problemId, reqs[i].inputFilename));
      var outputUrl := presign(OutputKey(problemId, reqs[i].outputFilename));
      if inputUrl.None? || outputUrl.None? {
        PresignAllFailsFrom(problemId, reqs, i + 1, presign);
        return Err(ApiWith(UploadUrlFailedMessage, InternalServerError));
      }
      urls := urls + [UploadUrls(inputUrl.value, outputUrl.value)];
      i := i + 1;
    }
    assert reqs[..i] == reqs;
    r := Ok(urls);
  }

  /** A prefix that fails makes the whole list fail with the same error. */
  lemma {:induction false} PresignAllFailsFrom(problemId: string, reqs: seq<UploadRequest>, k: nat, presign: string -> Option<string>)
    requires k <= |reqs|
    requires PresignAll(problemId, reqs[..k], presign).Err?
    ensures PresignAll(problemId, reqs, presign) == PresignAll(problemId, reqs[..k], presign)
    decreases |reqs| - k
  {
    if k < |reqs| {
      assert reqs[..k + 1][..k] == reqs[..k];
      PresignAllFailsFrom(problemId, reqs, k + 1, presign);
    } else {
      assert reqs[..k] == reqs;
    }
  }

  // ---------------------------------------------------------------------------
  // createTestcases
  // ---------------------------------------------------------------------------

  /** A test case as `createTestcases` receives it; `input` and `output` are file names until rewritten. */
  datatype NewTestcase = NewTestcase(problemId: string, input: string, output: string, isSample: bool, points: int, explanation: string)

  /** The rewrite before insertion: each test case's file names become keys under its own problem. */
  function RewriteKeys(ts: seq<NewTestcase>): (r: seq<NewTestcase>)
    ensures |r| == |ts|
    ensures forall i :: 0 <= i < |ts| ==>
      r[i] == ts[i].(input := InputKey(ts[i].problemId, ts[i].input), output := OutputKey(ts[i].problemId, ts[i].output))
  {
    seq(|ts|, i requires 0 <= i < |ts| =>
      ts[i].(input := InputKey(ts[i].problemId, ts[i].input), output := OutputKey(ts[i].problemId, ts[i].output)))
  }

  /** Every rewritten key reads back, under last-segment extraction, as the file name it was built from. */
  lemma RewrittenNamesReadBack(ts: seq<NewTestcase>, i: nat)
    requires i < |ts| && '/' !in ts[i].input && '/' !in ts[i].output
    ensures LastSegment(RewriteKeys(ts)[i].input) == ts[i].input
    ensures LastSegment(RewriteKeys(ts)[i].output) == ts[i].output
    ensures RewriteKeys(ts)[i].problemId == ts[i].problemId
  {
    KeysRoundTrip(ts[i].problemId, ts[i].input);
    KeysRoundTrip(ts[i].problemId, ts[i].output);
  }

  /** The gate of `createTestcases`: the teacher, then access to the problem of the first test case only.
      `problemOf` and `moderatorsOf` look up a problem row and its moderators' user ids by problem id. */
  function CreateGate(user: Option<AuthUser>, ts: seq<NewTestcase>, problemOf: string -> Option<ProblemOwner>,
                      moderatorsOf: string -> seq<string>): Result<(), Error>
    requires ts != []
  {
    AccessGate(user, None, problemOf(ts[0].problemId), moderatorsOf(ts[0].problemId), ApiWith(CreateDeniedMessage, Unauthorized))
  }

  /**
   * `createTestcases`: an empty list is refused before anything else; access is checked against the first
   * test case's problem only; `inserted` is whether the insert succeeded. The result is the list handed to
   * the insert.
   */
  method CreateTestcases(user: Option<AuthUser>, ts: seq<NewTestcase>, problemOf: string -> Option<ProblemOwner>,
                         moderatorsOf: string -> seq<string>, inserted: bool) returns (r: Result<seq<NewTestcase>, Error>)
    ensures ts == [] ==> r == Err(Api(NothingToCreateMessage))
    ensures ts != [] && CreateGate(user, ts, problemOf, moderatorsOf).Err? ==>
      r == Err(CreateGate(user, ts, problemOf, moderatorsOf).error)
    ensures ts != [] && CreateGate(user, ts, problemOf, moderatorsOf).Ok? ==>
      r == if inserted then Ok(RewriteKeys(ts)) else Err(ApiWith(CreateFailedMessage, InternalServerError))
  {
    if |ts| <= 0 {
      return Err(Api(NothingToCreateMessage));
    }
    var problemId := ts[0].problemId;
    var gate := Gate(user, None, problemOf(problemId), moderatorsOf(problemId), ApiWith(CreateDeniedMessage, Unauthorized));
    if gate.Err? {
      return Err(gate.error);
    }
    var rewritten := RewriteKeys(ts);
    if !inserted {
      return Err(ApiWith(CreateFailedMessage, InternalServerError));
    }
    r := Ok(rewritten);
  }

  /** Only the first test case's problem is checked: a teacher who owns problem "p1" but not "p2" passes the gate
      with a list whose second case names "p2", and that case is inserted with keys under "p2". */
  lemma LaterCaseOfForeignProblemPasses()
    ensures var user := Some(ProblemService.AuthUser(Some("t"), Some("TEACHER")));
      var ts := [NewTestcase("p1", "1.txt", "1.out", false, 10, ""), NewTestcase("p2", "2.txt", "2.out", false, 10, "")];
      var problemOf := (id: string) => Some(ProblemService.ProblemOwner(Some(if id == "p1" then "t" else "u")));
      var moderatorsOf := (id: string) => [];
      && AccessGate(user, None, problemOf("p2"), moderatorsOf("p2"), ApiWith(CreateDeniedMessage, Unauthorized)).Err?
      && CreateGate(user, ts, problemOf, moderatorsOf).Ok?
      && RewriteKeys(ts)[1].input == InputKey("p2", "2.txt")
      && RewriteKeys(ts)[1].output == OutputKey("p2", "2.out")
  {
    var user := Some(ProblemService.AuthUser(Some("t"), Some("TEACHER")));
    var owner, stranger := ProblemService.ProblemOwner(Some("t")), ProblemService.ProblemOwner(Some("u"));
    assert ProblemAccess(user.value.id, Some(stranger), []) == Ok(false);
    assert ProblemAccess(user.value.id, Some(owner), []) == Ok(true);
  }

  // ---------------------------------------------------------------------------
  // getAllTestcases
  // ---------------------------------------------------------------------------

  /** A stored test case's id and the keys of its two files. */
  datatype StoredTestcase = StoredTestcase(id: string, isSample: bool, input: string, output: string, point: int, explanation: string)

  /** A file as the listing shows it: its key and a preview URL. */
  datatype FileLink = FileLink(key: string, url: string)

  datatype ListedTestcase = ListedTestcase(id: string, isSample: bool, input: FileLink, output: FileLink, point: int, explanation: string)

  datatype PreviewUrls = PreviewUrls(inputUrl: string, outputUrl: string)

  /** The pairing `data.map((d, idx) => ...)`: each test case takes the URLs at its own index and keeps its keys. */
  function PairWithUrls(rows: seq<StoredTestcase>, urls: seq<PreviewUrls>): (r: seq<ListedTestcase>)
    requires |urls| == |rows|
    ensures |r| == |rows|
    ensures forall i :: 0 <= i < |rows| ==>
      r[i] == ListedTestcase(rows[i].id, rows[i].isSample, FileLink(rows[i].input, urls[i].inputUrl),
                             FileLink(rows[i].output, urls[i].outputUrl), rows[i].point, rows[i].explanation)
  {
    seq(|rows|, i requires 0 <= i < |rows| =>
      ListedTestcase(rows[i].id, rows[i].isSample, FileLink(rows[i].input, urls[i].inputUrl),
                     FileLink(rows[i].output, urls[i].outputUrl), rows[i].point, rows[i].explanation))
  }

  /** The problem-id check of the listing: only the empty id is refused. */
  function ListIdCheck(problemId: string): Option<Error> {
    if problemId == "" then Some(ApiWith(NoProblemIdMessage, InternalServerError)) else None
  }

  /** Whether every stored file has a preview URL. */
  predicate AllPreviewable(rows: seq<StoredTestcase>, preview: string -> Option<string>) {
    forall i :: 0 <= i < |rows| ==> preview(rows[i].input).Some? && preview(rows[i].output).Some?
  }

  /** `getAllTestcases`: after the gate, a loop collects the preview URLs (a missing one aborts), and the rows are paired with them. */
  method GetAllTestcases(user: Option<AuthUser>, problemId: string, problem: Option<ProblemOwner>, moderatorIds: seq<string>,
                         rows: seq<StoredTestcase>, preview: string -> Option<string>) returns (r: Result<seq<ListedTestcase>, Error>)
    ensures AccessGate(user, ListIdCheck(problemId), problem, moderatorIds, ApiWith(ListDeniedMessage, Unauthorized)).Err? ==>
      r == Err(AccessGate(user, ListIdCheck(problemId), problem, moderatorIds, ApiWith(ListDeniedMessage, Unauthorized)).error)
    ensures AccessGate(user, ListIdCheck(problemId), problem, moderatorIds, ApiWith(ListDeniedMessage, Unauthorized)).Ok? ==>
      (r.Ok? <==> AllPreviewable(rows, preview))
    ensures r.Err? && AllPreviewable(rows, preview) ==>
      r.error == AccessGate(user, ListIdCheck(problemId), problem, moderatorIds, ApiWith(ListDeniedMessage, Unauthorized)).error
    ensures r.Err? && !AllPreviewable(rows, preview) && AccessGate(user, ListIdCheck(problemId), problem, moderatorIds, ApiWith(ListDeniedMessage, Unauthorized)).Ok? ==>
      r.error == ApiWith(PreviewFailedMessage, InternalServerError)
    ensures r.Ok? ==> |r.value| == |rows| && forall i :: 0 <= i < |rows| ==>
      r.value[i] == ListedTestcase(rows[i].id, rows[i].isSample, FileLink(rows[i].input, preview(rows[i].input).value),
                                   FileLink(rows[i].output, preview(rows[i].output).value), rows[i].point, rows[i].explanation)
  {
    var gate := Gate(user, ListIdCheck(problemId), problem, moderatorIds, ApiWith(ListDeniedMessage, Unauthorized));
    if gate.Err? {
      return Err(gate.error);
    }
    var urls: seq<PreviewUrls> := [];
    var i := 0;
    while i < |rows|
      invariant 0 <= i <= |rows|
      invariant |urls| == i
      invariant forall j :: 0 <= j < i ==> preview(rows[j].input).Some? && preview(rows[j].output).Some?
      invariant forall j :: 0 <= j < i ==> urls[j] == PreviewUrls(preview(rows[j].input).value, preview(rows[j].output).value)
    {
      var inUrl := preview(rows[i].input);
      var outUrl := preview(rows[i].output);
      if inUrl.None? || outUrl.None? {
        return Err(ApiWith(PreviewFailedMessage, InternalServerError));
      }
      urls := urls + [PreviewUrls(inUrl.value, outUrl.value)];
      i := i + 1;
    }
    r := Ok(PairWithUrls(rows, urls));
  }

  // ---------------------------------------------------------------------------
  // checkTestcase
  // ---------------------------------------------------------------------------

  /** A problem-moderator row: its own id and the id of the moderating user. */
  datatype ModeratorRow = ModeratorRow(id: string, moderatorId: string)

  /** The owner data of a test case: its problem's creator and moderator rows. */
  datatype TestcaseOwner = TestcaseOwner(creatorId: Option<string>, problemModerators: seq<ModeratorRow>)

  predicate RowIdAt(mods: seq<ModeratorRow>, j: int, id: string) {
    0 <= j < |mods| && mods[j].id == id
  }

  /** `checkTestcase`: an id, an existing test case, then the creator or a moderator row whose `id` is the teacher's id. */
  method CheckTestcase(teacherId: Option<string>, owner: Option<TestcaseOwner>) returns (r: Result<(), Error>)
    ensures !Present(teacherId) ==> r == Err(Api(NoTeacherIdMessage))
    ensures Present(teacherId) && owner.None? ==> r == Err(Api(NoTestcaseMessage))
    ensures Present(teacherId) && owner.Some? ==>
      (r.Ok? <==> owner.value.creatorId == Some(teacherId.value) ||
                  exists i :: 0 <= i < |owner.value.problemModerators| && owner.value.problemModerators[i].id == teacherId.value)
    ensures Present(teacherId) && owner.Some? && r.Err? ==> r.error == Api(ChangeDeniedMessage)
  {
    if !Present(teacherId) {
      return Err(Api(NoTeacherIdMessage));
    }
    if owner.None? {
      return Err(Api(NoTestcaseMessage));
    }
    var mods := owner.value.problemModerators;
    var t := teacherId.value;
    var teacher := owner.value.creatorId == Some(t);
    var moderator := false;
    var i := 0;
    while i < |mods|
      invariant 0 <= i <= |mods|
      invariant !moderator ==> forall j :: 0 <= j < i ==> mods[j].id != t
      invariant moderator ==> exists j :: RowIdAt(mods, j, t)
    {
      if mods[i].id == t {
        assert RowIdAt(mods, i, t);
        moderator := true;
        break;
      }
      i := i + 1;
    }
    if !(teacher || moderator) {
      return Err(Api(ChangeDeniedMessage));
    }
    r := Ok(());
  }
}
