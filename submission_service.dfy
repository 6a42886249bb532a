/** Submission gating: the contest checks a submission passes, the driver code it is wrapped in, and the test cases it is judged against. */
module SubmissionService {
  import opened Wrappers
  import opened Errors
  import opened Text
  import opened WorkerTypes
  import opened StatusStore

  const NoContestMessage: string := "No contest found with given id"
  const NoBatchesMessage: string := "Failed to fetch batches data."
  const NoStudentMessage: string := "Failed to fetch student data"
  const NoUserIdMessage: string := "No id associated with user found"
  const StudentsOnlyMessage: string := "Only students are allowed to submit during contest."
  const NotLiveMessage: string := "Not allowed, submission time is not within the contest time frame."
  const NotParticipantMessage: string := "Unauthorized access, you are not allowed to submit the problem in this contest."
  const NoDriverCodeMessage: string := "No driver code found for given problem"
  const NoTestcasesMessage: string := "No testcases found for the given problem"
  const Student: string := "STUDENT"

  // ---------------------------------------------------------------------------
  // isLiveContest and isParticipant
  // ---------------------------------------------------------------------------

  /** A contest's start and end instants, on one time axis. */
  datatype ContestTimings = ContestTimings(startTime: int, endTime: int)

  /**
   * `isLiveContest`: a missing contest is an error; otherwise the submission instant must lie in the
   * closed window. `time` is None when `new Date(currentTime)` is an invalid date, which compares false.
   */
  function IsLiveContest(timings: Option<ContestTimings>, time: Option<int>): Result<bool, Error> {
    match timings
    case None => Err(Api(NoContestMessage))
    case Some(t) => Ok(time.Some? && t.startTime <= time.value && time.value <= t.endTime)
  }

  /** The window is closed at both ends and open nowhere: exactly the instants from start to end are live. */
  lemma LiveWindowIsInclusive(t: ContestTimings, now: int)
    requires t.startTime <= t.endTime
    ensures IsLiveContest(Some(t), Some(t.startTime)) == Ok(true)
    ensures IsLiveContest(Some(t), Some(t.endTime)) == Ok(true)
    ensures IsLiveContest(Some(t), Some(t.startTime - 1)) == Ok(false)
    ensures IsLiveContest(Some(t), Some(t.endTime + 1)) == Ok(false)
    ensures IsLiveContest(Some(t), Some(now)).Ok?
    ensures IsLiveContest(Some(t), Some(now)).value <==> t.startTime <= now <= t.endTime
  {
  }

  /** A missing contest is an error whatever the time; an invalid time is never live. */
  lemma LiveContestErrors(timings: Option<ContestTimings>, time: Option<int>)
    ensures IsLiveContest(timings, time).Err? <==> timings.None?
    ensures timings.None? ==> IsLiveContest(timings, time).error == Api(NoContestMessage)
    ensures timings.Some? && time.None? ==> IsLiveContest(timings, time) == Ok(false)
  {
  }

  /** The set of batch ids `new Set(batches.map(b => b.batch.id))`. */
  function BatchIdSet(batches: seq<string>): set<string> {
    set i | 0 <= i < |batches| :: batches[i]
  }

  /**
   * `isParticipant`: the contest's batches are checked first, then the student's record; the student takes
   * part iff their batch is one of the contest's.
   */
  function IsParticipant(batches: Option<seq<string>>, studentBatch: Option<string>): Result<bool, Error> {
    if batches.None? then Err(Api(NoBatchesMessage))
    else if studentBatch.None? then Err(Api(NoStudentMessage))
    else Ok(studentBatch.value in BatchIdSet(batches.value))
  }

  /** Membership, both directions: the student takes part iff some batch of the contest is the student's batch. */
  lemma ParticipantIffListed(batches: seq<string>, studentBatch: string)
    ensures IsParticipant(Some(batches), Some(studentBatch)) == Ok(true) <==>
      exists i :: 0 <= i < |batches| && batches[i] == studentBatch
    ensures IsParticipant(Some(batches), Some(studentBatch)).Ok?
  {
    if exists i :: 0 <= i < |batches| && batches[i] == studentBatch {
      var i :| 0 <= i < |batches| && batches[i] == studentBatch;
      assert batches[i] in BatchIdSet(batches);
    }
  }

  /** A failed batch lookup wins over a failed student lookup. */
  lemma ParticipantLookupOrder(batches: Option<seq<string>>, studentBatch: Option<string>)
    ensures batches.None? ==> IsParticipant(batches, studentBatch) == Err(Api(NoBatchesMessage))
    ensures batches.Some? && studentBatch.None? ==> IsParticipant(batches, studentBatch) == Err(Api(NoStudentMessage))
    ensures IsParticipant(batches, studentBatch).Err? <==> batches.None? || studentBatch.None?
  {
  }

  // ---------------------------------------------------------------------------
  // The checks of createSubmission
  // ---------------------------------------------------------------------------

  /** The fields of the authenticated user that the submission path reads. */
  datatype User = User(sub: Option<string>, role: Option<string>)

  /** A submission as the request body holds it after validation. */
  datatype Submission = Submission(problemId: string, contestId: Option<string>, languageId: string, code: string)

  /** The repository lookups the contest checks make, each absent when the row is missing. */
  datatype Lookups = Lookups(
    timingsOf: string -> Option<ContestTimings>,
    batchesOf: string -> Option<seq<string>>,
    batchOf: string -> Option<string>)

  predicate HasSub(user: Option<User>) {
    user.Some? && Present(user.value.sub)
  }

  /** What the checks decide about a submission that raises no error. */
  datatype Admission = NotAContest | Admitted

  /**
   * The checks in their order: a user id, then a contest (none means nothing to check), then the student
   * role, then the two lookups (the contest window before the batch membership when both fail), then
   * the window and the membership themselves.
   */
  function Admit(user: Option<User>, data: Submission, time: Option<int>, lookups: Lookups): Result<Admission, Error> {
    if !HasSub(user) then Err(ApiWith(NoUserIdMessage, Unauthorized))
    else if !Present(data.contestId) then Ok(NotAContest)
    else if user.value.role != Some(Student) then Err(ApiWith(StudentsOnlyMessage, Unauthorized))
    else
      var contestId := data.contestId.value;
      var live := IsLiveContest(lookups.timingsOf(contestId), time);
      var member := IsParticipant(lookups.batchesOf(contestId), lookups.batchOf(user.value.sub.value));
      if live.Err? then Err(live.error)
      else if member.Err? then Err(member.error)
      else if !live.value then Err(ApiWith(NotLiveMessage, Unauthorized))
      else if !member.value then Err(ApiWith(NotParticipantMessage, Unauthorized))
      else Ok(Admitted)
  }

  /** A contest submission is admitted iff it comes from a student inside the window whose batch takes part. */
  lemma AdmittedIff(user: Option<User>, data: Submission, time: Option<int>, lookups: Lookups)
    ensures Admit(user, data, time, lookups) == Ok(Admitted) <==>
      HasSub(user) && Present(data.contestId) && user.value.role == Some(Student) &&
      IsLiveContest(lookups.timingsOf(data.contestId.value), time) == Ok(true) &&
      IsParticipant(lookups.batchesOf(data.contestId.value), lookups.batchOf(user.value.sub.value)) == Ok(true)
    ensures Admit(user, data, time, lookups) == Ok(NotAContest) <==> HasSub(user) && !Present(data.contestId)
  {
  }

  /** The early checks: no user id fails first, a non-contest submission is let through next, a non-student fails next. */
  lemma EarlyChecksComeFirst(user: Option<User>, data: Submission, time: Option<int>, lookups: Lookups)
    ensures !HasSub(user) ==> Admit(user, data, time, lookups) == Err(ApiWith(NoUserIdMessage, Unauthorized))
    ensures HasSub(user) && Present(data.contestId) && user.value.role != Some(Student) ==>
      Admit(user, data, time, lookups) == Err(ApiWith(StudentsOnlyMessage, Unauthorized))
  {
  }

  /** A student outside the window is refused for the window, and one inside it but in no listed batch for the membership. */
  lemma RejectionReasons(user: Option<User>, data: Submission, time: Option<int>, lookups: Lookups)
    requires HasSub(user) && Present(data.contestId) && user.value.role == Some(Student)
    requires IsLiveContest(lookups.timingsOf(data.contestId.value), time) == Ok(false)
    requires IsParticipant(lookups.batchesOf(data.contestId.value), lookups.batchOf(user.value.sub.value)).Ok?
    ensures Admit(user, data, time, lookups) == Err(ApiWith(NotLiveMessage, Unauthorized))
  {
  }

  lemma NonMemberRejected(user: Option<User>, data: Submission, time: Option<int>, lookups: Lookups)
    requires HasSub(user) && Present(data.contestId) && user.value.role == Some(Student)
    requires IsLiveContest(lookups.timingsOf(data.contestId.value), time) == Ok(true)
    requires IsParticipant(lookups.batchesOf(data.contestId.value), lookups.batchOf(user.value.sub.value)) == Ok(false)
    ensures Admit(user, data, time, lookups) == Err(ApiWith(NotParticipantMessage, Unauthorized))
  {
  }

  /**
   * The validated body has no `submissionTime`, so the instant is an invalid date: a contest submission
   * whose lookups succeed is always refused as outside the window.
   */
  lemma MissingSubmissionTimeIsNeverLive(user: Option<User>, data: Submission, lookups: Lookups)
    requires HasSub(user) && Present(data.contestId) && user.value.role == Some(Student)
    requires lookups.timingsOf(data.contestId.value).Some?
    requires IsParticipant(lookups.batchesOf(data.contestId.value), lookups.batchOf(user.value.sub.value)).Ok?
    ensures Admit(user, data, None, lookups) == Err(ApiWith(NotLiveMessage, Unauthorized))
  {
  }

  // ---------------------------------------------------------------------------
  // Driver-code wrapping
  // ---------------------------------------------------------------------------

  /** The prelude, the submitted code and the driver code, separated by blank lines; each part is recovered at its offset. */
  function WithDriverCode(prelude: string, code: string, driverCode: string): (r: string)
    ensures |r| == |prelude| + |code| + |driverCode| + 4
    ensures r[..|prelude|] == prelude
    ensures r[|prelude|..|prelude| + 2] == "\n\n"
    ensures r[|prelude| + 2..|prelude| + 2 + |code|] == code
    ensures r[|prelude| + 2 + |code|..|prelude| + 4 + |code|] == "\n\n"
    ensures r[|r| - |driverCode|..] == driverCode
  {
    var r := prelude + "\n\n" + code + "\n\n" + driverCode;
    assert r[..|prelude|] == prelude;
    assert r[|prelude|..|prelude| + 2] == "\n\n";
    assert r[|prelude| + 2..|prelude| + 2 + |code|] == code;
    assert r[|prelude| + 2 + |code|..|prelude| + 4 + |code|] == "\n\n";
    r
  }

  /** The driver-code row of a problem and language. */
  datatype DriverCodes = DriverCodes(prelude: Option<string>, driverCode: Option<string>)

  // ---------------------------------------------------------------------------
  // fetchTestcases and getOrFetchTestcases
  // ---------------------------------------------------------------------------

  /** A stored test case: its id, weight and the object keys of its input and output files. */
  datatype TestcaseRow = TestcaseRow(id: string, weight: Option<real>, input: string, output: string)

  /** One test case with its file contents; the input file is read before the output file. */
  function FetchOne(row: TestcaseRow, getFile: string -> Result<string, Error>): (r: Result<TestcaseData, Error>)
    ensures r.Ok? <==> getFile(row.input).Ok? && getFile(row.output).Ok?
    ensures getFile(row.input).Err? ==> r == Err(getFile(row.input).error)
    ensures getFile(row.input).Ok? && getFile(row.output).Err? ==> r == Err(getFile(row.output).error)
    ensures r.Ok? ==> r.value.id == row.id && r.value.weight == row.weight
    ensures r.Ok? ==> r.value.input == getFile(row.input).value && r.value.output == getFile(row.output).value
    ensures r.Ok? ==> EndsWith(row.input, r.value.inputName) && '/' !in r.value.inputName
    ensures r.Ok? ==> EndsWith(row.output, r.value.outputName) && '/' !in r.value.outputName
  {
    var input := getFile(row.input);
    var output := getFile(row.output);
    if input.Err? then Err(input.error)
    else if output.Err? then Err(output.error)
    else Ok(TestcaseData(row.id, row.weight, input.value, output.value, LastSegment(row.input), LastSegment(row.output)))
  }

  /** Every test case fetched, in order; the lowest-index failure fails the whole list. */
  function FetchAll(rows: seq<TestcaseRow>, getFile: string -> Result<string, Error>): (r: Result<seq<TestcaseData>, Error>)
    ensures r.Ok? <==> forall i :: 0 <= i < |rows| ==> FetchOne(rows[i], getFile).Ok?
    ensures r.Ok? ==> |r.value| == |rows|
    ensures r.Ok? ==> forall i :: 0 <= i < |rows| ==> r.value[i] == FetchOne(rows[i], getFile).value
    ensures r.Err? ==> exists i :: (0 <= i < |rows| && FetchOne(rows[i], getFile) == Err(r.error) &&
      forall j :: 0 <= j < i ==> FetchOne(rows[j], getFile).Ok?)
  {
    if rows == [] then Ok([])
    else
      var head := FetchOne(rows[0], getFile);
      if head.Err? then Err(head.error)
      else
        var tail := FetchAll(rows[1..], getFile);
        if tail.Err? then
          ghost var k :| 0 <= k < |rows[1..]| && FetchOne(rows[1..][k], getFile) == Err(tail.error) &&
            forall j :: 0 <= j < k ==> FetchOne(rows[1..][j], getFile).Ok?;
          assert FetchOne(rows[k + 1], getFile) == Err(tail.error);
          assert forall j :: 0 <= j < k + 1 ==> FetchOne(rows[j], getFile).Ok? by {
            forall j | 0 <= j < k + 1
              ensures FetchOne(rows[j], getFile).Ok?
            {
              if j > 0 {
                assert rows[j] == rows[1..][j - 1];
              }
            }
          }
          Err(tail.error)
        else
          assert forall i :: 1 <= i < |rows| ==> rows[i] == rows[1..][i - 1];
          Ok([head.value] + tail.value)
  }

  /** `fetchTestcases`: no rows (absent or empty) is an error; otherwise every row is fetched. */
  function FetchTestcases(rows: Option<seq<TestcaseRow>>, getFile: string -> Result<string, Error>): (r: Result<seq<TestcaseData>, Error>)
    ensures rows.None? || rows.value == [] ==> r == Err(Api(NoTestcasesMessage))
    ensures r.Ok? ==> rows.Some? && 0 < |r.value| == |rows.value|
  {
    if rows.None? || rows.value == [] then Err(Api(NoTestcasesMessage))
    else FetchAll(rows.value, getFile)
  }

  /** The test cases a read of the store at `now` yields: the cached value on a hit, a fresh fetch on a miss. */
  function CachedOrFetched(entries: map<string, Entry>, problemId: string, rows: Option<seq<TestcaseRow>>,
                           getFile: string -> Result<string, Error>, now: int): Result<StoredValue, Error>
  {
    match Read(entries, problemId, now)
    case Some(v) => Ok(v)
    case None =>
      var fetched := FetchTestcases(rows, getFile);
      if fetched.Err? then Err(fetched.error) else Ok(TestcaseBundle(fetched.value))
  }

  /** Whether the call writes the bundle: on a miss whose fetch succeeds, when the store accepts the write. */
  predicate Caches(entries: map<string, Entry>, problemId: string, rows: Option<seq<TestcaseRow>>,
                   getFile: string -> Result<string, Error>, cacheUp: bool, now: int)
  {
    Read(entries, problemId, now).None? && FetchTestcases(rows, getFile).Ok? && cacheUp
  }

  /**
   * `getOrFetchTestcases`: a hit is returned without fetching; a miss fetches, tries to cache the bundle
   * (`cacheUp` is false when the store refuses the write, which is swallowed) and returns it either way.
   */
  method GetOrFetchTestcases(store: RedisClient, problemId: string, rows: Option<seq<TestcaseRow>>,
                             getFile: string -> Result<string, Error>, cacheUp: bool, now: int)
    returns (r: Result<StoredValue, Error>)
    modifies store
    ensures r == CachedOrFetched(old(store.entries), problemId, rows, getFile, now)
    ensures Caches(old(store.entries), problemId, rows, getFile, cacheUp, now) ==>
      store.entries == old(store.entries)[problemId := Entry(r.value, now + TestcaseTtl)] &&
      store.writes == old(store.writes) + [(problemId, r.value)]
    ensures !Caches(old(store.entries), problemId, rows, getFile, cacheUp, now) ==>
      store.entries == old(store.entries) && store.writes == old(store.writes)
  {
    var cached := store.GetResult(problemId, now);
    if cached.Some? {
      return Ok(cached.value);
    }
    var data := FetchTestcases(rows, getFile);
    if data.Err? {
      return Err(data.error);
    }
    var testcases := TestcaseBundle(data.value);
    if cacheUp {
      store.SetTestcase(problemId, testcases, now);
    }
    r := Ok(testcases);
  }

  /** A bundle the call has just cached is what the next read of the problem returns until it expires. */
  lemma CachedBundleIsServedAgain(entries: map<string, Entry>, problemId: string, rows: Option<seq<TestcaseRow>>,
                                  getFile: string -> Result<string, Error>, otherRows: Option<seq<TestcaseRow>>,
                                  otherFile: string -> Result<string, Error>, now: int, later: int)
    requires Caches(entries, problemId, rows, getFile, true, now)
    requires now <= later < now + TestcaseTtl
    ensures var first := CachedOrFetched(entries, problemId, rows, getFile, now);
      CachedOrFetched(entries[problemId := Entry(first.value, now + TestcaseTtl)], problemId, otherRows, otherFile, later) == first
  {
  }

  /** A hit is served even when the key holds a run snapshot: runs and problems share the key space. */
  lemma HitIsReturnedAsIs(entries: map<string, Entry>, problemId: string, rows: Option<seq<TestcaseRow>>,
                          getFile: string -> Result<string, Error>, now: int)
    requires Read(entries, problemId, now).Some?
    ensures CachedOrFetched(entries, problemId, rows, getFile, now) == Ok(entries[problemId].value)
  {
  }

  // ---------------------------------------------------------------------------
  // createSubmission
  // ---------------------------------------------------------------------------

  /** What an admitted contest submission yields: its test cases and the submission with the wrapped code. */
  datatype Accepted = Accepted(testcases: StoredValue, submission: Submission)

  /** The last step: a failed test-case lookup fails first, then a driver-code row lacking a prelude or driver code. */
  function Finish(testcases: Result<StoredValue, Error>, driver: Option<DriverCodes>, data: Submission): Result<Option<Accepted>, Error> {
    if testcases.Err? then Err(testcases.error)
    else if driver.None? || !Present(driver.value.prelude) || !Present(driver.value.driverCode) then Err(Api(NoDriverCodeMessage))
    else Ok(Some(Accepted(testcases.value, data.(code := WithDriverCode(driver.value.prelude.value, data.code, driver.value.driverCode.value)))))
  }

  /** A submission accepted for judging runs the prelude, the student's code and the driver code, in that order. */
  lemma AcceptedCodeIsWrapped(testcases: Result<StoredValue, Error>, driver: Option<DriverCodes>, data: Submission)
    requires Finish(testcases, driver, data).Ok?
    ensures driver.Some? && Present(driver.value.prelude) && Present(driver.value.driverCode) && testcases.Ok?
    ensures Finish(testcases, driver, data).value.value.testcases == testcases.value
    ensures Finish(testcases, driver, data).value.value.submission ==
      data.(code := WithDriverCode(driver.value.prelude.value, data.code, driver.value.driverCode.value))
  {
  }

  /**
   * `createSubmission`. `time` is the instant the body's `submissionTime` denotes; the repository lookups,
   * the test-case files and the driver-code row are parameters. The test-case step runs (and may cache)
   * before the driver code is checked.
   */
  method CreateSubmission(store: RedisClient, user: Option<User>, data: Submission, time: Option<int>, lookups: Lookups,
                          rowsOf: string -> Option<seq<TestcaseRow>>, getFile: string -> Result<string, Error>,
                          driverOf: (string, string) -> Option<DriverCodes>, cacheUp: bool, now: int)
    returns (r: Result<Option<Accepted>, Error>)
    modifies store
    ensures Admit(user, data, time, lookups).Err? ==>
      r == Err(Admit(user, data, time, lookups).error) && store.entries == old(store.entries) && store.writes == old(store.writes)
    ensures Admit(user, data, time, lookups) == Ok(NotAContest) ==>
      r == Ok(None) && store.entries == old(store.entries) && store.writes == old(store.writes)
    ensures Admit(user, data, time, lookups) == Ok(Admitted) ==>
      r == Finish(CachedOrFetched(old(store.entries), data.problemId, rowsOf(data.problemId), getFile, now),
                  driverOf(data.problemId, data.languageId), data)
    ensures (Admit(user, data, time, lookups) == Ok(Admitted) &&
      Caches(old(store.entries), data.problemId, rowsOf(data.problemId), getFile, cacheUp, now)) ==>
      store.entries == old(store.entries)[data.problemId :=
        Entry(CachedOrFetched(old(store.entries), data.problemId, rowsOf(data.problemId), getFile, now).value, now + TestcaseTtl)] &&
      store.writes == old(store.writes) +
        [(data.problemId, CachedOrFetched(old(store.entries), data.problemId, rowsOf(data.problemId), getFile, now).value)]
    ensures (!(Admit(user, data, time, lookups) == Ok(Admitted) &&
      Caches(old(store.entries), data.problemId, rowsOf(data.problemId), getFile, cacheUp, now))) ==>
      store.entries == old(store.entries) && store.writes == old(store.writes)
  {
    var admission := Admit(user, data, time, lookups);
    if admission.Err? {
      return Err(admission.error);
    }
    if admission.value == NotAContest {
      return Ok(None);
    }
    var testcases := GetOrFetchTestcases(store, data.problemId, rowsOf(data.problemId), getFile, cacheUp, now);
    r := Finish(testcases, driverOf(data.problemId, data.languageId), data);
  }
}
