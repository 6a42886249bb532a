/** The problem service's checks: teacher roles, required fields, the authorisation cache, driver-code conversion and sample fetching. */
module ProblemService {
  import opened Wrappers
  import opened Errors
  import opened Js
  import opened Text

  const TeachersOnlyMessage: string := "Only teachers are allowed to perform this action"
  const NoTeacherIdMessage: string := "Teacher ID not found"
  const ProblemNotFoundMessage: string := "Problem not found"
  const CreatorOnlyMessage: string := "Unauthorized access, only problem creator can perform this action"
  const NoProblemMessage: string := "No problem found with given id"
  const NotOwnerDeleteMessage: string := "Unauthorized access, you don't have access to delete the problem."
  const RemoveFailedMessage: string := "Failed to remove the problem"
  const SelfModeratorMessage: string := "You can't add yourself as a moderator in the problem."
  const AssignFailedMessage: string := "Failed to assign moderator to the problem"

  /** How long an authorisation result may be served from the cache, in milliseconds. */
  const CacheTtl: int := 5 * 60 * 1000

  // ---------------------------------------------------------------------------
  // validateTeacherRole and validateRequired
  // ---------------------------------------------------------------------------

  /** The fields of the authenticated user the role check reads. */
  datatype AuthUser = AuthUser(id: Option<string>, role: Option<string>)

  /** The argument of `validateTeacherRole`: a bare user id, or the (possibly missing) request user. */
  datatype Caller = CallerId(userId: string) | CallerUser(user: Option<AuthUser>)

  predicate IsTeacherRole(role: Option<string>) {
    role == Some("ASSISTANT_TEACHER") || role == Some("TEACHER")
  }

  /** `validateTeacherRole`: a bare id passes as it is; a user needs a teacher role first and an id second. */
  function ValidateTeacherRole(caller: Caller): Result<string, Error> {
    match caller
    case CallerId(userId) => Ok(userId)
    case CallerUser(user) =>
      if user.None? || !IsTeacherRole(user.value.role) then Err(ApiWith(TeachersOnlyMessage, Unauthorized))
      else if !Present(user.value.id) then Err(ApiWith(NoTeacherIdMessage, Unauthorized))
      else Ok(user.value.id.value)
  }

  /** Both forms of the check: any bare id (the empty one too) passes unchanged; a user passes iff a teacher with an id. */
  lemma TeacherRoleOutcomes(caller: Caller)
    ensures caller.CallerId? ==> ValidateTeacherRole(caller) == Ok(caller.userId)
    ensures caller.CallerUser? ==>
      (ValidateTeacherRole(caller).Ok? <==> caller.user.Some? && IsTeacherRole(caller.user.value.role) && Present(caller.user.value.id))
    ensures caller.CallerUser? && ValidateTeacherRole(caller).Ok? ==>
      ValidateTeacherRole(caller).value == caller.user.value.id.value != ""
    ensures caller.CallerUser? && (caller.user.None? || !IsTeacherRole(caller.user.value.role)) ==>
      ValidateTeacherRole(caller) == Err(ApiWith(TeachersOnlyMessage, Unauthorized))
  {
  }

  /** `validateRequired`: falsy values and strings that trim to nothing are refused with "<field> is required". */
  function ValidateRequired(value: Value, fieldName: string, status: HttpStatus): Result<(), Error> {
    if !Truthy(value) || (value.Str? && Trim(value.s) == "") then Err(ApiWith(fieldName + " is required", status))
    else Ok(())
  }

  /** A value is accepted iff it is truthy and not a whitespace-only string. */
  lemma RequiredIff(value: Value, fieldName: string, status: HttpStatus)
    ensures ValidateRequired(value, fieldName, status).Ok? <==> Truthy(value) && !(value.Str? && AllWhitespace(value.s))
    ensures ValidateRequired(value, fieldName, status).Err? ==>
      ValidateRequired(value, fieldName, status).error == ApiWith(fieldName + " is required", status)
  {
    if value.Str? {
      TrimEmptyIffAllWhitespace(value.s);
    }
  }

  // ---------------------------------------------------------------------------
  // The authorisation cache
  // ---------------------------------------------------------------------------

  datatype AuthResult = AuthResult(isCreator: bool, isModerator: bool, hasAccess: bool)

  /** A cached result with the instant (in milliseconds) it was computed. */
  datatype CachedAuth = CachedAuth(result: AuthResult, timestamp: int)

  /** The part of a problem row the access checks read: its creator's id, absent when the problem has no creator. */
  datatype ProblemOwner = ProblemOwner(creatorId: Option<string>)

  predicate Consistent(a: AuthResult) {
    a.hasAccess == (a.isCreator || a.isModerator)
  }

  /** The cache key `${userId}-${problemId}`. */
  function CacheKey(userId: string, problemId: string): string {
    userId + "-" + problemId
  }

  /** Every key of a problem ends with "-" and the problem id, which is what clearing matches on. */
  lemma CacheKeyEndsWithProblem(userId: string, problemId: string)
    ensures EndsWith(CacheKey(userId, problemId), "-" + problemId)
  {
    assert CacheKey(userId, problemId)[|userId|..] == "-" + problemId;
  }

  /** A cached entry is served only while it is younger than the time-to-live. */
  predicate IsHit(entries: map<string, CachedAuth>, key: string, now: int) {
    key in entries && now - entries[key].timestamp < CacheTtl
  }

  /** The answer computed from the problem row and the moderators' user ids. */
  function Decide(userId: string, problem: Option<ProblemOwner>, moderatorIds: seq<string>): (r: Result<AuthResult, Error>)
    ensures r.Ok? ==> Consistent(r.value)
  {
    match problem
    case None => Err(ApiWith(ProblemNotFoundMessage, NotFound))
    case Some(p) =>
      var isCreator := p.creatorId == Some(userId);
      var isModerator := userId in moderatorIds;
      Ok(AuthResult(isCreator, isModerator, isCreator || isModerator))
  }

  /** `checkProblemAuthorization`'s answer: the cached result on a hit, the computed one otherwise. */
  function Authorization(entries: map<string, CachedAuth>, userId: string, problemId: string,
                         problem: Option<ProblemOwner>, moderatorIds: seq<string>, now: int): Result<AuthResult, Error>
  {
    var key := CacheKey(userId, problemId);
    if IsHit(entries, key, now) then Ok(entries[key].result) else Decide(userId, problem, moderatorIds)
  }

  /** The cache after the check: a hit or a missing problem leaves it alone; a computed result replaces the key's entry. */
  function AfterAuthorization(entries: map<string, CachedAuth>, userId: string, problemId: string,
                              problem: Option<ProblemOwner>, moderatorIds: seq<string>, now: int): map<string, CachedAuth>
  {
    var key := CacheKey(userId, problemId);
    if IsHit(entries, key, now) then entries
    else
      var decided := Decide(userId, problem, moderatorIds);
      if decided.Err? then entries else entries[key := CachedAuth(decided.value, now)]
  }

  /** Access is creator-or-moderator on a miss; a missing problem is reported only on a miss. */
  lemma AuthorizationOnMiss(entries: map<string, CachedAuth>, userId: string, problemId: string,
                            problem: Option<ProblemOwner>, moderatorIds: seq<string>, now: int)
    requires !IsHit(entries, CacheKey(userId, problemId), now)
    ensures problem.None? ==> Authorization(entries, userId, problemId, problem, moderatorIds, now) == Err(ApiWith(ProblemNotFoundMessage, NotFound))
    ensures problem.Some? ==>
      var a := Authorization(entries, userId, problemId, problem, moderatorIds, now).value;
      a.isCreator == (problem.value.creatorId == Some(userId)) &&
      a.isModerator == (exists i :: 0 <= i < |moderatorIds| && moderatorIds[i] == userId) &&
      a.hasAccess == (a.isCreator || a.isModerator)
    ensures problem.Some? ==>
      AfterAuthorization(entries, userId, problemId, problem, moderatorIds, now) ==
      entries[CacheKey(userId, problemId) := CachedAuth(Authorization(entries, userId, problemId, problem, moderatorIds, now).value, now)]
  {
  }

  /** A hit needs no lookup: whatever the repositories would say, the cached result is returned and nothing changes. */
  lemma HitIgnoresLookups(entries: map<string, CachedAuth>, userId: string, problemId: string,
                          problem: Option<ProblemOwner>, moderatorIds: seq<string>, now: int)
    requires IsHit(entries, CacheKey(userId, problemId), now)
    ensures Authorization(entries, userId, problemId, problem, moderatorIds, now) == Ok(entries[CacheKey(userId, problemId)].result)
    ensures Authorization(entries, userId, problemId, problem, moderatorIds, now) == Authorization(entries, userId, problemId, None, [], now)
    ensures AfterAuthorization(entries, userId, problemId, problem, moderatorIds, now) == entries
  {
  }

  /** A result just computed is served again for the rest of the time-to-live, whatever the repositories say by then. */
  lemma StoredResultIsServed(entries: map<string, CachedAuth>, userId: string, problemId: string,
                             problem: Option<ProblemOwner>, moderatorIds: seq<string>, now: int,
                             laterProblem: Option<ProblemOwner>, laterModerators: seq<string>, later: int)
    requires !IsHit(entries, CacheKey(userId, problemId), now)
    requires Authorization(entries, userId, problemId, problem, moderatorIds, now).Ok?
    requires now <= later < now + CacheTtl
    ensures Authorization(AfterAuthorization(entries, userId, problemId, problem, moderatorIds, now),
                    userId, problemId, laterProblem, laterModerators, later) ==
      Authorization(entries, userId, problemId, problem, moderatorIds, now)
  {
  }

  /** The entries `clearAuthCache(problemId)` keeps: those whose key does not end with "-" and the problem id. */
  function WithoutProblem(entries: map<string, CachedAuth>, problemId: string): map<string, CachedAuth> {
    map k | k in entries && !EndsWith(k, "-" + problemId) :: entries[k]
  }

  /** Clearing removes every user's entry for the problem and keeps every other entry as it was. */
  lemma ClearIsExact(entries: map<string, CachedAuth>, problemId: string, userId: string, k: string)
    ensures CacheKey(userId, problemId) !in WithoutProblem(entries, problemId)
    ensures k in entries && !EndsWith(k, "-" + problemId) ==> k in WithoutProblem(entries, problemId) && WithoutProblem(entries, problemId)[k] == entries[k]
    ensures k in WithoutProblem(entries, problemId) ==> k in entries
  {
    CacheKeyEndsWithProblem(userId, problemId);
  }

  /** Keys are not separated unambiguously: clearing problem `p` also drops the entries of a problem whose id ends with "-p". */
  lemma ClearReachesSuffixProblems(entries: map<string, CachedAuth>, userId: string, problemId: string, prefix: string)
    ensures CacheKey(userId, prefix + "-" + problemId) !in WithoutProblem(entries, problemId)
  {
    assert CacheKey(userId, prefix + "-" + problemId) == (userId + "-" + prefix) + ("-" + problemId);
    CacheKeyEndsWithProblem(userId + "-" + prefix, problemId);
  }

  /** The entries `cleanupCache` keeps at `now`: those whose age does not exceed the time-to-live. */
  function Unexpired(entries: map<string, CachedAuth>, now: int): map<string, CachedAuth> {
    map k | k in entries && now - entries[k].timestamp <= CacheTtl :: entries[k]
  }

  /** Cleanup never removes an entry that would be a hit, and an entry aged exactly the time-to-live survives it but is no hit. */
  lemma CleanupKeepsHits(entries: map<string, CachedAuth>, key: string, now: int)
    ensures IsHit(entries, key, now) ==> IsHit(Unexpired(entries, now), key, now) && Unexpired(entries, now)[key] == entries[key]
    ensures key in entries && now - entries[key].timestamp == CacheTtl ==>
      key in Unexpired(entries, now) && !IsHit(Unexpired(entries, now), key, now)
    ensures key in entries && now - entries[key].timestamp > CacheTtl ==> key !in Unexpired(entries, now)
  {
  }

  /** The process-wide authorisation cache. */
  class AuthCache {
    var entries: map<string, CachedAuth>

    /** Every cached result grants access exactly to its creator or a moderator. */
    predicate Valid()
      reads this
    {
      forall k :: k in entries ==> Consistent(entries[k].result)
    }

    constructor ()
      ensures Valid() && entries == map[]
    {
      entries := map[];
    }

    /** `checkProblemAuthorization`, with the two repository reads as parameters (read only on a miss). */
    method CheckProblemAuthorization(userId: string, problemId: string, problem: Option<ProblemOwner>,
                                     moderatorIds: seq<string>, now: int) returns (r: Result<AuthResult, Error>)
      requires Valid()
      modifies this
      ensures Valid()
      ensures r == Authorization(old(entries), userId, problemId, problem, moderatorIds, now)
      ensures entries == AfterAuthorization(old(entries), userId, problemId, problem, moderatorIds, now)
      ensures r.Ok? ==> Consistent(r.value)
    {
      var key := CacheKey(userId, problemId);
      if key in entries && now - entries[key].timestamp < CacheTtl {
        return Ok(entries[key].result);
      }
      r := Decide(userId, problem, moderatorIds);
      if r.Err? {
        return;
      }
      entries := entries[key := CachedAuth(r.value, now)];
    }

    /** `clearAuthCache`: walks the keys and deletes each one ending with "-" and the problem id. */
    method ClearAuthCache(problemId: string)
      requires Valid()
      modifies this
      ensures Valid()
      ensures entries == WithoutProblem(old(entries), problemId)
    {
      var suffix := "-" + problemId;
      var pending := entries.Keys;
      ghost var start := entries;
      while pending != {}
        invariant pending <= start.Keys
        invariant forall k :: k in entries <==> k in start && (k in pending || !EndsWith(k, suffix))
        invariant forall k :: k in entries ==> entries[k] == start[k]
        invariant Valid()
        decreases |pending|
      {
        var k :| k in pending;
        if EndsWith(k, suffix) {
          entries := entries - {k};
        }
        pending := pending - {k};
      }
      assert entries.Keys == WithoutProblem(start, problemId).Keys;
    }

    /** `cleanupCache`: walks the entries and deletes each one older than the time-to-live. */
    method CleanupCache(now: int)
      requires Valid()
      modifies this
      ensures Valid()
      ensures entries == Unexpired(old(entries), now)
    {
      var pending := entries.Keys;
      ghost var start := entries;
      while pending != {}
        invariant pending <= start.Keys
        invariant forall k :: k in entries <==> k in start && (k in pending || now - start[k].timestamp <= CacheTtl)
        invariant forall k :: k in entries ==> entries[k] == start[k]
        invariant Valid()
        decreases |pending|
      {
        var k :| k in pending;
        if now - entries[k].timestamp > CacheTtl {
          entries := entries - {k};
        }
        pending := pending - {k};
      }
      assert entries.Keys == Unexpired(start, now).Keys;
    }

    /**
     * The guards of `addModeratorsToProblem`: a problem id, creator access (through the cache), not the
     * caller among the new moderators, a successful insert; only a successful add clears the problem's entries.
     */
    method AddModeratorsToProblem(teacherId: Option<string>, problemId: string, newModeratorIds: seq<string>,
                                  problem: Option<ProblemOwner>, moderatorIds: seq<string>, inserted: bool, now: int)
      returns (r: Result<(), Error>)
      requires Valid()
      modifies this
      ensures Valid()
      ensures r == AddModeratorsOutcome(old(entries), teacherId, problemId, newModeratorIds, problem, moderatorIds, inserted, now)
      ensures ValidateRequired(Str(problemId), "Problem ID", BadRequest).Err? ==> entries == old(entries)
      ensures ValidateRequired(Str(problemId), "Problem ID", BadRequest).Ok? && r.Err? ==>
        entries == AfterAuthorization(old(entries), OrEmpty(teacherId), problemId, problem, moderatorIds, now)
      ensures r.Ok? ==>
        entries == WithoutProblem(AfterAuthorization(old(entries), OrEmpty(teacherId), problemId, problem, moderatorIds, now), problemId)
    {
      var teacher := ValidateTeacherRole(CallerId(OrEmpty(teacherId))).value;
      var required := ValidateRequired(Str(problemId), "Problem ID", BadRequest);
      if required.Err? {
        return Err(required.error);
      }
      var auth := CheckProblemAuthorization(teacher, problemId, problem, moderatorIds, now);
      if auth.Err? {
        return Err(auth.error);
      }
      if !auth.value.isCreator {
        return Err(ApiWith(CreatorOnlyMessage, Unauthorized));
      }
      if teacher in newModeratorIds {
        return Err(ApiWith(SelfModeratorMessage, BadRequest));
      }
      if !inserted {
        return Err(ApiWith(AssignFailedMessage, InternalServerError));
      }
      ClearAuthCache(problemId);
      r := Ok(());
    }

    /**
     * The guards of `removeProblem`: a problem id, an existing problem, the caller as its creator, a
     * successful soft delete; only a successful removal clears the problem's entries.
     */
    method RemoveProblem(teacherId: Option<string>, problemId: string, problem: Option<ProblemOwner>, removed: bool)
      returns (r: Result<(), Error>)
      requires Valid()
      modifies this
      ensures Valid()
      ensures r == RemoveProblemOutcome(teacherId, problemId, problem, removed)
      ensures r.Ok? ==> entries == WithoutProblem(old(entries), problemId)
      ensures r.Err? ==> entries == old(entries)
    {
      var teacher := ValidateTeacherRole(CallerId(OrEmpty(teacherId))).value;
      var required := ValidateRequired(Str(problemId), "Problem ID", BadRequest);
      if required.Err? {
        return Err(required.error);
      }
      if problem.None? {
        return Err(ApiWith(NoProblemMessage, NotFound));
      }
      if problem.value.creatorId != Some(teacher) {
        return Err(ApiWith(NotOwnerDeleteMessage, Unauthorized));
      }
      if !removed {
        return Err(ApiWith(RemoveFailedMessage, InternalServerError));
      }
      ClearAuthCache(problemId);
      r := Ok(());
    }
  }

  /** `teacherId || ''`. */
  function OrEmpty(s: Option<string>): string {
    if s.Some? then s.value else ""
  }

  /** What `addModeratorsToProblem` decides, check by check. */
  function AddModeratorsOutcome(entries: map<string, CachedAuth>, teacherId: Option<string>, problemId: string,
                                newModeratorIds: seq<string>, problem: Option<ProblemOwner>, moderatorIds: seq<string>,
                                inserted: bool, now: int): Result<(), Error>
  {
    var teacher := OrEmpty(teacherId);
    var required := ValidateRequired(Str(problemId), "Problem ID", BadRequest);
    var auth := Authorization(entries, teacher, problemId, problem, moderatorIds, now);
    if required.Err? then Err(required.error)
    else if auth.Err? then Err(auth.error)
    else if !auth.value.isCreator then Err(ApiWith(CreatorOnlyMessage, Unauthorized))
    else if teacher in newModeratorIds then Err(ApiWith(SelfModeratorMessage, BadRequest))
    else if !inserted then Err(ApiWith(AssignFailedMessage, InternalServerError))
    else Ok(())
  }

  /** A caller who names themself among the new moderators is refused, whatever else holds. */
  lemma SelfModerationRefused(entries: map<string, CachedAuth>, teacherId: Option<string>, problemId: string,
                              newModeratorIds: seq<string>, problem: Option<ProblemOwner>, moderatorIds: seq<string>,
                              inserted: bool, now: int)
    requires OrEmpty(teacherId) in newModeratorIds
    ensures AddModeratorsOutcome(entries, teacherId, problemId, newModeratorIds, problem, moderatorIds, inserted, now).Err?
  {
  }

  /** A successful add came from the problem's creator on a fresh check, for new moderators other than the caller. */
  lemma AddedOnlyByCreator(entries: map<string, CachedAuth>, teacherId: Option<string>, problemId: string,
                           newModeratorIds: seq<string>, problem: Option<ProblemOwner>, moderatorIds: seq<string>,
                           inserted: bool, now: int)
    requires AddModeratorsOutcome(entries, teacherId, problemId, newModeratorIds, problem, moderatorIds, inserted, now).Ok?
    requires !IsHit(entries, CacheKey(OrEmpty(teacherId), problemId), now)
    ensures problem.Some? && problem.value.creatorId == Some(OrEmpty(teacherId))
    ensures OrEmpty(teacherId) !in newModeratorIds && inserted && !AllWhitespace(problemId)
  {
    RequiredIff(Str(problemId), "Problem ID", BadRequest);
  }

  /** What `removeProblem` decides, check by check. */
  function RemoveProblemOutcome(teacherId: Option<string>, problemId: string, problem: Option<ProblemOwner>, removed: bool): Result<(), Error> {
    var required := ValidateRequired(Str(problemId), "Problem ID", BadRequest);
    if required.Err? then Err(required.error)
    else if problem.None? then Err(ApiWith(NoProblemMessage, NotFound))
    else if problem.value.creatorId != Some(OrEmpty(teacherId)) then Err(ApiWith(NotOwnerDeleteMessage, Unauthorized))
    else if !removed then Err(ApiWith(RemoveFailedMessage, InternalServerError))
    else Ok(())
  }

  /** Only the creator removes a problem, and a problem without a creator cannot be removed at all. */
  lemma RemovedOnlyByCreator(teacherId: Option<string>, problemId: string, problem: Option<ProblemOwner>, removed: bool)
    ensures RemoveProblemOutcome(teacherId, problemId, problem, removed).Ok? <==>
      !AllWhitespace(problemId) && problem.Some? && problem.value.creatorId == Some(OrEmpty(teacherId)) && removed
  {
    RequiredIff(Str(problemId), "Problem ID", BadRequest);
  }

  // ---------------------------------------------------------------------------
  // convertDriverCodeData
  // ---------------------------------------------------------------------------

  /** A driver-code row: the three code fields and every other field, which conversion copies. */
  datatype DriverCodeRow = DriverCodeRow(
    prelude: Option<string>,
    boilerplate: Option<string>,
    driverCode: Option<string>,
    others: seq<(string, Value)>)

  /** One field: converted when truthy, kept as it was otherwise. */
  function ConvertField(field: Option<string>, converter: string -> string): Option<string> {
    if Present(field) then Some(converter(field.value)) else field
  }

  /**
   * `convertDriverCodeData`: `encode` is the base64 encoding and `decode` its decoding (the encoding
   * itself is a parameter); `toBase64` selects which one is applied.
   */
  function ConvertDriverCodeData(data: DriverCodeRow, toBase64: bool, encode: string -> string, decode: string -> string): DriverCodeRow {
    var converter := if toBase64 then encode else decode;
    data.(prelude := ConvertField(data.prelude, converter),
          boilerplate := ConvertField(data.boilerplate, converter),
          driverCode := ConvertField(data.driverCode, converter))
  }

  /** Only truthy code fields are converted; falsy ones and every other field are copied. */
  lemma ConvertTouchesOnlyTruthyFields(data: DriverCodeRow, toBase64: bool, encode: string -> string, decode: string -> string)
    ensures var r := ConvertDriverCodeData(data, toBase64, encode, decode);
      r.others == data.others &&
      (Present(data.prelude) ==> r.prelude == Some(if toBase64 then encode(data.prelude.value) else decode(data.prelude.value))) &&
      (!Present(data.prelude) ==> r.prelude == data.prelude) &&
      (Present(data.boilerplate) ==> r.boilerplate == Some(if toBase64 then encode(data.boilerplate.value) else decode(data.boilerplate.value))) &&
      (!Present(data.boilerplate) ==> r.boilerplate == data.boilerplate) &&
      (Present(data.driverCode) ==> r.driverCode == Some(if toBase64 then encode(data.driverCode.value) else decode(data.driverCode.value))) &&
      (!Present(data.driverCode) ==> r.driverCode == data.driverCode)
  {
  }

  /** Storing (encoding) and then reading back (decoding) gives the row again, when decoding inverts a non-empty-preserving encoding. */
  lemma ConvertRoundTrip(data: DriverCodeRow, encode: string -> string, decode: string -> string)
    requires forall s :: decode(encode(s)) == s
    requires forall s :: s != "" ==> encode(s) != ""
    ensures ConvertDriverCodeData(ConvertDriverCodeData(data, true, encode, decode), false, encode, decode) == data
  {
  }

  // ---------------------------------------------------------------------------
  // processTestcases
  // ---------------------------------------------------------------------------

  /** A sample test case row; `input` and `output` hold object keys before processing and contents after. */
  datatype SampleTestcase = SampleTestcase(id: string, isSample: bool, input: string, output: string, point: int, explanation: string)

  /** One test case with its file contents; the input is read before the output. */
  function WithContents(t: SampleTestcase, getFile: string -> Result<string, Error>): Result<SampleTestcase, Error> {
    var input := getFile(t.input);
    var output := getFile(t.output);
    if input.Err? then Err(input.error)
    else if output.Err? then Err(output.error)
    else Ok(t.(input := input.value, output := output.value))
  }

  /** Every test case with its contents, in order; the lowest-index failure fails the whole call. */
  function ProcessAll(ts: seq<SampleTestcase>, getFile: string -> Result<string, Error>): Result<seq<SampleTestcase>, Error> {
    if ts == [] then Ok([])
    else
      var head := WithContents(ts[0], getFile);
      var tail := ProcessAll(ts[1..], getFile);
      if head.Err? then Err(head.error)
      else if tail.Err? then Err(tail.error)
      else Ok([head.value] + tail.value)
  }

  /** Processing keeps the length and the order and replaces only `input` and `output`. */
  lemma {:induction false} ProcessAllKeepsShape(ts: seq<SampleTestcase>, getFile: string -> Result<string, Error>)
    ensures ProcessAll(ts, getFile).Ok? <==> forall i :: 0 <= i < |ts| ==> WithContents(ts[i], getFile).Ok?
    ensures ProcessAll(ts, getFile).Ok? ==>
      var r := ProcessAll(ts, getFile).value;
      |r| == |ts| && forall i :: 0 <= i < |ts| ==>
        r[i] == ts[i].(input := getFile(ts[i].input).value, output := getFile(ts[i].output).value)
  {
    if ts != [] {
      ProcessAllKeepsShape(ts[1..], getFile);
      assert forall i :: 1 <= i < |ts| ==> ts[i] == ts[1..][i - 1];
    }
  }

  /** Processing two parts one after the other is processing their concatenation. */
  lemma {:induction false} ProcessAllAppend(a: seq<SampleTestcase>, b: seq<SampleTestcase>, getFile: string -> Result<string, Error>)
    ensures ProcessAll(a + b, getFile) ==
      if ProcessAll(a, getFile).Err? then ProcessAll(a, getFile)
      else if ProcessAll(b, getFile).Err? then ProcessAll(b, getFile)
      else Ok(ProcessAll(a, getFile).value + ProcessAll(b, getFile).value)
  {
    if a == [] {
      assert a + b == b;
      if ProcessAll(b, getFile).Ok? {
        assert [] + ProcessAll(b, getFile).value == ProcessAll(b, getFile).value;
      }
    } else {
      assert (a + b)[0] == a[0];
      assert (a + b)[1..] == a[1..] + b;
      ProcessAllAppend(a[1..], b, getFile);
      var head := WithContents(a[0], getFile);
      assert ProcessAll(a, getFile) ==
        if head.Err? then Err(head.error)
        else if ProcessAll(a[1..], getFile).Err? then Err(ProcessAll(a[1..], getFile).error)
        else Ok([head.value] + ProcessAll(a[1..], getFile).value);
      assert ProcessAll(a + b, getFile) ==
        if head.Err? then Err(head.error)
        else if ProcessAll(a[1..] + b, getFile).Err? then Err(ProcessAll(a[1..] + b, getFile).error)
        else Ok([head.value] + ProcessAll(a[1..] + b, getFile).value);
      if head.Ok? && ProcessAll(a[1..], getFile).Ok? && ProcessAll(b, getFile).Ok? {
        assert [head.value] + (ProcessAll(a[1..], getFile).value + ProcessAll(b, getFile).value) ==
          ([head.value] + ProcessAll(a[1..], getFile).value) + ProcessAll(b, getFile).value;
      }
    }
  }

  /** One batch of the loop: the prefix so far plus the batch is the longer prefix, and a failing batch fails the whole list. */
  lemma BatchStep(ts: seq<SampleTestcase>, i: nat, end: nat, getFile: string -> Result<string, Error>)
    requires i <= end <= |ts|
    requires ProcessAll(ts[..i], getFile).Ok?
    ensures ProcessAll(ts[i..end], getFile).Err? ==> ProcessAll(ts, getFile) == ProcessAll(ts[i..end], getFile)
    ensures ProcessAll(ts[i..end], getFile).Ok? ==>
      ProcessAll(ts[..end], getFile) == Ok(ProcessAll(ts[..i], getFile).value + ProcessAll(ts[i..end], getFile).value)
  {
    ProcessAllAppend(ts[..i], ts[i..end], getFile);
    assert ts[..i] + ts[i..end] == ts[..end];
    ProcessAllAppend(ts[..end], ts[end..], getFile);
    assert ts[..end] + ts[end..] == ts;
  }

  /** `processTestcases`: the batches of `batchSize` are fetched one after another and their results appended. */
  method ProcessTestcases(testcases: seq<SampleTestcase>, batchSize: int, getFile: string -> Result<string, Error>)
    returns (r: Result<seq<SampleTestcase>, Error>)
    requires 0 < batchSize
    ensures r == ProcessAll(testcases, getFile)
  {
    var results: seq<SampleTestcase> := [];
    var i := 0;
    while i < |testcases|
      invariant 0 <= i <= |testcases|
      invariant ProcessAll(testcases[..i], getFile) == Ok(results)
    {
      var end := if i + batchSize < |testcases| then i + batchSize else |testcases|;
      var batch := ProcessAll(testcases[i..end], getFile);
      BatchStep(testcases, i, end, getFile);
      if batch.Err? {
        return Err(batch.error);
      }
      results := results + batch.value;
      i := end;
    }
    assert testcases[..i] == testcases;
    r := Ok(results);
  }
}
