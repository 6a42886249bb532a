/**
 * The contest service: the argument guards, the update data `updateContest` builds
 * for the repository, the formatting of contest rows and the problem listing.
 */
module ContestService {
  import opened Wrappers
  import opened Errors
  import opened Js
  import opened Helper

  // ---------------------------------------------------------------------
  // Argument guards
  // ---------------------------------------------------------------------

  /** The service operations that refuse an empty contest id (or, for `GetContests`, user id). */
  datatype Operation =
    | DeleteModerator | DeleteProblemFromContest | AddModerator | GetAllModerators
    | UpdateContest | GetContestById | GetAllProblems | GetContests

  function GuardMessage(op: Operation): string {
    match op
    case DeleteModerator => "Contest id not found."
    case DeleteProblemFromContest => "No contest id found"
    case AddModerator => "Contest id not found."
    case GetAllModerators => "No contest id found"
    case UpdateContest => "No contest id found."
    case GetContestById => "No contest id found"
    case GetAllProblems => "No contest id found to fetch problem."
    case GetContests => "No teacher id found for getting all the contest"
  }

  function GuardStatus(op: Operation): HttpStatus {
    match op
    case DeleteModerator => BadRequest
    case AddModerator => BadRequest
    case GetContestById => BadRequest
    case GetAllProblems => BadGateway
    case DeleteProblemFromContest => InternalServerError
    case GetAllModerators => InternalServerError
    case UpdateContest => InternalServerError
    case GetContests => InternalServerError
  }

  /** `if (!contestId) throw new ApiError(...)`: only the empty string is falsy. */
  function Guard(op: Operation, id: string): (r: Result<(), Error>)
    ensures r.Err? <==> id == ""
    ensures r.Err? ==> r.error == ApiWith(GuardMessage(op), GuardStatus(op))
  {
    if id == "" then Err(ApiWith(GuardMessage(op), GuardStatus(op))) else Ok(())
  }

  /** The moderator operations answer a missing id as the caller's fault; the others as the server's or the gateway's. */
  lemma GuardStatusesByOperation(op: Operation)
    ensures GuardStatus(op) == BadRequest <==> op in {DeleteModerator, AddModerator, GetContestById}
    ensures GuardStatus(op) == BadGateway <==> op == GetAllProblems
  {
  }

  // ---------------------------------------------------------------------
  // The update data of updateContest
  // ---------------------------------------------------------------------

  /** A validated `ZContest` body; `isOpen` has its default already. */
  datatype ContestUpdate = ContestUpdate(
    title: Option<string>,
    description: Option<string>,
    startTime: Option<string>,
    batches: Option<seq<string>>,
    isOpen: bool,
    moderators: Option<seq<string>>,
    topics: Option<seq<string>>,
    endTime: Option<string>,
    languages: Option<seq<string>>,
    subjectId: Option<string>)

  /** The fields of the contest update Prisma receives, by the property names `updateContest` writes. */
  datatype Field =
    | Title | Description | StartTime | IsOpen | EndTime | SubjectId
    | AllowedLanguages | ContestModerators | BatchContests | Tags
  {
    /** The property name on the update object. */
    function Name(): string {
      match this
      case Title => "title"
      case Description => "description"
      case StartTime => "startTime"
      case IsOpen => "isOpen"
      case EndTime => "endTime"
      case SubjectId => "subjectId"
      case AllowedLanguages => "allowedLanguages"
      case ContestModerators => "contestModerators"
      case BatchContests => "batchContests"
      case Tags => "tags"
    }

    /** The four keys `updateContest` sets itself, each replacing a relation. */
    predicate IsRelation() {
      AllowedLanguages? || ContestModerators? || BatchContests? || Tags?
    }

    /** The position of a relation key among the four assignments, in source order. */
    function Step(): nat {
      match this
      case AllowedLanguages => 0
      case ContestModerators => 1
      case BatchContests => 2
      case Tags => 3
      case _ => 4
    }
  }

  /** An optional string field as a property value: absent reads as undefined. */
  function OptionalText(s: Option<string>): (v: Value)
    ensures v == Undefined <==> s.None?
  {
    if s.Some? then Str(s.value) else Undefined
  }

  /** `rest` of the destructuring: the scalar fields in schema order, absent ones undefined. */
  function ScalarFields(info: ContestUpdate): (fields: seq<(Field, Value)>)
    ensures UniqueKeys(fields)
    ensures forall i :: 0 <= i < |fields| ==> !fields[i].0.IsRelation()
  {
    [(Title, OptionalText(info.title)),
     (Description, OptionalText(info.description)),
     (StartTime, OptionalText(info.startTime)),
     (IsOpen, Bool(info.isOpen)),
     (EndTime, OptionalText(info.endTime)),
     (SubjectId, OptionalText(info.subjectId))]
  }

  /** `ids.map(id => ({ [idKey]: id }))`. */
  function CreateEntries(ids: seq<string>, idKey: string): (entries: seq<Value>)
    ensures |entries| == |ids|
  {
    seq(|ids|, i requires 0 <= i < |ids| => Obj([(idKey, Str(ids[i]))]))
  }

  /** Each created entry names exactly the id at its own position. */
  lemma CreateEntriesReadBack(ids: seq<string>, idKey: string, i: int)
    requires 0 <= i < |ids|
    ensures CreateEntries(ids, idKey)[i].Obj?
    ensures Get(CreateEntries(ids, idKey)[i].fields, idKey) == Str(ids[i])
    ensures Keys(CreateEntries(ids, idKey)[i].fields) == [idKey]
  {
  }

  /** The nested write that replaces a whole relation: delete every row, then create one per id. */
  function Replacement(ids: seq<string>, idKey: string): Value {
    Obj([("deleteMany", Obj([])), ("create", Arr(CreateEntries(ids, idKey)))])
  }

  /** What a relation key holds: the replacement when the list was given, nothing otherwise. */
  function RelationValue(ids: Option<seq<string>>, idKey: string): Value {
    if ids.Some? then Replacement(ids.value, idKey) else Undefined
  }

  /** The reference reading of the update data: what each field should hold for `info`. */
  function ExpectedValue(info: ContestUpdate, k: Field): Value {
    match k
    case Title => OptionalText(info.title)
    case Description => OptionalText(info.description)
    case StartTime => OptionalText(info.startTime)
    case IsOpen => Bool(info.isOpen)
    case EndTime => OptionalText(info.endTime)
    case SubjectId => OptionalText(info.subjectId)
    case AllowedLanguages => RelationValue(info.languages, "languageId")
    case ContestModerators => RelationValue(info.moderators, "moderatorId")
    case BatchContests => RelationValue(info.batches, "batchId")
    case Tags => RelationValue(info.topics, "tagId")
  }

  /** An object none of whose entries holds undefined. */
  predicate AllDefined<K>(data: seq<(K, Value)>) {
    forall i :: 0 <= i < |data| ==> data[i].1 != Undefined
  }

  /** The meaning of the update data built from `info`: every field reads as `ExpectedValue` says. */
  ghost predicate DescribesUpdate(data: seq<(Field, Value)>, info: ContestUpdate) {
    AllDefined(data) && forall k :: Get(data, k) == ExpectedValue(info, k)
  }

  /** What field `k` should hold once the relation steps before `done` have run. */
  function Wanted(info: ContestUpdate, done: nat, k: Field): Value {
    if k.IsRelation() && done <= k.Step() then Undefined else ExpectedValue(info, k)
  }

  /** Part way through: the relation fields from step `done` on are still unset. */
  ghost predicate DescribesUpdateSoFar(data: seq<(Field, Value)>, info: ContestUpdate, done: nat) {
    AllDefined(data) && forall k :: Get(data, k) == Wanted(info, done, k)
  }

  /** In an object without undefined entries a key is present exactly when reading it gives something other than undefined. */
  lemma {:induction false} PresentIffDefined<K>(data: seq<(K, Value)>, k: K)
    requires forall i :: 0 <= i < |data| ==> data[i].1 != Undefined
    ensures k in Keys(data) <==> Get(data, k) != Undefined
  {
    if data != [] {
      var init := data[..|data| - 1];
      PresentIffDefined(init, k);
      assert Keys(data) == Keys(init) + [data[|data| - 1].0];
    }
  }

  /** `o[key] = v` on an existing key: the binding changes where it stands. */
  function Overwrite<K(==)>(fields: seq<(K, Value)>, key: K, v: Value): (r: seq<(K, Value)>)
    ensures |r| == |fields|
  {
    seq(|fields|, i requires 0 <= i < |fields| => if fields[i].0 == key then (key, v) else fields[i])
  }

  /** Overwriting changes the read of `key` and no other. */
  lemma {:induction false} OverwriteReads<K>(fields: seq<(K, Value)>, key: K, v: Value, k: K)
    requires key in Keys(fields)
    ensures Get(Overwrite(fields, key, v), k) == if k == key then v else Get(fields, k)
  {
    var r := Overwrite(fields, key, v);
    var n := |fields|;
    var init := fields[..n - 1];
    assert r[..n - 1] == Overwrite(init, key, v);
    if fields[n - 1].0 == key {
      assert r[n - 1] == (key, v);
      if k != key {
        OverwriteKeepsOthers(init, key, v, k);
      }
    } else {
      assert r[n - 1] == fields[n - 1];
      assert key in Keys(init) by {
        var i :| 0 <= i < n && Keys(fields)[i] == key;
        assert i < n - 1;
        assert Keys(init)[i] == key;
      }
      if fields[n - 1].0 != k {
        OverwriteReads(init, key, v, k);
      }
    }
  }

  /** Overwriting `key` does not change the read of another key, whether or not `key` is present. */
  lemma {:induction false} OverwriteKeepsOthers<K>(fields: seq<(K, Value)>, key: K, v: Value, k: K)
    requires k != key
    ensures Get(Overwrite(fields, key, v), k) == Get(fields, k)
  {
    if fields != [] {
      var r := Overwrite(fields, key, v);
      var n := |fields|;
      var init := fields[..n - 1];
      assert r[..n - 1] == Overwrite(init, key, v);
      OverwriteKeepsOthers(init, key, v, k);
    }
  }

  /** The property assignment `o[key] = v`: an existing key is overwritten in place, a new one is appended. */
  function Assign<K(==,!new)>(fields: seq<(K, Value)>, key: K, v: Value): (r: seq<(K, Value)>)
    ensures Get(r, key) == v
    ensures forall k :: k != key ==> Get(r, k) == Get(fields, k)
    ensures AllDefined(fields) && v != Undefined ==> AllDefined(r)
  {
    if key in Keys(fields) then
      var r := Overwrite(fields, key, v);
      assert forall k :: Get(r, k) == if k == key then v else Get(fields, k) by {
        forall k ensures Get(r, k) == if k == key then v else Get(fields, k) {
          OverwriteReads(fields, key, v, k);
        }
      }
      assert Keys(r) == Keys(fields);
      r
    else
      var r := fields + [(key, v)];
      assert r[..|fields|] == fields;
      assert forall i :: 0 <= i < |fields| ==> fields[i].0 == Keys(fields)[i] != key;
      r
  }

  /** An assignment never makes a key appear twice. */
  lemma AssignKeepsUniqueKeys<K(!new)>(fields: seq<(K, Value)>, key: K, v: Value)
    requires UniqueKeys(fields)
    ensures UniqueKeys(Assign(fields, key, v))
  {
    var r := Assign(fields, key, v);
    if key in Keys(fields) {
      assert forall i :: 0 <= i < |r| ==> r[i].0 == fields[i].0;
    } else {
      assert forall i :: 0 <= i < |fields| ==> fields[i].0 == Keys(fields)[i] != key;
    }
  }

  /** Reading `rest`: each scalar field holds its value, and no relation field is there. */
  lemma ScalarFieldsRead(info: ContestUpdate, k: Field)
    ensures Get(ScalarFields(info), k) == if k.IsRelation() then Undefined else ExpectedValue(info, k)
  {
    var rest := ScalarFields(info);
    var p1 := [rest[0]];
    var p2 := p1 + [rest[1]];
    var p3 := p2 + [rest[2]];
    var p4 := p3 + [rest[3]];
    var p5 := p4 + [rest[4]];
    assert rest == p5 + [rest[5]];
    assert p1 == [] + [rest[0]];
    GetAppend([], rest[0], k);
    GetAppend(p1, rest[1], k);
    GetAppend(p2, rest[2], k);
    GetAppend(p3, rest[3], k);
    GetAppend(p4, rest[4], k);
    GetAppend(p5, rest[5], k);
  }

  /** The cleaned scalars are where the building starts: no relation field is set yet. */
  lemma StartOfUpdate(info: ContestUpdate)
    ensures DescribesUpdateSoFar(CleanObject(ScalarFields(info)), info, 0)
  {
    var rest := ScalarFields(info);
    var data := CleanObject(rest);
    CleanObjectKeepsUniqueKeys(rest);
    CleanObjectKeys(rest, Title);
    forall k
      ensures Get(data, k) == Wanted(info, 0, k)
    {
      CleanObjectReadsSame(rest, k);
      ScalarFieldsRead(info, k);
    }
  }

  /** Once all four relation fields are done, the data reads as the reference says. */
  lemma EndOfUpdate(data: seq<(Field, Value)>, info: ContestUpdate)
    requires DescribesUpdateSoFar(data, info, 4)
    ensures DescribesUpdate(data, info)
  {
    forall k ensures Get(data, k) == ExpectedValue(info, k) {
      assert k.IsRelation() ==> k.Step() < 4;
    }
  }

  /** What one relation step does to the data read so far. */
  lemma RelationStep(data: seq<(Field, Value)>, info: ContestUpdate, done: nat,
                     key: Field, ids: Option<seq<string>>, idKey: string)
    requires DescribesUpdateSoFar(data, info, done)
    requires key.IsRelation() && key.Step() == done
    requires ExpectedValue(info, key) == RelationValue(ids, idKey)
    ensures DescribesUpdateSoFar(
      if ids.Some? then Assign(data, key, Replacement(ids.value, idKey)) else data, info, done + 1)
  {
  }

  /** One `if (list) data[key] = { deleteMany: {}, create: list.map(...) }` step. */
  method ReplaceRelation(data: seq<(Field, Value)>, key: Field, ids: Option<seq<string>>, idKey: string,
                         ghost info: ContestUpdate, ghost done: nat)
    returns (r: seq<(Field, Value)>)
    requires DescribesUpdateSoFar(data, info, done)
    requires key.IsRelation() && key.Step() == done
    requires ExpectedValue(info, key) == RelationValue(ids, idKey)
    ensures DescribesUpdateSoFar(r, info, done + 1)
  {
    r := data;
    if ids.Some? {
      r := Assign(r, key, Replacement(ids.value, idKey));
    }
    RelationStep(data, info, done, key, ids, idKey);
  }

  /** `updateContest`'s construction of `data`: the cleaned scalars, then one replacement per list given. */
  method BuildUpdateData(info: ContestUpdate) returns (data: seq<(Field, Value)>)
    ensures DescribesUpdate(data, info)
  {
    data := CleanObject(ScalarFields(info));
    StartOfUpdate(info);
    data := ReplaceRelation(data, AllowedLanguages, info.languages, "languageId", info, 0);
    data := ReplaceRelation(data, ContestModerators, info.moderators, "moderatorId", info, 1);
    data := ReplaceRelation(data, BatchContests, info.batches, "batchId", info, 2);
    data := ReplaceRelation(data, Tags, info.topics, "tagId", info, 3);
    EndOfUpdate(data, info);
  }

  /** A list that is left out leaves its field out of the update: that relation is not touched. */
  lemma AbsentListIsNotTouched(data: seq<(Field, Value)>, info: ContestUpdate)
    requires DescribesUpdate(data, info)
    ensures info.languages.None? <==> AllowedLanguages !in Keys(data)
    ensures info.moderators.None? <==> ContestModerators !in Keys(data)
    ensures info.batches.None? <==> BatchContests !in Keys(data)
    ensures info.topics.None? <==> Tags !in Keys(data)
  {
    PresentIffDefined(data, AllowedLanguages);
    PresentIffDefined(data, ContestModerators);
    PresentIffDefined(data, BatchContests);
    PresentIffDefined(data, Tags);
  }

  /** An absent scalar is dropped by `cleanObject`; `isOpen` has its default and is always sent. */
  lemma AbsentScalarIsDropped(data: seq<(Field, Value)>, info: ContestUpdate)
    requires DescribesUpdate(data, info)
    ensures info.title.None? <==> Title !in Keys(data)
    ensures info.description.None? <==> Description !in Keys(data)
    ensures info.startTime.None? <==> StartTime !in Keys(data)
    ensures info.endTime.None? <==> EndTime !in Keys(data)
    ensures info.subjectId.None? <==> SubjectId !in Keys(data)
    ensures IsOpen in Keys(data) && Get(data, IsOpen) == Bool(info.isOpen)
  {
    PresentIffDefined(data, Title);
    PresentIffDefined(data, Description);
    PresentIffDefined(data, StartTime);
    PresentIffDefined(data, EndTime);
    PresentIffDefined(data, SubjectId);
    PresentIffDefined(data, IsOpen);
  }

  /** A list that is given but empty is still truthy: it clears the relation. */
  lemma EmptyListClearsRelation(data: seq<(Field, Value)>, info: ContestUpdate)
    requires DescribesUpdate(data, info)
    requires info.languages == Some([])
    ensures Get(data, AllowedLanguages) == Obj([("deleteMany", Obj([])), ("create", Arr([]))])
  {
  }

  // ---------------------------------------------------------------------
  // formatContestData
  // ---------------------------------------------------------------------

  datatype Named = Named(id: string, name: string)
  datatype Person = Person(id: string, name: string, email: string)

  /** The relation rows as the repository returns them, each wrapping its target. */
  datatype BatchLink = BatchLink(batch: Named)
  datatype ModeratorLink = ModeratorLink(moderator: Person)
  datatype TagLink = TagLink(tag: Named)
  datatype LanguageLink = LanguageLink(language: Named)

  datatype ContestRow = ContestRow(
    rest: seq<(string, Value)>,
    batchContests: seq<BatchLink>,
    contestModerators: seq<ModeratorLink>,
    tags: seq<TagLink>,
    allowedLanguages: seq<LanguageLink>)

  datatype FormattedContest = FormattedContest(
    rest: seq<(string, Value)>,
    batchContests: seq<Named>,
    contestModerators: seq<Person>,
    tags: seq<Named>,
    allowedLanguages: seq<Named>)

  /** `formatContestData`: each relation list flattened to its targets, everything else kept. */
  function FormatContestData(row: ContestRow): (f: FormattedContest)
    ensures f.rest == row.rest
    ensures |f.batchContests| == |row.batchContests| && |f.contestModerators| == |row.contestModerators|
    ensures |f.tags| == |row.tags| && |f.allowedLanguages| == |row.allowedLanguages|
  {
    FormattedContest(
      row.rest,
      seq(|row.batchContests|, i requires 0 <= i < |row.batchContests| => row.batchContests[i].batch),
      seq(|row.contestModerators|, i requires 0 <= i < |row.contestModerators| => row.contestModerators[i].moderator),
      seq(|row.tags|, i requires 0 <= i < |row.tags| => row.tags[i].tag),
      seq(|row.allowedLanguages|, i requires 0 <= i < |row.allowedLanguages| => row.allowedLanguages[i].language))
  }

  /** The inverse of the flattening: wrap every target back into its relation row. */
  function Rewrap(f: FormattedContest): ContestRow {
    ContestRow(
      f.rest,
      seq(|f.batchContests|, i requires 0 <= i < |f.batchContests| => BatchLink(f.batchContests[i])),
      seq(|f.contestModerators|, i requires 0 <= i < |f.contestModerators| => ModeratorLink(f.contestModerators[i])),
      seq(|f.tags|, i requires 0 <= i < |f.tags| => TagLink(f.tags[i])),
      seq(|f.allowedLanguages|, i requires 0 <= i < |f.allowedLanguages| => LanguageLink(f.allowedLanguages[i])))
  }

  /** Formatting loses nothing: every target, in its order, and the other fields come back. */
  lemma FormatLosesNothing(row: ContestRow)
    ensures Rewrap(FormatContestData(row)) == row
  {
    var back := Rewrap(FormatContestData(row));
    assert back.batchContests == row.batchContests;
    assert back.contestModerators == row.contestModerators;
    assert back.tags == row.tags;
    assert back.allowedLanguages == row.allowedLanguages;
  }

  /** `updateContest`: the guard, the update data, the repository's answer, then the formatting. */
  method UpdateContestData(contestId: string, info: ContestUpdate, update: (string, seq<(Field, Value)>) -> Option<ContestRow>)
    returns (sent: Option<seq<(Field, Value)>>, r: Result<FormattedContest, Error>)
    ensures contestId == "" <==> sent.None?
    ensures contestId == "" ==> r == Err(ApiWith(GuardMessage(UpdateContest), InternalServerError))
    ensures sent.Some? ==> DescribesUpdate(sent.value, info)
    ensures sent.Some? && update(contestId, sent.value).None? ==>
      r == Err(ApiWith("Failed to update the contest, please try one more time.", InternalServerError))
    ensures sent.Some? && update(contestId, sent.value).Some? ==> r == Ok(FormatContestData(update(contestId, sent.value).value))
  {
    var guard := Guard(UpdateContest, contestId);
    if guard.Err? {
      return None, Err(guard.error);
    }
    var data := BuildUpdateData(info);
    sent := Some(data);
    var updated := update(contestId, data);
    if updated.None? {
      return sent, Err(ApiWith("Failed to update the contest, please try one more time.", InternalServerError));
    }
    r := Ok(FormatContestData(updated.value));
  }

  /** `getContestById`: the guard, a missing contest, then the formatting. */
  function GetContestByIdResult(contestId: string, found: Option<ContestRow>): (r: Result<FormattedContest, Error>)
    ensures contestId == "" ==> r == Err(ApiWith("No contest id found", BadRequest))
    ensures contestId != "" && found.None? ==> r == Err(ApiWith("Failed to find the contest detail.", InternalServerError))
    ensures r.Ok? ==> found.Some? && Rewrap(r.value) == found.value
  {
    if contestId == "" then Err(ApiWith("No contest id found", BadRequest))
    else if found.None? then Err(ApiWith("Failed to find the contest detail.", InternalServerError))
    else
      FormatLosesNothing(found.value);
      Ok(FormatContestData(found.value))
  }

  /** `getContests`: the guard on the user id, then every contest formatted in order. */
  function GetContestsResult(userId: string, rows: seq<ContestRow>): (r: Result<seq<FormattedContest>, Error>)
    ensures userId == "" <==> r.Err?
    ensures r.Err? ==> r.error == ApiWith("No teacher id found for getting all the contest", InternalServerError)
    ensures r.Ok? ==> |r.value| == |rows| && forall i :: 0 <= i < |rows| ==> Rewrap(r.value[i]) == rows[i]
  {
    if userId == "" then Err(ApiWith(GuardMessage(GetContests), GuardStatus(GetContests)))
    else
      var out := seq(|rows|, i requires 0 <= i < |rows| => FormatContestData(rows[i]));
      assert forall i :: 0 <= i < |rows| ==> Rewrap(out[i]) == rows[i] by {
        forall i | 0 <= i < |rows| ensures Rewrap(out[i]) == rows[i] {
          FormatLosesNothing(rows[i]);
        }
      }
      Ok(out)
  }

  /** `getAllModerators`: the guard, then each row's moderator, in order. */
  function GetAllModeratorsResult(contestId: string, rows: seq<ModeratorLink>): (r: Result<seq<Person>, Error>)
    ensures contestId == "" <==> r.Err?
    ensures r.Err? ==> r.error == ApiWith("No contest id found", InternalServerError)
    ensures r.Ok? ==> |r.value| == |rows| && forall i :: 0 <= i < |rows| ==> ModeratorLink(r.value[i]) == rows[i]
  {
    if contestId == "" then Err(ApiWith("No contest id found", InternalServerError))
    else Ok(seq(|rows|, i requires 0 <= i < |rows| => rows[i].moderator))
  }

  // ---------------------------------------------------------------------
  // Problems of a contest
  // ---------------------------------------------------------------------

  datatype ProblemInfo = ProblemInfo(id: string, title: string, difficulty: string)
  datatype ContestProblemRow = ContestProblemRow(problem: ProblemInfo, points: int)
  datatype ProblemSummary = ProblemSummary(id: string, title: string, difficulty: string, points: int)

  function Summary(row: ContestProblemRow): ProblemSummary {
    ProblemSummary(row.problem.id, row.problem.title, row.problem.difficulty, row.points)
  }

  /** `getAllProblems`: the guard, then `{id, title, difficulty, points}` per row, in order. */
  function GetAllProblemsResult(contestId: string, rows: seq<ContestProblemRow>): (r: Result<seq<ProblemSummary>, Error>)
    ensures contestId == "" <==> r.Err?
    ensures r.Err? ==> r.error == ApiWith("No contest id found to fetch problem.", BadGateway)
    ensures r.Ok? ==> |r.value| == |rows|
    ensures r.Ok? ==> forall i :: 0 <= i < |rows| ==>
      ContestProblemRow(ProblemInfo(r.value[i].id, r.value[i].title, r.value[i].difficulty), r.value[i].points) == rows[i]
  {
    if contestId == "" then Err(ApiWith(GuardMessage(GetAllProblems), GuardStatus(GetAllProblems)))
    else Ok(seq(|rows|, i requires 0 <= i < |rows| => Summary(rows[i])))
  }

  /** `addProblemToContest`'s result: the points and the problem's id and title. */
  datatype AddedProblem = AddedProblem(points: int, problemId: string, title: string)

  /** The message of the TypeError raised when a property of `null` is read. */
  const NullPointsMessage := "Cannot read properties of null (reading 'points')"

  /**
   * `addProblemToContest` as written: the ApiError for a missing row is built but not
   * thrown, so a missing row goes on to the property read and fails there.
   */
  function AddProblemToContestAsWritten(added: Option<ContestProblemRow>): (r: Result<AddedProblem, Error>)
    ensures added.None? ==> r == Err(TypeError(NullPointsMessage))
    ensures added.Some? ==> r.Ok?
  {
    if added.None? then Err(TypeError(NullPointsMessage))
    else Ok(AddedProblem(added.value.points, added.value.problem.id, added.value.problem.title))
  }

  /** The evidently intended `addProblemToContest`: a missing row is reported with the intended ApiError. */
  function AddProblemToContest(added: Option<ContestProblemRow>): (r: Result<AddedProblem, Error>)
    ensures added.None? <==> r.Err?
    ensures r.Err? ==> r.error == ApiWith("Failed to add problem to the contest.", InternalServerError)
    ensures r.Ok? ==> (r.value.points == added.value.points && r.value.problemId == added.value.problem.id
      && r.value.title == added.value.problem.title)
  {
    if added.None? then Err(ApiWith("Failed to add problem to the contest.", InternalServerError))
    else Ok(AddedProblem(added.value.points, added.value.problem.id, added.value.problem.title))
  }

  /** The two agree on every row; on a missing row the code as written never raises the ApiError. */
  lemma MissingRowIsNotReportedAsWritten(added: Option<ContestProblemRow>)
    ensures added.Some? ==> AddProblemToContestAsWritten(added) == AddProblemToContest(added)
    ensures added.None? ==> !AddProblemToContestAsWritten(added).error.ApiError?
    ensures added.None? ==> AddProblemToContestAsWritten(added) != AddProblemToContest(added)
  {
  }
}
