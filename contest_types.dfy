/** The contest request schemas: creation, the update body, the problem list, moderators and a problem's point edit. */
module ContestTypes {
  import opened Wrappers
  import opened Js
  import opened Schema
  import ContestService

  const TitleMinMessage := "The contest name should contain at least 1 character."
  const PointMinMessage := "Atleast 1 point should be there for problem."
  const PointMaxMessage := "Atmost 10 point is there for problem."

  /** `ZContestCreate`: a title of at least one character. */
  function ParseContestCreate(v: Value): (r: Result<string, Issue>)
    ensures r.Ok? <==> v.Obj? && Get(v.fields, "title").Str? && |Get(v.fields, "title").s| >= 1
    ensures r.Ok? ==> r.value == Get(v.fields, "title").s
    ensures v.Obj? && Get(v.fields, "title") == Str("") ==> r == Err(Issue(TooSmall, "title", Some(TitleMinMessage)))
  {
    var o := AsObject(v, "");
    if o.Err? then Err(o.error) else ParseStringMin(Get(o.value, "title"), 1, "title", TitleMinMessage)
  }

  /** `z.iso.datetime().optional()`; which strings are ISO date-times is given by `isIso`. */
  function ParseOptionalDateTime(v: Value, isIso: string -> bool, path: string): (r: Result<Option<string>, Issue>)
    ensures r.Ok? <==> v == Undefined || (v.Str? && isIso(v.s))
    ensures r == Ok(None) <==> v == Undefined
    ensures v.Str? && isIso(v.s) ==> r == Ok(Some(v.s))
  {
    if v == Undefined then Ok(None)
    else if v.Str? && isIso(v.s) then Ok(Some(v.s))
    else Err(Issue(InvalidValue, path, None))
  }

  /** An optional list of strings read from field value `w`: absent exactly when `w` is undefined, else the
      array's own strings, in order. */
  predicate OptionalStringsOf(w: Value, x: Option<seq<string>>) {
    && (x.None? <==> w == Undefined)
    && (x.Some? ==> w.Arr? && |x.value| == |w.items| && forall i :: 0 <= i < |w.items| ==> w.items[i] == Str(x.value[i]))
  }

  /** A value `z.array(z.string())` accepts: an array of strings only. */
  predicate IsStringArray(w: Value) {
    w.Arr? && forall i :: 0 <= i < |w.items| ==> w.items[i].Str?
  }

  /** `z.array(z.string()).optional()`. */
  function ParseOptionalStrings(v: Value, path: string): (r: Result<Option<seq<string>>, Issue>)
    ensures r.Ok? <==> v == Undefined || IsStringArray(v)
    ensures r.Ok? ==> OptionalStringsOf(v, r.value)
    ensures r == Ok(None) <==> v == Undefined
    ensures r.Ok? && r.value.Some? ==> (v.Arr? && |r.value.value| == |v.items|
      && forall i :: 0 <= i < |v.items| ==> v.items[i] == Str(r.value.value[i]))
  {
    if v == Undefined then Ok(None)
    else
      var a := ParseArray(v, StringItem, 0, path, "");
      if a.Err? then Err(a.error) else Ok(Some(a.value))
  }

  /** `ZContest`: every field optional but `isOpen`, which defaults to false. */
  function ParseContest(v: Value, isIso: string -> bool): (r: Result<ContestService.ContestUpdate, Issue>)
    ensures r.Ok? <==> (v.Obj?
      && ParseOptionalString(Get(v.fields, "title"), "title").Ok?
      && ParseOptionalString(Get(v.fields, "description"), "description").Ok?
      && ParseOptionalDateTime(Get(v.fields, "startTime"), isIso, "startTime").Ok?
      && ParseOptionalStrings(Get(v.fields, "batches"), "batches").Ok?
      && ParseBoolDefault(Get(v.fields, "isOpen"), false, "isOpen").Ok?
      && ParseOptionalStrings(Get(v.fields, "moderators"), "moderators").Ok?
      && ParseOptionalStrings(Get(v.fields, "topics"), "topics").Ok?
      && ParseOptionalDateTime(Get(v.fields, "endTime"), isIso, "endTime").Ok?
      && ParseOptionalStrings(Get(v.fields, "languages"), "languages").Ok?
      && ParseOptionalString(Get(v.fields, "subjectId"), "subjectId").Ok?)
    ensures r.Ok? ==>
      && OptionalStringOf(Get(v.fields, "title"), r.value.title)
      && OptionalStringOf(Get(v.fields, "description"), r.value.description)
      && OptionalStringOf(Get(v.fields, "startTime"), r.value.startTime)
      && OptionalStringsOf(Get(v.fields, "batches"), r.value.batches)
      && OptionalStringsOf(Get(v.fields, "moderators"), r.value.moderators)
      && OptionalStringsOf(Get(v.fields, "topics"), r.value.topics)
      && OptionalStringOf(Get(v.fields, "endTime"), r.value.endTime)
      && OptionalStringsOf(Get(v.fields, "languages"), r.value.languages)
      && OptionalStringOf(Get(v.fields, "subjectId"), r.value.subjectId)
    ensures r.Ok? ==> v.Obj?
    ensures r.Ok? && r.value.startTime.Some? ==> isIso(r.value.startTime.value)
    ensures r.Ok? && r.value.endTime.Some? ==> isIso(r.value.endTime.value)
    ensures r.Ok? ==> r.value.isOpen == (Get(v.fields, "isOpen") == Bool(true))
    ensures r.Ok? ==> (r.value.batches.None? <==> Get(v.fields, "batches") == Undefined)
    ensures r.Ok? ==> (r.value.moderators.None? <==> Get(v.fields, "moderators") == Undefined)
    ensures r.Ok? ==> (r.value.topics.None? <==> Get(v.fields, "topics") == Undefined)
    ensures r.Ok? ==> (r.value.languages.None? <==> Get(v.fields, "languages") == Undefined)
  {
    var o := AsObject(v, "");
    if o.Err? then Err(o.error)
    else
      var f := o.value;
      var title := ParseOptionalString(Get(f, "title"), "title");
      var description := ParseOptionalString(Get(f, "description"), "description");
      var startTime := ParseOptionalDateTime(Get(f, "startTime"), isIso, "startTime");
      var batches := ParseOptionalStrings(Get(f, "batches"), "batches");
      var isOpen := ParseBoolDefault(Get(f, "isOpen"), false, "isOpen");
      var moderators := ParseOptionalStrings(Get(f, "moderators"), "moderators");
      var topics := ParseOptionalStrings(Get(f, "topics"), "topics");
      var endTime := ParseOptionalDateTime(Get(f, "endTime"), isIso, "endTime");
      var languages := ParseOptionalStrings(Get(f, "languages"), "languages");
      var subjectId := ParseOptionalString(Get(f, "subjectId"), "subjectId");
      if title.Err? then Err(title.error)
      else if description.Err? then Err(description.error)
      else if startTime.Err? then Err(startTime.error)
      else if batches.Err? then Err(batches.error)
      else if isOpen.Err? then Err(isOpen.error)
      else if moderators.Err? then Err(moderators.error)
      else if topics.Err? then Err(topics.error)
      else if endTime.Err? then Err(endTime.error)
      else if languages.Err? then Err(languages.error)
      else if subjectId.Err? then Err(subjectId.error)
      else Ok(ContestService.ContestUpdate(title.value, description.value, startTime.value, batches.value,
                                           isOpen.value, moderators.value, topics.value, endTime.value,
                                           languages.value, subjectId.value))
  }

  /** An empty body is a valid update that only closes the contest. */
  lemma EmptyBodyClosesContest(isIso: string -> bool)
    ensures ParseContest(Obj([]), isIso) ==
      Ok(ContestService.ContestUpdate(None, None, None, None, false, None, None, None, None, None))
  {
  }

  /** `z.int32().min(1, ...).max(10, ...)`: a problem's point within a contest. */
  function ParsePoint(v: Value): (r: Result<int, Issue>)
    ensures r.Ok? ==> 1 <= r.value <= 10
    ensures r.Ok? <==> v.Num? && IsInt32(v.n) && 1.0 <= v.n.value <= 10.0
    ensures r.Ok? ==> r.value as real == v.n.value
    ensures v.Num? && IsInt32(v.n) && v.n.value < 1.0 ==> r == Err(Issue(TooSmall, "point", Some(PointMinMessage)))
    ensures v.Num? && IsInt32(v.n) && v.n.value > 10.0 ==> r == Err(Issue(TooBig, "point", Some(PointMaxMessage)))
  {
    ParseInt32Between(v, 1, 10, "point", PointMinMessage, PointMaxMessage)
  }

  datatype ContestProblem = ContestProblem(problemId: string, point: int)

  /** The update body `ParseContest` accepts, field by field: an object whose every field is absent or of the
      schema's type, with the two times in ISO form. */
  lemma ParseContestAcceptsExactly(v: Value, isIso: string -> bool)
    ensures ParseContest(v, isIso).Ok? <==> (v.Obj?
      && (Get(v.fields, "title") == Undefined || Get(v.fields, "title").Str?)
      && (Get(v.fields, "description") == Undefined || Get(v.fields, "description").Str?)
      && (Get(v.fields, "startTime") == Undefined || (Get(v.fields, "startTime").Str? && isIso(Get(v.fields, "startTime").s)))
      && (Get(v.fields, "batches") == Undefined || IsStringArray(Get(v.fields, "batches")))
      && (Get(v.fields, "isOpen") == Undefined || Get(v.fields, "isOpen").Bool?)
      && (Get(v.fields, "moderators") == Undefined || IsStringArray(Get(v.fields, "moderators")))
      && (Get(v.fields, "topics") == Undefined || IsStringArray(Get(v.fields, "topics")))
      && (Get(v.fields, "endTime") == Undefined || (Get(v.fields, "endTime").Str? && isIso(Get(v.fields, "endTime").s)))
      && (Get(v.fields, "languages") == Undefined || IsStringArray(Get(v.fields, "languages")))
      && (Get(v.fields, "subjectId") == Undefined || Get(v.fields, "subjectId").Str?))
  {
  }

  /** One element of `ZContestProblem.problems`. */
  function ParseContestProblemEntry(v: Value): (r: Result<ContestProblem, Issue>)
    ensures r.Ok? <==> v.Obj? && Get(v.fields, "problemId").Str? && ParsePoint(Get(v.fields, "point")).Ok?
    ensures r.Ok? ==> r.value.problemId == Get(v.fields, "problemId").s && 1 <= r.value.point <= 10
    ensures r.Ok? ==> r.value.point == ParsePoint(Get(v.fields, "point")).value
  {
    var o := AsObject(v, "");
    if o.Err? then Err(o.error)
    else
      var problemId := ParseString(Get(o.value, "problemId"), "problemId");
      var point := ParsePoint(Get(o.value, "point"));
      if problemId.Err? then Err(problemId.error)
      else if point.Err? then Err(point.error)
      else Ok(ContestProblem(problemId.value, point.value))
  }

  /** `ZContestProblem`: a list of problems with their points; the list may be empty. */
  function ParseContestProblems(v: Value): (r: Result<seq<ContestProblem>, Issue>)
    ensures r.Ok? <==> (v.Obj? && Get(v.fields, "problems").Arr?
      && forall i :: 0 <= i < |Get(v.fields, "problems").items| ==> ParseContestProblemEntry(Get(v.fields, "problems").items[i]).Ok?)
    ensures r.Ok? ==> (|r.value| == |Get(v.fields, "problems").items|
      && forall i :: 0 <= i < |r.value| ==> 1 <= r.value[i].point <= 10)
    ensures r.Ok? ==> forall i :: 0 <= i < |r.value| ==>
      r.value[i] == ParseContestProblemEntry(Get(v.fields, "problems").items[i]).value
  {
    var o := AsObject(v, "");
    if o.Err? then Err(o.error)
    else ParseArray(Get(o.value, "problems"), ParseContestProblemEntry, 0, "problems", "")
  }

  /** `ZContestMod`: the list of moderator ids. */
  function ParseContestMod(v: Value): (r: Result<seq<string>, Issue>)
    ensures r.Ok? <==> (v.Obj? && Get(v.fields, "moderatorIds").Arr?
      && forall i :: 0 <= i < |Get(v.fields, "moderatorIds").items| ==> Get(v.fields, "moderatorIds").items[i].Str?)
    ensures r.Ok? ==> (|r.value| == |Get(v.fields, "moderatorIds").items|
      && forall i :: 0 <= i < |r.value| ==> Get(v.fields, "moderatorIds").items[i] == Str(r.value[i]))
  {
    var o := AsObject(v, "");
    if o.Err? then Err(o.error)
    else ParseArray(Get(o.value, "moderatorIds"), StringItem, 0, "moderatorIds", "")
  }

  datatype ProblemContestEdit = ProblemContestEdit(point: int, contestId: string)

  /** `ZProblemContestEdit`: the new point, bounded as in the problem list, and the contest id. */
  function ParseProblemContestEdit(v: Value): (r: Result<ProblemContestEdit, Issue>)
    ensures r.Ok? <==> v.Obj? && ParsePoint(Get(v.fields, "point")).Ok? && Get(v.fields, "contestId").Str?
    ensures r.Ok? ==> 1 <= r.value.point <= 10 && r.value.contestId == Get(v.fields, "contestId").s
    ensures r.Ok? ==> r.value.point == ParsePoint(Get(v.fields, "point")).value
  {
    var o := AsObject(v, "");
    if o.Err? then Err(o.error)
    else
      var point := ParsePoint(Get(o.value, "point"));
      var contestId := ParseString(Get(o.value, "contestId"), "contestId");
      if point.Err? then Err(point.error)
      else if contestId.Err? then Err(contestId.error)
      else Ok(ProblemContestEdit(point.value, contestId.value))
  }

  /** The bounds are inclusive: 1 and 10 pass, 0 and 11 give their own messages, 1.5 is not an int32. */
  lemma PointBounds()
    ensures ParsePoint(Num(Finite(1.0))) == Ok(1)
    ensures ParsePoint(Num(Finite(10.0))) == Ok(10)
    ensures ParsePoint(Num(Finite(0.0))) == Err(Issue(TooSmall, "point", Some(PointMinMessage)))
    ensures ParsePoint(Num(Finite(11.0))) == Err(Issue(TooBig, "point", Some(PointMaxMessage)))
    ensures ParsePoint(Num(Finite(1.5))).Err?
  {
    assert (1.5).Floor == 1;
  }

  /** An empty problem list is accepted. */
  lemma EmptyProblemListIsAccepted()
    ensures ParseContestProblems(Obj([("problems", Arr([]))])) == Ok([])
  {
  }
}
