/** The problem request schemas: creation, the partial update, the moderator pair and the list filter. */
module ProblemTypes {
  import opened Wrappers
  import opened Js
  import opened Schema

  const Difficulties: seq<string> := ["Easy", "Medium", "Hard"]

  datatype ProblemCreate = ProblemCreate(title: string, createdBy: string)

  /** `ZProblemCreate`: a title and the creator's id, both strings. */
  function ParseProblemCreate(v: Value): (r: Result<ProblemCreate, Issue>)
    ensures r.Ok? <==> v.Obj? && Get(v.fields, "title").Str? && Get(v.fields, "createdBy").Str?
    ensures r.Ok? ==> r.value == ProblemCreate(Get(v.fields, "title").s, Get(v.fields, "createdBy").s)
  {
    var o := AsObject(v, "");
    if o.Err? then Err(o.error)
    else
      var title := ParseString(Get(o.value, "title"), "title");
      var createdBy := ParseString(Get(o.value, "createdBy"), "createdBy");
      if title.Err? then Err(title.error)
      else if createdBy.Err? then Err(createdBy.error)
      else Ok(ProblemCreate(title.value, createdBy.value))
  }

  /** A problem update: every field may be left out. */
  datatype ProblemPatch = ProblemPatch(
    title: Option<string>,
    constraints: Option<string>,
    problemStatement: Option<string>,
    difficulty: Option<string>,
    isPublic: Option<bool>,
    points: Option<real>,
    tags: Option<string>)

  const EmptyPatch := ProblemPatch(None, None, None, None, None, None, None)

  /** `z.enum(["Easy", "Medium", "Hard"]).optional()`. */
  function ParseOptionalDifficulty(v: Value, path: string): (r: Result<Option<string>, Issue>)
    ensures r.Ok? <==> v == Undefined || (v.Str? && v.s in Difficulties)
    ensures r.Ok? && r.value.Some? ==> r.value.value in Difficulties
    ensures r == Ok(None) <==> v == Undefined
    ensures v.Str? && v.s in Difficulties ==> r == Ok(Some(v.s))
  {
    if v == Undefined then Ok(None)
    else
      var d := ParseEnum(v, Difficulties, path);
      if d.Err? then Err(d.error) else Ok(Some(d.value))
  }

  /** `ZProblem`: every field optional, each typed when present. */
  function ParseProblem(v: Value): (r: Result<ProblemPatch, Issue>)
    ensures r.Ok? <==> (v.Obj?
      && (Get(v.fields, "title") == Undefined || Get(v.fields, "title").Str?)
      && (Get(v.fields, "constraints") == Undefined || Get(v.fields, "constraints").Str?)
      && (Get(v.fields, "problemStatement") == Undefined || Get(v.fields, "problemStatement").Str?)
      && (Get(v.fields, "difficulty") == Undefined
          || (Get(v.fields, "difficulty").Str? && Get(v.fields, "difficulty").s in Difficulties))
      && (Get(v.fields, "isPublic") == Undefined || Get(v.fields, "isPublic").Bool?)
      && (Get(v.fields, "points") == Undefined || (Get(v.fields, "points").Num? && Get(v.fields, "points").n.Finite?))
      && (Get(v.fields, "tags") == Undefined || Get(v.fields, "tags").Str?))
    ensures r.Ok? ==>
      && OptionalStringOf(Get(v.fields, "title"), r.value.title)
      && OptionalStringOf(Get(v.fields, "constraints"), r.value.constraints)
      && OptionalStringOf(Get(v.fields, "problemStatement"), r.value.problemStatement)
      && OptionalStringOf(Get(v.fields, "difficulty"), r.value.difficulty)
      && OptionalBoolOf(Get(v.fields, "isPublic"), r.value.isPublic)
      && OptionalNumberOf(Get(v.fields, "points"), r.value.points)
      && OptionalStringOf(Get(v.fields, "tags"), r.value.tags)
    ensures r.Ok? ==> v.Obj?
    ensures r.Ok? && r.value.difficulty.Some? ==> r.value.difficulty.value in Difficulties
    ensures r.Ok? ==> (r.value.title.None? <==> Get(v.fields, "title") == Undefined)
    ensures r.Ok? ==> (r.value.points.None? <==> Get(v.fields, "points") == Undefined)
  {
    var o := AsObject(v, "");
    if o.Err? then Err(o.error)
    else
      var f := o.value;
      var title := ParseOptionalString(Get(f, "title"), "title");
      var constraints := ParseOptionalString(Get(f, "constraints"), "constraints");
      var statement := ParseOptionalString(Get(f, "problemStatement"), "problemStatement");
      var difficulty := ParseOptionalDifficulty(Get(f, "difficulty"), "difficulty");
      var isPublic := ParseOptionalBool(Get(f, "isPublic"), "isPublic");
      var points := ParseOptionalNumber(Get(f, "points"), "points");
      var tags := ParseOptionalString(Get(f, "tags"), "tags");
      if title.Err? then Err(title.error)
      else if constraints.Err? then Err(constraints.error)
      else if statement.Err? then Err(statement.error)
      else if difficulty.Err? then Err(difficulty.error)
      else if isPublic.Err? then Err(isPublic.error)
      else if points.Err? then Err(points.error)
      else if tags.Err? then Err(tags.error)
      else Ok(ProblemPatch(title.value, constraints.value, statement.value, difficulty.value,
                           isPublic.value, points.value, tags.value))
  }

  /** An empty object is a valid update that changes nothing. */
  lemma EmptyUpdateIsValid()
    ensures ParseProblem(Obj([])) == Ok(EmptyPatch)
  {
  }

  datatype ProblemModerator = ProblemModerator(problemId: string, moderatorId: string)

  /** `ZProblemModerator`: the problem id and the moderator's id. */
  function ParseProblemModerator(v: Value): (r: Result<ProblemModerator, Issue>)
    ensures r.Ok? <==> v.Obj? && Get(v.fields, "problemId").Str? && Get(v.fields, "moderatorId").Str?
    ensures r.Ok? ==> r.value == ProblemModerator(Get(v.fields, "problemId").s, Get(v.fields, "moderatorId").s)
  {
    var o := AsObject(v, "");
    if o.Err? then Err(o.error)
    else
      var problemId := ParseString(Get(o.value, "problemId"), "problemId");
      var moderatorId := ParseString(Get(o.value, "moderatorId"), "moderatorId");
      if problemId.Err? then Err(problemId.error)
      else if moderatorId.Err? then Err(moderatorId.error)
      else Ok(ProblemModerator(problemId.value, moderatorId.value))
  }

  // ---------------------------------------------------------------------
  // The list filter, read from query strings
  // ---------------------------------------------------------------------

  /** The flag preprocess: the strings "true" and "false" become booleans; anything else passes through. */
  function FlagPreprocess(v: Value): Value {
    if v == Str("true") then Bool(true) else if v == Str("false") then Bool(false) else v
  }

  /** A filter flag: preprocess, then `z.boolean().optional().default(d)`. */
  function ParseFlag(v: Value, d: bool, path: string): (r: Result<bool, Issue>)
    ensures r == Ok(true) <==> v == Str("true") || v == Bool(true) || (v == Undefined && d)
    ensures r == Ok(false) <==> v == Str("false") || v == Bool(false) || (v == Undefined && !d)
    ensures r.Err? <==> !(v == Undefined || v.Bool? || v == Str("true") || v == Str("false"))
  {
    ParseBoolDefault(FlagPreprocess(v), d, path)
  }

  /** The difficulty preprocess: a non-string becomes undefined. */
  function DifficultyPreprocess(v: Value): Value {
    if v.Str? then v else Undefined
  }

  datatype ProblemFilter = ProblemFilter(isActive: bool, isPublic: bool, createdBy: Option<string>, difficulty: Option<string>)

  /** `ZProblemFilter`: `isActive` defaults to true, `isPublic` to false; a non-string difficulty is ignored. */
  function ParseProblemFilter(v: Value): (r: Result<ProblemFilter, Issue>)
    ensures r.Ok? <==> (v.Obj?
      && ParseFlag(Get(v.fields, "isActive"), true, "isActive").Ok?
      && ParseFlag(Get(v.fields, "isPublic"), false, "isPublic").Ok?
      && (Get(v.fields, "createdBy") == Undefined || Get(v.fields, "createdBy").Str?)
      && (!Get(v.fields, "difficulty").Str? || Get(v.fields, "difficulty").s in Difficulties))
    ensures r.Ok? ==> r.value.isActive == ParseFlag(Get(v.fields, "isActive"), true, "isActive").value
    ensures r.Ok? ==> r.value.isPublic == ParseFlag(Get(v.fields, "isPublic"), false, "isPublic").value
    ensures r.Ok? ==> (r.value.difficulty.None? <==> !Get(v.fields, "difficulty").Str?)
    ensures r.Ok? ==> OptionalStringOf(Get(v.fields, "createdBy"), r.value.createdBy)
    ensures r.Ok? && r.value.difficulty.Some? ==> Get(v.fields, "difficulty") == Str(r.value.difficulty.value)
  {
    var o := AsObject(v, "");
    if o.Err? then Err(o.error)
    else
      var f := o.value;
      var isActive := ParseFlag(Get(f, "isActive"), true, "isActive");
      var isPublic := ParseFlag(Get(f, "isPublic"), false, "isPublic");
      var createdBy := ParseOptionalString(Get(f, "createdBy"), "createdBy");
      var difficulty := ParseOptionalDifficulty(DifficultyPreprocess(Get(f, "difficulty")), "difficulty");
      if isActive.Err? then Err(isActive.error)
      else if isPublic.Err? then Err(isPublic.error)
      else if createdBy.Err? then Err(createdBy.error)
      else if difficulty.Err? then Err(difficulty.error)
      else Ok(ProblemFilter(isActive.value, isPublic.value, createdBy.value, difficulty.value))
  }

  /** Only the exact lower-case spellings are read as booleans: "TRUE" and "1" are refused. */
  lemma OtherFlagSpellingsAreRefused(d: bool)
    ensures ParseFlag(Str("TRUE"), d, "isActive").Err?
    ensures ParseFlag(Str("1"), d, "isActive").Err?
    ensures ParseFlag(Num(Finite(1.0)), d, "isActive").Err?
  {
    assert Str("TRUE") != Str("true") by { assert "TRUE"[0] != "true"[0]; }
    assert Str("TRUE") != Str("false");
    assert Str("1") != Str("true") && Str("1") != Str("false");
  }

  /** An empty query lists the active, non-public problems without further restriction. */
  lemma EmptyQueryDefaults()
    ensures ParseProblemFilter(Obj([])) == Ok(ProblemFilter(true, false, None, None))
  {
  }
}
