/** The test-case request schemas: upload file names, the bulk upload, stored test cases and the filter. */
module TestcaseTypes {
  import opened Wrappers
  import opened Js
  import opened Text
  import opened Schema

  const InputMinMessage := "Atleast minimum length of 1 is required for input filename."
  const InputTxtMessage := "Input file must be a text(.txt) file"
  const OutputMinMessage := "Atleast minimum length of 1 is required for output filename."
  const OutputTxtMessage := "Output file must have a text(.txt) extension"
  const SameNameMessage := "Input and output filenames must be different"
  const NoUploadsMessage := "At least one test case is required"
  const NoTestcasesMessage := "At least one test case is required."

  /** The name-check of both file fields: at least four characters, and ".txt" at the end ignoring case. */
  predicate IsTxtName(name: string) {
    |name| >= 4 && EndsWith(ToLowerAscii(name), ".txt")
  }

  /** One file-name field of `ZTestcaseCreate`: `z.string().min(4, ...).refine(endsWith .txt, ...)`. */
  function ParseFilename(v: Value, path: string, minMessage: string, txtMessage: string): (r: Result<string, Issue>)
    ensures r.Ok? <==> v.Str? && IsTxtName(v.s)
    ensures r.Ok? ==> r.value == v.s
    ensures v.Str? && |v.s| < 4 ==> r == Err(Issue(TooSmall, path, Some(minMessage)))
  {
    var s := ParseStringMin(v, 4, path, minMessage);
    if s.Err? then Err(s.error)
    else if !EndsWith(ToLowerAscii(s.value), ".txt") then Err(Issue(Custom, path, Some(txtMessage)))
    else Ok(s.value)
  }

  datatype TestcaseCreate = TestcaseCreate(inputFilename: string, outputFilename: string)

  /** `ZTestcaseCreate`: both file names, then the object-level check that they differ. */
  function ParseTestcaseCreate(v: Value): (r: Result<TestcaseCreate, Issue>)
    ensures r.Ok? <==> (v.Obj?
      && ParseFilename(Get(v.fields, "inputFilename"), "inputFilename", InputMinMessage, InputTxtMessage).Ok?
      && ParseFilename(Get(v.fields, "outputFilename"), "outputFilename", OutputMinMessage, OutputTxtMessage).Ok?
      && Get(v.fields, "inputFilename") != Get(v.fields, "outputFilename"))
    ensures r.Ok? ==> (IsTxtName(r.value.inputFilename) && IsTxtName(r.value.outputFilename)
      && r.value.inputFilename != r.value.outputFilename)
    ensures r.Ok? ==> r.value == TestcaseCreate(Get(v.fields, "inputFilename").s, Get(v.fields, "outputFilename").s)
  {
    var o := AsObject(v, "");
    if o.Err? then Err(o.error)
    else
      var input := ParseFilename(Get(o.value, "inputFilename"), "inputFilename", InputMinMessage, InputTxtMessage);
      var output := ParseFilename(Get(o.value, "outputFilename"), "outputFilename", OutputMinMessage, OutputTxtMessage);
      if input.Err? then Err(input.error)
      else if output.Err? then Err(output.error)
      else if input.value == output.value then Err(Issue(Custom, "", Some(SameNameMessage)))
      else Ok(TestcaseCreate(input.value, output.value))
  }

  /** `ZBulkTestcaseCreate`: a non-empty list of upload name pairs. */
  function ParseBulkTestcaseCreate(v: Value): (r: Result<seq<TestcaseCreate>, Issue>)
    ensures r.Ok? ==> |r.value| >= 1
    ensures r.Ok? <==> (v.Obj? && Get(v.fields, "testcases").Arr? && |Get(v.fields, "testcases").items| >= 1
      && forall i :: 0 <= i < |Get(v.fields, "testcases").items| ==> ParseTestcaseCreate(Get(v.fields, "testcases").items[i]).Ok?)
    ensures r.Ok? ==> (|r.value| == |Get(v.fields, "testcases").items|
      && forall i :: 0 <= i < |r.value| ==> r.value[i] == ParseTestcaseCreate(Get(v.fields, "testcases").items[i]).value)
  {
    var o := AsObject(v, "");
    if o.Err? then Err(o.error)
    else ParseArray(Get(o.value, "testcases"), ParseTestcaseCreate, 1, "testcases", NoUploadsMessage)
  }

  /** A stored test case as `ZTestcase` gives it, defaults filled in. */
  datatype Testcase = Testcase(
    problemId: string, input: string, output: string, isSample: bool, points: int, explanation: string)

  /** `ZTestcase`: three required strings, then `isSample` (default false), `points` (int32, default 0), `explanation` (default ""). */
  function ParseTestcase(v: Value): (r: Result<Testcase, Issue>)
    ensures r.Ok? <==> (v.Obj?
      && Get(v.fields, "problemId").Str? && Get(v.fields, "input").Str? && Get(v.fields, "output").Str?
      && (Get(v.fields, "isSample") == Undefined || Get(v.fields, "isSample").Bool?)
      && (Get(v.fields, "points") == Undefined || (Get(v.fields, "points").Num? && IsInt32(Get(v.fields, "points").n)))
      && (Get(v.fields, "explanation") == Undefined || Get(v.fields, "explanation").Str?))
    ensures r.Ok? ==>
      && Get(v.fields, "problemId") == Str(r.value.problemId)
      && Get(v.fields, "input") == Str(r.value.input)
      && Get(v.fields, "output") == Str(r.value.output)
    ensures r.Ok? && Get(v.fields, "isSample").Bool? ==> r.value.isSample == Get(v.fields, "isSample").b
    ensures r.Ok? && Get(v.fields, "points").Num? ==> r.value.points as real == Get(v.fields, "points").n.value
    ensures r.Ok? && Get(v.fields, "explanation").Str? ==> r.value.explanation == Get(v.fields, "explanation").s
    ensures r.Ok? ==> Int32Min <= r.value.points <= Int32Max
    ensures r.Ok? && v.Obj? && Get(v.fields, "isSample") == Undefined ==> !r.value.isSample
    ensures r.Ok? && v.Obj? && Get(v.fields, "points") == Undefined ==> r.value.points == 0
    ensures r.Ok? && v.Obj? && Get(v.fields, "explanation") == Undefined ==> r.value.explanation == ""
  {
    var o := AsObject(v, "");
    if o.Err? then Err(o.error)
    else
      var f := o.value;
      var problemId := ParseString(Get(f, "problemId"), "problemId");
      var input := ParseString(Get(f, "input"), "input");
      var output := ParseString(Get(f, "output"), "output");
      var isSample := ParseBoolDefault(Get(f, "isSample"), false, "isSample");
      var points := ParseInt32Default(Get(f, "points"), 0, "points");
      var explanation := if Get(f, "explanation") == Undefined then Ok("") else ParseString(Get(f, "explanation"), "explanation");
      if problemId.Err? then Err(problemId.error)
      else if input.Err? then Err(input.error)
      else if output.Err? then Err(output.error)
      else if isSample.Err? then Err(isSample.error)
      else if points.Err? then Err(points.error)
      else if explanation.Err? then Err(explanation.error)
      else Ok(Testcase(problemId.value, input.value, output.value, isSample.value, points.value, explanation.value))
  }

  /** `ZTestcases`: a non-empty list of test cases. */
  function ParseTestcases(v: Value): (r: Result<seq<Testcase>, Issue>)
    ensures r.Ok? <==> (v.Obj? && Get(v.fields, "testcases").Arr? && |Get(v.fields, "testcases").items| >= 1
      && forall i :: 0 <= i < |Get(v.fields, "testcases").items| ==> ParseTestcase(Get(v.fields, "testcases").items[i]).Ok?)
    ensures r.Ok? ==> (|r.value| == |Get(v.fields, "testcases").items|
      && forall i :: 0 <= i < |r.value| ==> r.value[i] == ParseTestcase(Get(v.fields, "testcases").items[i]).value)
    ensures r.Ok? ==> |r.value| >= 1
    ensures v.Obj? && Get(v.fields, "testcases") == Arr([]) ==> r == Err(Issue(TooSmall, "testcases", Some(NoTestcasesMessage)))
  {
    var o := AsObject(v, "");
    if o.Err? then Err(o.error)
    else ParseArray(Get(o.value, "testcases"), ParseTestcase, 1, "testcases", NoTestcasesMessage)
  }

  datatype TestcaseFilter = TestcaseFilter(problemId: string, isSample: bool)

  /** `ZTestcaseFilter`: the problem id, and `isSample` defaulting to true. */
  function ParseTestcaseFilter(v: Value): (r: Result<TestcaseFilter, Issue>)
    ensures r.Ok? <==> (v.Obj? && Get(v.fields, "problemId").Str?
      && (Get(v.fields, "isSample") == Undefined || Get(v.fields, "isSample").Bool?))
    ensures r.Ok? && Get(v.fields, "isSample") == Undefined ==> r.value.isSample
    ensures r.Ok? ==> r.value.problemId == Get(v.fields, "problemId").s
    ensures r.Ok? && Get(v.fields, "isSample").Bool? ==> r.value.isSample == Get(v.fields, "isSample").b
  {
    var o := AsObject(v, "");
    if o.Err? then Err(o.error)
    else
      var problemId := ParseString(Get(o.value, "problemId"), "problemId");
      var isSample := ParseBoolDefault(Get(o.value, "isSample"), true, "isSample");
      if problemId.Err? then Err(problemId.error)
      else if isSample.Err? then Err(isSample.error)
      else Ok(TestcaseFilter(problemId.value, isSample.value))
  }

  // ---------------------------------------------------------------------
  // Properties of the schemas
  // ---------------------------------------------------------------------

  /** ".txt" alone is long enough and passes; so does an upper-case extension. */
  lemma BareAndUpperCaseExtensionsPass()
    ensures IsTxtName(".txt")
    ensures IsTxtName("A.TXT")
    ensures !IsTxtName("a.tx")
    ensures !IsTxtName("txt")
  {
    assert ToLowerAscii(".txt") == ".txt" by {
      assert ToLowerAscii(".txt") == [LowerChar('.')] + ToLowerAscii("txt");
      assert ToLowerAscii("txt") == [LowerChar('t')] + ToLowerAscii("xt");
      assert ToLowerAscii("xt") == [LowerChar('x')] + ToLowerAscii("t");
      assert ToLowerAscii("t") == [LowerChar('t')] + ToLowerAscii("");
    }
    assert ToLowerAscii("A.TXT") == "a.txt" by {
      assert ToLowerAscii("A.TXT") == [LowerChar('A')] + ToLowerAscii(".TXT");
      assert ToLowerAscii(".TXT") == [LowerChar('.')] + ToLowerAscii("TXT");
      assert ToLowerAscii("TXT") == [LowerChar('T')] + ToLowerAscii("XT");
      assert ToLowerAscii("XT") == [LowerChar('X')] + ToLowerAscii("T");
      assert ToLowerAscii("T") == [LowerChar('T')] + ToLowerAscii("");
    }
    assert "a.txt"[1..] == ".txt";
    assert ToLowerAscii("a.tx") == "a.tx" by {
      assert ToLowerAscii("a.tx") == [LowerChar('a')] + ToLowerAscii(".tx");
      assert ToLowerAscii(".tx") == [LowerChar('.')] + ToLowerAscii("tx");
      assert ToLowerAscii("tx") == [LowerChar('t')] + ToLowerAscii("x");
      assert ToLowerAscii("x") == [LowerChar('x')] + ToLowerAscii("");
    }
    assert "a.tx"[0..] != ".txt";
  }

  /** The same name twice is refused by the object-level check, whatever the name. */
  lemma EqualNamesAreRefused(name: string)
    ensures ParseTestcaseCreate(Obj([("inputFilename", Str(name)), ("outputFilename", Str(name))])).Err?
  {
  }

  /** The comparison of the two names is case-sensitive: names differing only in case are both accepted. */
  lemma NamesDifferingInCaseAreAccepted()
    ensures ParseTestcaseCreate(Obj([("inputFilename", Str("a.txt")), ("outputFilename", Str("A.TXT"))])) ==
      Ok(TestcaseCreate("a.txt", "A.TXT"))
  {
    BareAndUpperCaseExtensionsPass();
    assert IsTxtName("a.txt") by {
      assert ToLowerAscii("a.txt") == "a.txt" by {
        assert ToLowerAscii("a.txt") == [LowerChar('a')] + ToLowerAscii(".txt");
        assert ToLowerAscii(".txt") == ".txt";
      }
      assert "a.txt"[1..] == ".txt";
    }
    assert "a.txt" != "A.TXT" by { assert "a.txt"[0] != "A.TXT"[0]; }
  }

  /** An empty upload list is refused. */
  lemma EmptyUploadListIsRefused()
    ensures ParseBulkTestcaseCreate(Obj([("testcases", Arr([]))])) == Err(Issue(TooSmall, "testcases", Some(NoUploadsMessage)))
  {
  }

  /** The three required fields alone give a test case with every default. */
  lemma TestcaseDefaults(problemId: string, input: string, output: string)
    ensures ParseTestcase(Obj([("problemId", Str(problemId)), ("input", Str(input)), ("output", Str(output))])) ==
      Ok(Testcase(problemId, input, output, false, 0, ""))
  {
    var a, b, c := ("problemId", Str(problemId)), ("input", Str(input)), ("output", Str(output));
    var f := [a, b, c];
    assert f == [a, b] + [c] && [a, b] == [a] + [b];
    ReadThree(a, b, c, "problemId");
    ReadThree(a, b, c, "input");
    ReadThree(a, b, c, "output");
    ReadThree(a, b, c, "isSample");
    ReadThree(a, b, c, "points");
    ReadThree(a, b, c, "explanation");
  }

  /** Reading a key of a three-entry object. */
  lemma ReadThree(a: (string, Value), b: (string, Value), c: (string, Value), k: string)
    ensures Get([a, b, c], k) == if c.0 == k then c.1 else if b.0 == k then b.1 else if a.0 == k then a.1 else Undefined
  {
    assert [a, b, c] == [a, b] + [c] && [a, b] == [a] + [b] && [a] == [] + [a];
    GetAppend([a, b], c, k);
    GetAppend([a], b, k);
    GetAppend([], a, k);
  }

  /** The filter defaults to the sample test cases. */
  lemma FilterDefaultsToSamples(problemId: string)
    ensures ParseTestcaseFilter(Obj([("problemId", Str(problemId))])) == Ok(TestcaseFilter(problemId, true))
  {
  }
}
