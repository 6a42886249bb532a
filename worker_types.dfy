/** The records the workers exchange through the queues and the status store. */
module WorkerTypes {
  import opened Wrappers
  import opened Js

  /** One test case outcome as the workers record it. */
  datatype TestResult = TestResult(
    id: Option<string>,
    status: string,
    output: string,
    compilerError: Option<string>,
    runtimeError: Option<string>,
    executionTime: Option<Number>,
    memory: Option<Number>,
    weight: Option<real>,
    passed: bool)

  /** The aggregate a trial run returns and the persistence stage consumes. */
  datatype CodeRunnerResult = CodeRunnerResult(
    runId: string,
    totalTestCases: int,
    passedTestCases: int,
    results: seq<TestResult>)

  datatype SubmissionMetadata = SubmissionMetadata(
    problemId: string,
    studentId: string,
    contestId: Option<string>,
    languageId: string,
    code: string,
    submittedAt: string)

  /** The payload of a persistence job; either part may be missing from a malformed job. */
  datatype SubmissionRunnerResult = SubmissionRunnerResult(
    problemPoint: real,
    runnerResult: Option<CodeRunnerResult>,
    metadata: Option<SubmissionMetadata>)

  /** What one call of the execution engine is asked to run. */
  datatype ExecutionRequest = ExecutionRequest(code: string, languageId: string, input: string, expectedOutput: string)

  /** What the execution engine reports for one run. */
  datatype ExecutionResult = ExecutionResult(
    status: string,
    output: string,
    error: Option<string>,
    time: Option<Number>,
    compileError: Option<string>,
    memory: Option<Number>)

  /** A trial-run test case: the input and the expected output. */
  datatype TestCase = TestCase(input: string, output: string)

  /** A trial-run job as the trial-run worker reads it. */
  datatype RunJob = RunJob(runId: string, problemId: string, code: string, languageCode: string, testCases: seq<TestCase>)

  /** A stored test case of a problem, as the submission path fetches and caches it. */
  datatype TestcaseData = TestcaseData(
    id: string,
    weight: Option<real>,
    input: string,
    output: string,
    inputName: string,
    outputName: string)

  /** The `result` object of a trial-run snapshot; its `passedTestCases` holds the last case's flag. */
  datatype RunProgress = RunProgress(runId: string, totalTestCases: nat, passedTestCases: bool, results: seq<TestResult>)

  /** A value written to the status store, before its JSON encoding (so never the empty string). */
  datatype StoredValue =
    | StatusDoc(status: string, result: Option<RunProgress>, results: Option<seq<ExecutionResult>>)
    | TestcaseBundle(testcases: seq<TestcaseData>)

  function StatusOnly(status: string): StoredValue {
    StatusDoc(status, None, None)
  }
}
