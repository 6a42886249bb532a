/** The persistence worker: scores a graded run, shapes the submission and its result rows, and stores them with retries. */
module DbOperationWorker {
  import opened Wrappers
  import opened Js
  import opened Text
  import opened Errors
  import opened WorkerTypes

  // ---------------------------------------------------------------------------------------------
  // Weighted test-case score

  /** `testcase.weight ?? 1`: a missing weight counts as 1, a present one (even 0) as itself. */
  function WeightOf(t: TestResult): real {
    if t.weight.Some? then t.weight.value else 1.0
  }

  function TotalWeight(ts: seq<TestResult>): real {
    if ts == [] then 0.0 else TotalWeight(ts[..|ts| - 1]) + WeightOf(ts[|ts| - 1])
  }

  /** The weight of the cases that passed. */
  function PassedWeight(ts: seq<TestResult>): real {
    if ts == [] then 0.0
    else PassedWeight(ts[..|ts| - 1]) + (if ts[|ts| - 1].passed then WeightOf(ts[|ts| - 1]) else 0.0)
  }

  /** The normalised score sum(weight * passed) / sum(weight), and 0 when the total weight is not positive. */
  function WeightedScore(ts: seq<TestResult>): real {
    if TotalWeight(ts) > 0.0 then PassedWeight(ts) / TotalWeight(ts) else 0.0
  }

  /** `calculateWeightedScore`: one pass accumulating the passed weight and the total weight. */
  method CalculateWeightedScore(ts: seq<TestResult>) returns (score: real)
    ensures score == WeightedScore(ts)
  {
    var totalWeight := 0.0;
    var weightedScore := 0.0;
    for i := 0 to |ts|
      invariant totalWeight == TotalWeight(ts[..i])
      invariant weightedScore == PassedWeight(ts[..i])
    {
      assert ts[..i + 1][..i] == ts[..i];
      var weight := WeightOf(ts[i]);
      var s := if ts[i].passed then 1.0 else 0.0;
      weightedScore := weightedScore + s * weight;
      totalWeight := totalWeight + weight;
    }
    assert ts[..|ts|] == ts;
    score := if totalWeight > 0.0 then weightedScore / totalWeight else 0.0;
  }

  predicate NonNegativeWeights(ts: seq<TestResult>) {
    forall i :: 0 <= i < |ts| ==> WeightOf(ts[i]) >= 0.0
  }

  /** With non-negative weights the passed weight lies between 0 and the total weight. */
  lemma {:induction false} PassedWeightBounds(ts: seq<TestResult>)
    requires NonNegativeWeights(ts)
    ensures 0.0 <= PassedWeight(ts) <= TotalWeight(ts)
  {
    if ts != [] {
      assert forall i :: 0 <= i < |ts| - 1 ==> ts[..|ts| - 1][i] == ts[i];
      PassedWeightBounds(ts[..|ts| - 1]);
    }
  }

  /** With non-negative weights the score is a fraction in [0, 1]. */
  lemma WeightedScoreInUnitInterval(ts: seq<TestResult>)
    requires NonNegativeWeights(ts)
    ensures 0.0 <= WeightedScore(ts) <= 1.0
  {
    PassedWeightBounds(ts);
    if TotalWeight(ts) > 0.0 {
      var p, t := PassedWeight(ts), TotalWeight(ts);
      assert p / t <= 1.0 by {
        assert p / t * t == p;
      }
    }
  }

  /** When every case passed, the passed weight is the total weight, so a positive total scores exactly 1. */
  lemma {:induction false} AllPassedScoresOne(ts: seq<TestResult>)
    requires forall i :: 0 <= i < |ts| ==> ts[i].passed
    ensures PassedWeight(ts) == TotalWeight(ts)
    ensures TotalWeight(ts) > 0.0 ==> WeightedScore(ts) == 1.0
  {
    if ts != [] {
      assert forall i :: 0 <= i < |ts| - 1 ==> ts[..|ts| - 1][i] == ts[i];
      AllPassedScoresOne(ts[..|ts| - 1]);
    }
    if TotalWeight(ts) > 0.0 {
      DivSelf(TotalWeight(ts));
    }
  }

  /** A positive real divided by itself is 1. */
  lemma DivSelf(x: real)
    requires x > 0.0
    ensures x / x == 1.0
  {
  }

  /** When no case passed, the score is 0 whatever the weights. */
  lemma {:induction false} NonePassedScoresZero(ts: seq<TestResult>)
    requires forall i :: 0 <= i < |ts| ==> !ts[i].passed
    ensures PassedWeight(ts) == 0.0 && WeightedScore(ts) == 0.0
  {
    if ts != [] {
      assert forall i :: 0 <= i < |ts| - 1 ==> ts[..|ts| - 1][i] == ts[i];
      NonePassedScoresZero(ts[..|ts| - 1]);
    }
  }

  // ---------------------------------------------------------------------------------------------
  // Submission status

  /** The status of the first result that did not pass, and "Accepted" when every result passed. */
  function SubmissionStatus(ts: seq<TestResult>): string {
    if ts == [] then "Accepted" else if !ts[0].passed then ts[0].status else SubmissionStatus(ts[1..])
  }

  /** `determineSubmissionStatus`: scans the results in order and stops at the first that did not pass. */
  method DetermineSubmissionStatus(ts: seq<TestResult>) returns (status: string)
    ensures status == SubmissionStatus(ts)
  {
    for i := 0 to |ts|
      invariant SubmissionStatus(ts[i..]) == SubmissionStatus(ts)
    {
      assert ts[i..][1..] == ts[i + 1..];
      if !ts[i].passed {
        return ts[i].status;
      }
    }
    assert ts[|ts|..] == [];
    return "Accepted";
  }

  /** The first failing result decides the status. */
  lemma {:induction false} StatusOfFirstFailure(ts: seq<TestResult>, f: nat)
    requires f < |ts| && !ts[f].passed
    requires forall k :: 0 <= k < f ==> ts[k].passed
    ensures SubmissionStatus(ts) == ts[f].status
  {
    if f > 0 {
      assert forall k :: 0 <= k < f - 1 ==> ts[1..][k] == ts[k + 1];
      StatusOfFirstFailure(ts[1..], f - 1);
    }
  }

  /** With no failing result the status is "Accepted". */
  lemma {:induction false} StatusWhenAllPassed(ts: seq<TestResult>)
    requires forall k :: 0 <= k < |ts| ==> ts[k].passed
    ensures SubmissionStatus(ts) == "Accepted"
  {
    if ts != [] {
      assert forall k :: 0 <= k < |ts| - 1 ==> ts[1..][k] == ts[k + 1];
      StatusWhenAllPassed(ts[1..]);
    }
  }

  /** A status other than "Accepted" comes from some result that did not pass. */
  lemma {:induction false} StatusComesFromAFailure(ts: seq<TestResult>) returns (f: nat)
    requires SubmissionStatus(ts) != "Accepted"
    ensures f < |ts| && !ts[f].passed && ts[f].status == SubmissionStatus(ts)
  {
    if ts[0].passed {
      var g := StatusComesFromAFailure(ts[1..]);
      f := g + 1;
    } else {
      f := 0;
    }
  }

  // ---------------------------------------------------------------------------------------------
  // Resource maxima

  /** `Number.MIN_SAFE_INTEGER`, the start value of both maxima. */
  const MinSafeInteger: real := -9007199254740991.0

  function Max(a: real, b: real): real {
    if a >= b then a else b
  }

  /** `if (result.executionTime)`: the time counts when it is present, not NaN and not 0. */
  predicate TimeCounts(t: TestResult) {
    t.executionTime.Some? && t.executionTime.value.Finite? && t.executionTime.value.value != 0.0
  }

  /** `result.memory != null && !isNaN(result.memory)`: the memory counts when present and not NaN, 0 included. */
  predicate MemoryCounts(t: TestResult) {
    t.memory.Some? && t.memory.value.Finite?
  }

  /** The execution times that take part in the maximum, in order. */
  function CountedTimes(ts: seq<TestResult>): seq<real> {
    if ts == [] then []
    else CountedTimes(ts[..|ts| - 1]) + (if TimeCounts(ts[|ts| - 1]) then [ts[|ts| - 1].executionTime.value.value] else [])
  }

  /** The memory figures that take part in the maximum, in order. */
  function CountedMemories(ts: seq<TestResult>): seq<real> {
    if ts == [] then []
    else CountedMemories(ts[..|ts| - 1]) + (if MemoryCounts(ts[|ts| - 1]) then [ts[|ts| - 1].memory.value.value] else [])
  }

  /** The largest of `init` and `xs`. */
  function MaxOf(init: real, xs: seq<real>): real {
    if xs == [] then init else Max(MaxOf(init, xs[..|xs| - 1]), xs[|xs| - 1])
  }

  /** One more result extends the counted lists by that result's figure, when it counts. */
  lemma CountedAppend(ts: seq<TestResult>, i: nat)
    requires i < |ts|
    ensures CountedTimes(ts[..i + 1]) == CountedTimes(ts[..i]) + (if TimeCounts(ts[i]) then [ts[i].executionTime.value.value] else [])
    ensures CountedMemories(ts[..i + 1]) == CountedMemories(ts[..i]) + (if MemoryCounts(ts[i]) then [ts[i].memory.value.value] else [])
  {
    assert ts[..i + 1][..i] == ts[..i];
  }

  lemma MaxOfSnoc(init: real, xs: seq<real>, x: real)
    ensures MaxOf(init, xs + [x]) == Max(MaxOf(init, xs), x)
  {
    assert (xs + [x])[..|xs|] == xs;
  }

  /** MaxOf is an upper bound of `init` and of every element, and it is `init` or one of the elements. */
  lemma {:induction false} MaxOfIsMaximum(init: real, xs: seq<real>)
    ensures init <= MaxOf(init, xs)
    ensures forall i :: 0 <= i < |xs| ==> xs[i] <= MaxOf(init, xs)
    ensures MaxOf(init, xs) == init || MaxOf(init, xs) in xs
  {
    if xs != [] {
      var init' := xs[..|xs| - 1];
      MaxOfIsMaximum(init, init');
      assert forall i :: 0 <= i < |xs| - 1 ==> xs[i] == init'[i];
      assert MaxOf(init, init') in init' ==> MaxOf(init, init') in xs;
    }
  }

  /** A time counts exactly when it is a truthy number. */
  lemma TimeCountsIffTruthy(t: TestResult)
    ensures TimeCounts(t) <==> t.executionTime.Some? && Truthy(Num(t.executionTime.value))
  {
  }

  datatype Resources = Resources(maxExecutionTime: real, maxMemoryUsed: real)

  /** The aggregate of `calculateAverageResources`: (0, 0) for no results, otherwise the two maxima. */
  function ResourcesOf(ts: seq<TestResult>): Resources {
    if ts == [] then Resources(0.0, 0.0)
    else Resources(MaxOf(MinSafeInteger, CountedTimes(ts)), MaxOf(MinSafeInteger, CountedMemories(ts)))
  }

  /** `calculateAverageResources`: one pass keeping the two running maxima. */
  method CalculateAverageResources(ts: seq<TestResult>) returns (r: Resources)
    ensures r == ResourcesOf(ts)
  {
    if |ts| == 0 {
      return Resources(0.0, 0.0);
    }
    var maxExecutionTime := MinSafeInteger;
    var maxMemoryUsed := MinSafeInteger;
    for i := 0 to |ts|
      invariant maxExecutionTime == MaxOf(MinSafeInteger, CountedTimes(ts[..i]))
      invariant maxMemoryUsed == MaxOf(MinSafeInteger, CountedMemories(ts[..i]))
    {
      CountedAppend(ts, i);
      var t := ts[i];
      if TimeCounts(t) {
        MaxOfSnoc(MinSafeInteger, CountedTimes(ts[..i]), t.executionTime.value.value);
        maxExecutionTime := Max(maxExecutionTime, t.executionTime.value.value);
      } else {
        assert CountedTimes(ts[..i + 1]) == CountedTimes(ts[..i]);
      }
      if MemoryCounts(t) {
        MaxOfSnoc(MinSafeInteger, CountedMemories(ts[..i]), t.memory.value.value);
        maxMemoryUsed := Max(maxMemoryUsed, t.memory.value.value);
      } else {
        assert CountedMemories(ts[..i + 1]) == CountedMemories(ts[..i]);
      }
    }
    assert ts[..|ts|] == ts;
    r := Resources(maxExecutionTime, maxMemoryUsed);
  }

  /** A result whose time counts bounds the reported maximum time from below. */
  lemma {:induction false} CountedTimeBelowMax(ts: seq<TestResult>, i: nat)
    requires i < |ts| && TimeCounts(ts[i])
    ensures ts[i].executionTime.value.value <= ResourcesOf(ts).maxExecutionTime
  {
    CountedTimeIn(ts, i);
    MaxOfIsMaximum(MinSafeInteger, CountedTimes(ts));
  }

  lemma {:induction false} CountedTimeIn(ts: seq<TestResult>, i: nat)
    requires i < |ts| && TimeCounts(ts[i])
    ensures ts[i].executionTime.value.value in CountedTimes(ts)
  {
    if i < |ts| - 1 {
      assert ts[..|ts| - 1][i] == ts[i];
      CountedTimeIn(ts[..|ts| - 1], i);
    }
  }

  /** When no time counts (all missing, NaN or 0), the reported maximum time is MIN_SAFE_INTEGER. */
  lemma {:induction false} NoCountedTimeGivesMinSafe(ts: seq<TestResult>)
    requires ts != [] && forall i :: 0 <= i < |ts| ==> !TimeCounts(ts[i])
    ensures ResourcesOf(ts).maxExecutionTime == MinSafeInteger
  {
    NoCountedTimes(ts);
  }

  lemma {:induction false} NoCountedTimes(ts: seq<TestResult>)
    requires forall i :: 0 <= i < |ts| ==> !TimeCounts(ts[i])
    ensures CountedTimes(ts) == []
  {
    if ts != [] {
      assert forall i :: 0 <= i < |ts| - 1 ==> ts[..|ts| - 1][i] == ts[i];
      NoCountedTimes(ts[..|ts| - 1]);
    }
  }

  // ---------------------------------------------------------------------------------------------
  // Total score

  /** The score row of a problem; either weight may be null. */
  datatype ProblemScores = ProblemScores(problemWeight: Option<real>, testcaseWeight: Option<real>)

  const DefaultProblemWeight: real := 30.0
  const DefaultTestcaseWeight: real := 70.0

  /** `scores?.problemWeight ?? 30`. */
  function ProblemWeightOf(scores: Option<ProblemScores>): real {
    if scores.Some? && scores.value.problemWeight.Some? then scores.value.problemWeight.value else DefaultProblemWeight
  }

  /** `scores?.testcaseWeight ?? 70`. */
  function TestcaseWeightOf(scores: Option<ProblemScores>): real {
    if scores.Some? && scores.value.testcaseWeight.Some? then scores.value.testcaseWeight.value else DefaultTestcaseWeight
  }

  /** problemPoint * (completionFactor * pw + weighted * tw). */
  function ScoreFormula(problemPoint: real, completionFactor: real, pw: real, weighted: real, tw: real): real {
    problemPoint * (completionFactor * pw + weighted * tw)
  }

  /** The score before rounding: problemPoint * ((passed / total) * pw + weighted * tw); with no test cases
      counted the quotient is not a finite number, written None. */
  function RawScore(problemPoint: real, runner: CodeRunnerResult, scores: Option<ProblemScores>): Option<real> {
    if runner.totalTestCases == 0 then None
    else
      var completionFactor := runner.passedTestCases as real / runner.totalTestCases as real;
      Some(ScoreFormula(problemPoint, completionFactor, ProblemWeightOf(scores), WeightedScore(runner.results), TestcaseWeightOf(scores)))
  }

  /** `Math.round((value + Number.EPSILON) * 100) / 100`, rounding halves upwards, without the `Number.EPSILON`
      nudge: the result is a whole number of hundredths within half a hundredth of `x`. */
  function RoundToTwoDecimals(x: real): (r: real)
    ensures x - 0.005 < r <= x + 0.005
    ensures (r * 100.0).Floor as real == r * 100.0
  {
    ((x * 100.0 + 0.5).Floor as real) / 100.0
  }

  /** A value with at most two decimals is unchanged by the rounding. */
  lemma RoundKeepsCents(k: int)
    ensures RoundToTwoDecimals(k as real / 100.0) == k as real / 100.0
  {
    var y := k as real / 100.0 * 100.0 + 0.5;
    assert y == k as real + 0.5;
    FloorOfHalfAbove(k);
  }

  lemma FloorOfHalfAbove(k: int)
    ensures (k as real + 0.5).Floor == k
  {
    var f := (k as real + 0.5).Floor;
    assert f as real <= k as real + 0.5 < f as real + 1.0;
  }

  function TotalScore(problemPoint: real, runner: CodeRunnerResult, scores: Option<ProblemScores>): Option<real> {
    var raw := RawScore(problemPoint, runner, scores);
    if raw.Some? then Some(RoundToTwoDecimals(raw.value)) else None
  }

  /** With a sane run and non-negative weights the unrounded score lies between 0 and problemPoint * (pw + tw). */
  lemma RawScoreBounds(problemPoint: real, runner: CodeRunnerResult, scores: Option<ProblemScores>)
    requires 0.0 <= problemPoint
    requires 0 <= runner.passedTestCases <= runner.totalTestCases
    requires NonNegativeWeights(runner.results)
    requires 0.0 <= ProblemWeightOf(scores) && 0.0 <= TestcaseWeightOf(scores)
    ensures runner.totalTestCases == 0 <==> RawScore(problemPoint, runner, scores).None?
    ensures RawScore(problemPoint, runner, scores).Some? ==>
      0.0 <= RawScore(problemPoint, runner, scores).value <= problemPoint * (ProblemWeightOf(scores) + TestcaseWeightOf(scores))
  {
    if runner.totalTestCases > 0 {
      var c := runner.passedTestCases as real / runner.totalTestCases as real;
      FractionInUnitInterval(runner.passedTestCases, runner.totalTestCases);
      WeightedScoreInUnitInterval(runner.results);
      var pw, tw := ProblemWeightOf(scores), TestcaseWeightOf(scores);
      var w := WeightedScore(runner.results);
      ScoreShapeBound(problemPoint, c, pw, w, tw);
      assert RawScore(problemPoint, runner, scores) == Some(ScoreFormula(problemPoint, c, pw, w, tw));
    }
  }

  lemma FractionInUnitInterval(p: int, n: int)
    requires 0 <= p <= n && 0 < n
    ensures 0.0 <= p as real / n as real <= 1.0
  {
  }

  lemma ScaledBelow(c: real, x: real)
    requires 0.0 <= c <= 1.0 && 0.0 <= x
    ensures 0.0 <= c * x <= x
  {
  }

  lemma ScoreShapeBound(k: real, c: real, pw: real, w: real, tw: real)
    requires 0.0 <= k && 0.0 <= c <= 1.0 && 0.0 <= w <= 1.0 && 0.0 <= pw && 0.0 <= tw
    ensures 0.0 <= ScoreFormula(k, c, pw, w, tw) <= k * (pw + tw)
  {
    ScaledBelow(c, pw);
    ScaledBelow(w, tw);
    SumBelow(c * pw, w * tw, pw, tw);
    ScaledBelow2(k, c * pw + w * tw, pw + tw);
  }

  lemma SumBelow(a: real, b: real, x: real, y: real)
    requires 0.0 <= a <= x && 0.0 <= b <= y
    ensures 0.0 <= a + b <= x + y
  {
  }

  lemma ScaledBelow2(k: real, x: real, y: real)
    requires 0.0 <= k && 0.0 <= x <= y
    ensures 0.0 <= k * x <= k * y
  {
  }

  /** Every case passed and no score row exists: the score is problemPoint * (30 + 70), already a whole number for a whole point. */
  lemma FullMarksWithDefaults(problemPoint: real, runner: CodeRunnerResult)
    requires 0 < runner.totalTestCases && runner.passedTestCases == runner.totalTestCases
    requires forall i :: 0 <= i < |runner.results| ==> runner.results[i].passed
    requires TotalWeight(runner.results) > 0.0
    ensures RawScore(problemPoint, runner, None) == Some(100.0 * problemPoint)
  {
    AllPassedScoresOne(runner.results);
    assert runner.passedTestCases as real / runner.totalTestCases as real == 1.0;
  }

  // ---------------------------------------------------------------------------------------------
  // Result rows

  /** The row stored for one test case result. */
  datatype ResultRow = ResultRow(submissionId: string, testCaseId: string, status: string, executionTime: Number, memoryUsed: Number)

  function DigitChar(d: nat): char
    requires d < 10
  {
    ('0' as int + d) as char
  }

  /** The decimal numeral of `n`, as template literals print a non-negative integer. */
  function DecimalString(n: nat): (s: string)
    ensures s != []
    ensures forall i :: 0 <= i < |s| ==> '0' <= s[i] <= '9'
  {
    if n < 10 then [DigitChar(n)] else DecimalString(n / 10) + [DigitChar(n % 10)]
  }

  /** Reads a string of decimal digits back as a number. */
  function ParseDecimal(s: string): nat
    requires forall i :: 0 <= i < |s| ==> '0' <= s[i] <= '9'
  {
    if s == [] then 0 else 10 * ParseDecimal(s[..|s| - 1]) + (s[|s| - 1] as int - '0' as int)
  }

  /** The numeral reads back as the number it was printed from. */
  lemma {:induction false} DecimalRoundTrip(n: nat)
    ensures ParseDecimal(DecimalString(n)) == n
  {
    if n >= 10 {
      DecimalRoundTrip(n / 10);
      var s := DecimalString(n);
      assert s[..|s| - 1] == DecimalString(n / 10);
    }
  }

  /** `testcase_${index}`. */
  function FallbackId(index: nat): string {
    "testcase_" + DecimalString(index)
  }

  /** Distinct positions get distinct fallback ids. */
  lemma FallbackIdsDistinct(i: nat, j: nat)
    requires i != j
    ensures FallbackId(i) != FallbackId(j)
  {
    DecimalRoundTrip(i);
    DecimalRoundTrip(j);
    assert FallbackId(i)[9..] == DecimalString(i);
    assert FallbackId(j)[9..] == DecimalString(j);
  }

  /** `Number(result?.executionTime) ?? 0` as written: `Number(undefined)` is NaN and never nullish,
      so a missing time is stored as NaN. */
  function RowExecutionTimeAsWritten(t: TestResult): Number {
    if t.executionTime.Some? then t.executionTime.value else NaN
  }

  /** A result without an execution time gets a NaN time with the code as written. */
  lemma MissingTimeStoredAsNaN(t: TestResult)
    requires t.executionTime.None?
    ensures RowExecutionTimeAsWritten(t) == NaN
  {
  }

  /** The evident intent of `?? 0`: a missing execution time is stored as 0. */
  function RowExecutionTime(t: TestResult): (n: Number)
    ensures t.executionTime.None? ==> n == Finite(0.0)
    ensures t.executionTime.Some? ==> n == t.executionTime.value
    ensures n == NaN ==> t.executionTime == Some(NaN)
  {
    if t.executionTime.Some? then t.executionTime.value else Finite(0.0)
  }

  /** The rows of a submission as written: one per result, in result order, with the id, status and memory
      fallbacks, and a missing execution time stored as NaN. The source first drops null results; a result here is
      never null, so nothing is dropped and the fallback id numbers the results by their position in the list. */
  function ResultRows(submissionId: string, ts: seq<TestResult>): (rows: seq<ResultRow>)
    ensures |rows| == |ts|
    ensures forall i :: 0 <= i < |ts| ==> rows[i].submissionId == submissionId
    ensures forall i :: 0 <= i < |ts| ==>
      rows[i].testCaseId == (if ts[i].id.Some? then ts[i].id.value else FallbackId(i))
    ensures forall i :: 0 <= i < |ts| ==> rows[i].status == (if ts[i].status == "" then "Unknown" else ts[i].status)
    ensures forall i :: 0 <= i < |ts| ==> rows[i].executionTime == RowExecutionTimeAsWritten(ts[i])
    ensures forall i :: 0 <= i < |ts| ==> rows[i].memoryUsed == (if ts[i].memory.Some? then ts[i].memory.value else Finite(0.0))
  {
    seq(|ts|, i requires 0 <= i < |ts| =>
      ResultRow(
        submissionId,
        if ts[i].id.Some? then ts[i].id.value else FallbackId(i),
        if ts[i].status == "" then "Unknown" else ts[i].status,
        RowExecutionTimeAsWritten(ts[i]),
        if ts[i].memory.Some? then ts[i].memory.value else Finite(0.0)))
  }

  /** The rows as intended: the same rows with the execution time defaulting to 0. */
  function IntendedResultRows(submissionId: string, ts: seq<TestResult>): (rows: seq<ResultRow>)
    ensures |rows| == |ts|
    ensures forall i :: 0 <= i < |ts| ==> rows[i].executionTime == RowExecutionTime(ts[i])
  {
    var written := ResultRows(submissionId, ts);
    seq(|ts|, i requires 0 <= i < |ts| => written[i].(executionTime := RowExecutionTime(ts[i])))
  }

  /** The intended rows differ from the rows as written only in the time of a result that has none: NaN as written,
      0 as intended. Every other field agrees, and a present time is the same in both. */
  lemma IntendedRowsDifferOnlyInMissingTimes(submissionId: string, ts: seq<TestResult>, i: nat)
    requires i < |ts|
    ensures var w, c := ResultRows(submissionId, ts)[i], IntendedResultRows(submissionId, ts)[i];
      && c.submissionId == w.submissionId && c.testCaseId == w.testCaseId && c.status == w.status
      && c.memoryUsed == w.memoryUsed
      && (ts[i].executionTime.Some? ==> c.executionTime == w.executionTime)
      && (ts[i].executionTime.None? ==> w.executionTime == NaN && c.executionTime == Finite(0.0))
  {
  }

  /** Rows of results without ids have pairwise distinct test case ids. */
  lemma RowsWithoutIdsAreDistinct(submissionId: string, ts: seq<TestResult>, i: nat, j: nat)
    requires i < j < |ts| && ts[i].id.None? && ts[j].id.None?
    ensures ResultRows(submissionId, ts)[i].testCaseId != ResultRows(submissionId, ts)[j].testCaseId
  {
    FallbackIdsDistinct(i, j);
  }

  // ---------------------------------------------------------------------------------------------
  // Retries with exponential backoff

  /** What one call of an operation does: return a value or throw. */
  datatype Attempt<T, E> = Success(value: T) | Failure(error: E)

  function Pow2(k: nat): (p: nat)
    ensures p >= 1
  {
    if k == 0 then 1 else 2 * Pow2(k - 1)
  }

  /** The retry outcome from attempt `k` on: the first success, or the error of attempt `maxAttempts`. */
  function RetryFrom<T, E>(op: nat -> Attempt<T, E>, k: nat, maxAttempts: int): (Result<T, Option<E>>, nat)
    requires 1 <= k <= maxAttempts
    decreases maxAttempts - k
  {
    if op(k).Success? then (Ok(op(k).value), k)
    else if k == maxAttempts then (Err(Some(op(k).error)), k)
    else RetryFrom(op, k + 1, maxAttempts)
  }

  /** The outcome of `retryOperation` and the number of calls it makes; attempt `k` of the operation behaves as
      `op(k)`. With fewer than one attempt allowed it throws the unset `lastError`, written `Err(None)`. */
  function Retry<T, E>(op: nat -> Attempt<T, E>, maxAttempts: int): (Result<T, Option<E>>, nat) {
    if maxAttempts < 1 then (Err(None), 0) else RetryFrom(op, 1, maxAttempts)
  }

  /** The waits of a retry that made `attempts` calls: one after every failed call but the last,
      `baseDelay * 2^(k-1)` after call k. */
  function Backoff(baseDelay: int, attempts: nat): (delays: seq<int>)
    ensures |delays| == if attempts == 0 then 0 else attempts - 1
    ensures forall k :: 0 <= k < |delays| ==> delays[k] == baseDelay * Pow2(k)
  {
    if attempts <= 1 then [] else Backoff(baseDelay, attempts - 1) + [baseDelay * Pow2(attempts - 2)]
  }

  /** Each wait is twice the one before. */
  lemma BackoffDoubles(baseDelay: int, attempts: nat, k: nat)
    requires k + 1 < |Backoff(baseDelay, attempts)|
    ensures Backoff(baseDelay, attempts)[k + 1] == 2 * Backoff(baseDelay, attempts)[k]
  {
    assert Pow2(k + 1) == 2 * Pow2(k);
    assert baseDelay * (2 * Pow2(k)) == 2 * (baseDelay * Pow2(k));
  }

  /** `retryOperation`: calls the operation until it succeeds or `maxAttempts` calls have failed, waiting
      between calls; every error is retried alike. */
  method RetryOperation<T, E>(op: nat -> Attempt<T, E>, maxAttempts: int, baseDelay: int)
    returns (r: Result<T, Option<E>>, attempts: nat, delays: seq<int>)
    ensures (r, attempts) == Retry(op, maxAttempts)
    ensures delays == Backoff(baseDelay, attempts)
  {
    var lastError: Option<E> := None;
    attempts := 0;
    delays := [];
    var attempt: nat := 1;
    while attempt <= maxAttempts
      invariant 1 <= attempt && (attempt == 1 || attempt <= maxAttempts)
      invariant attempts == attempt - 1
      invariant delays == Backoff(baseDelay, attempt)
      invariant attempt == 1 ==> lastError == None
      invariant attempt <= maxAttempts ==> Retry(op, maxAttempts) == RetryFrom(op, attempt, maxAttempts)
      decreases maxAttempts - attempt
    {
      attempts := attempt;
      var outcome := op(attempt);
      if outcome.Success? {
        return Ok(outcome.value), attempts, delays;
      }
      lastError := Some(outcome.error);
      if attempt == maxAttempts {
        break;
      }
      var delay := baseDelay * Pow2(attempt - 1);
      delays := delays + [delay];
      attempt := attempt + 1;
    }
    r := Err(lastError);
  }

  lemma {:induction false} RetryFromFacts<T, E>(op: nat -> Attempt<T, E>, k: nat, maxAttempts: int)
    requires 1 <= k <= maxAttempts
    ensures var (res, attempts) := RetryFrom(op, k, maxAttempts);
      && k <= attempts <= maxAttempts
      && (forall j :: k <= j < attempts ==> op(j).Failure?)
      && (res.Ok? ==> op(attempts).Success? && res.value == op(attempts).value)
      && (res.Err? ==> attempts == maxAttempts && op(attempts).Failure? && res.error == Some(op(attempts).error))
    decreases maxAttempts - k
  {
    if op(k).Failure? && k < maxAttempts {
      RetryFromFacts(op, k + 1, maxAttempts);
    }
  }

  /** With at least one attempt allowed: at most `maxAttempts` calls; the result is the first success, every
      earlier call failed, and a failure is the error of the last of `maxAttempts` failed calls. */
  lemma RetryFacts<T, E>(op: nat -> Attempt<T, E>, maxAttempts: int)
    requires 1 <= maxAttempts
    ensures var (res, attempts) := Retry(op, maxAttempts);
      && 1 <= attempts <= maxAttempts
      && (forall j :: 1 <= j < attempts ==> op(j).Failure?)
      && (res.Ok? ==> op(attempts).Success? && res.value == op(attempts).value)
      && (res.Err? ==> attempts == maxAttempts && op(maxAttempts).Failure? && res.error == Some(op(maxAttempts).error))
  {
    RetryFromFacts(op, 1, maxAttempts);
  }

  /** Two operations that succeed on the same calls with the same values are retried identically, whatever errors
      they throw: the kind of error never decides whether another attempt is made. */
  lemma {:induction false} RetryIgnoresErrorKind<T, E>(op: nat -> Attempt<T, E>, op': nat -> Attempt<T, E>, k: nat, maxAttempts: int)
    requires 1 <= k <= maxAttempts
    requires forall j :: k <= j <= maxAttempts ==> op(j).Success? == op'(j).Success?
    requires forall j :: k <= j <= maxAttempts && op(j).Success? ==> op(j).value == op'(j).value
    ensures RetryFrom(op, k, maxAttempts).1 == RetryFrom(op', k, maxAttempts).1
    ensures RetryFrom(op, k, maxAttempts).0.Ok? == RetryFrom(op', k, maxAttempts).0.Ok?
    ensures RetryFrom(op, k, maxAttempts).0.Ok? ==> RetryFrom(op, k, maxAttempts).0 == RetryFrom(op', k, maxAttempts).0
    decreases maxAttempts - k
  {
    if op(k).Failure? && k < maxAttempts {
      RetryIgnoresErrorKind(op, op', k + 1, maxAttempts);
    }
  }

  // ---------------------------------------------------------------------------------------------
  // Error classifiers (they only choose a log line)

  /** `e[key]` on a thrown value: an own field of an object, undefined on anything else. */
  function Field(e: Value, key: string): Value {
    if e.Obj? then Get(e.fields, key) else Undefined
  }

  /** `typeof e.message === 'string' && e.message.includes(sub)`. */
  predicate MessageIncludes(e: Value, sub: string) {
    Field(e, "message").Str? && Includes(Field(e, "message").s, sub)
  }

  predicate HasCode(e: Value, code: string) {
    Field(e, "code") == Str(code)
  }

  /** `isDatabaseConstraintError`. */
  predicate IsDatabaseConstraintError(e: Value) {
    Truthy(e) && (HasCode(e, "23505") || HasCode(e, "23503") || HasCode(e, "ER_DUP_ENTRY")
                  || Truthy(Field(e, "constraint")) || MessageIncludes(e, "constraint"))
  }

  /** `isNetworkError`. */
  predicate IsNetworkError(e: Value) {
    Truthy(e) && (HasCode(e, "ECONNREFUSED") || HasCode(e, "ENOTFOUND") || HasCode(e, "ETIMEDOUT")
                  || MessageIncludes(e, "network") || MessageIncludes(e, "connection") || MessageIncludes(e, "timeout"))
  }

  /** `isValidationError`. */
  predicate IsValidationError(e: Value) {
    Truthy(e) && (Field(e, "name") == Str("ValidationError")
                  || MessageIncludes(e, "validation") || MessageIncludes(e, "required") || MessageIncludes(e, "invalid"))
  }

  /** The extra log line the worker's catch block writes before rethrowing. */
  datatype LogLine = ConstraintViolation | NetworkFailure | ValidationFailure | NoExtraLine

  /** The classifiers are tried in order: constraint, then network, then validation. */
  function LogLineFor(e: Value): (line: LogLine)
    ensures line == ConstraintViolation <==> IsDatabaseConstraintError(e)
    ensures line == NetworkFailure <==> !IsDatabaseConstraintError(e) && IsNetworkError(e)
    ensures line == ValidationFailure <==> !IsDatabaseConstraintError(e) && !IsNetworkError(e) && IsValidationError(e)
  {
    if IsDatabaseConstraintError(e) then ConstraintViolation
    else if IsNetworkError(e) then NetworkFailure
    else if IsValidationError(e) then ValidationFailure
    else NoExtraLine
  }

  /** A falsy thrown value gets no extra line. */
  lemma FalsyThrownValueUnclassified(e: Value)
    requires !Truthy(e)
    ensures LogLineFor(e) == NoExtraLine
  {
  }

  function ErrorWithMessage(message: string): Value {
    Obj([("message", Str(message))])
  }

  /** The message tests are case-sensitive: "invalid" marks a validation error, "Invalid" does not. */
  lemma MessageTestsAreCaseSensitive()
    ensures IsValidationError(ErrorWithMessage("invalid"))
    ensures !IsValidationError(ErrorWithMessage("Invalid"))
  {
    assert StartsWith("invalid", "invalid");
    IncludesNeedsRoom("Invalid", "validation");
    IncludesNeedsRoom("Invalid", "required");
    assert !Includes("Invalid", "invalid") by {
      assert "Invalid"[0] != "invalid"[0];
      IncludesNeedsRoom("Invalid"[1..], "invalid");
    }
  }

  /** A message mentioning a timeout is a network error even without an error code. */
  lemma TimeoutMessageIsNetworkError(message: string)
    requires Includes(message, "timeout")
    ensures IsNetworkError(ErrorWithMessage(message))
  {
  }

  // ---------------------------------------------------------------------------------------------
  // The job handler

  const MaxAttempts: int := 3
  const BaseDelay: int := 1000

  /** The submission record handed to the repository. */
  datatype SubmissionData = SubmissionData(
    problemId: string,
    studentId: string,
    contestId: Option<string>,
    languageId: string,
    code: string,
    submittedAt: string,
    score: Option<real>,
    status: string,
    memoryUsed: real,
    executionTime: real)

  /** What the handler returns on success. */
  datatype JobSummary = JobSummary(submissionId: string, totalScore: Option<real>, status: string, resultsCount: int)

  /** `{...metadata, code: encode(metadata.code), score, status, memoryUsed, executionTime}`. */
  function SubmissionDataFor(meta: SubmissionMetadata, encode: string -> string, score: Option<real>, status: string, res: Resources): SubmissionData {
    SubmissionData(meta.problemId, meta.studentId, meta.contestId, meta.languageId, encode(meta.code), meta.submittedAt,
                   score, status, res.maxMemoryUsed, res.maxExecutionTime)
  }

  /** The message of the TypeError raised by reading `runId` of a missing runner result. */
  const RunIdReadError: string := "Cannot read properties of undefined (reading 'runId')"

  /** The job passes validation: both parts are present and there is at least one result. */
  predicate WellFormedJob(job: SubmissionRunnerResult) {
    job.runnerResult.Some? && job.metadata.Some? && job.runnerResult.value.results != []
  }

  /** What the second half of the handler returns, and the repository calls it makes: the submission is created
      with retries, then its rows are written (`StoredRows`); a missing or empty id ends it with its own error. */
  function Persisted(rr: CodeRunnerResult, data: SubmissionData,
                     createSubmission: SubmissionData -> nat -> Attempt<Option<string>, Error>,
                     createResults: seq<ResultRow> -> nat -> Attempt<bool, Error>): (res: (Result<JobSummary, Error>, nat))
    ensures 1 <= res.1 <= 2 * MaxAttempts
    ensures res.0.Ok? ==> res.0.value.submissionId != "" && res.0.value.totalScore == data.score && res.0.value.status == data.status
  {
    var created := Retry(createSubmission(data), MaxAttempts);
    RetryFacts(createSubmission(data), MaxAttempts);
    if created.0.Err? then (Err(created.0.error.value), created.1)
    else if created.0.value.None? || created.0.value.value == "" then
      (Err(Plain("Failed to create submission: invalid submission object returned")), created.1)
    else
      var stored := StoredRows(created.0.value.value, rr, data, createResults);
      (stored.0, created.1 + stored.1)
  }

  /** The rows half of `Persisted` for the created id `id`: one row per result, written with retries; an empty set
      of rows, a thrown write or a falsy answer each give their own error, and success reports the id, score,
      status and passedTestCases, or the row count when that is 0. */
  function StoredRows(id: string, rr: CodeRunnerResult, data: SubmissionData,
                      createResults: seq<ResultRow> -> nat -> Attempt<bool, Error>): (res: (Result<JobSummary, Error>, nat))
    ensures res.1 <= MaxAttempts
    ensures res.0.Ok? ==> res.0.value.submissionId == id && res.0.value.totalScore == data.score && res.0.value.status == data.status
  {
    var rows := ResultRows(id, rr.results);
    if |rows| == 0 then (Err(Plain("No valid submission results to create")), 0)
    else
      var stored := Retry(createResults(rows), MaxAttempts);
      RetryFacts(createResults(rows), MaxAttempts);
      if stored.0.Err? then (Err(stored.0.error.value), stored.1)
      else if !stored.0.value then (Err(Plain("Failed to create submission results")), stored.1)
      else (Ok(JobSummary(id, data.score, data.status, if rr.passedTestCases != 0 then rr.passedTestCases else |rows|)), stored.1)
  }

  /** The second half of the handler: creates the submission, then its result rows, each with retries. */
  method PersistSubmission(rr: CodeRunnerResult, data: SubmissionData,
                           createSubmission: SubmissionData -> nat -> Attempt<Option<string>, Error>,
                           createResults: seq<ResultRow> -> nat -> Attempt<bool, Error>)
    returns (r: Result<JobSummary, Error>, calls: nat)
    requires rr.results != []
    ensures (r, calls) == Persisted(rr, data, createSubmission, createResults)
    ensures calls >= 1
    ensures r.Ok? ==> r.value.totalScore == data.score && r.value.status == data.status
    ensures var created := Retry(createSubmission(data), MaxAttempts);
      && (created.0.Err? ==> r == Err(created.0.error.value) && calls == created.1)
      && (created.0.Ok? && (created.0.value.None? || created.0.value.value == "") ==>
            r == Err(Plain("Failed to create submission: invalid submission object returned")) && calls == created.1)
      && (created.0.Ok? && created.0.value.Some? && created.0.value.value != "" ==>
            var id := created.0.value.value;
            var rows := ResultRows(id, rr.results);
            var stored := Retry(createResults(rows), MaxAttempts);
            && calls == created.1 + stored.1
            && (stored.0.Err? ==> r == Err(stored.0.error.value))
            && (stored.0 == Ok(false) ==> r == Err(Plain("Failed to create submission results")))
            && (stored.0 == Ok(true) ==>
                  r == Ok(JobSummary(id, data.score, data.status,
                                     if rr.passedTestCases != 0 then rr.passedTestCases else |rows|))))
  {
    var submission, n2, _ := RetryOperation(createSubmission(data), MaxAttempts, BaseDelay);
    calls := n2;
    RetryFacts(createSubmission(data), MaxAttempts);
    if submission.Err? {
      return Err(submission.error.value), calls;
    }
    if submission.value.None? || submission.value.value == "" {
      return Err(Plain("Failed to create submission: invalid submission object returned")), calls;
    }
    var id := submission.value.value;
    var rows := ResultRows(id, rr.results);
    if |rows| == 0 {
      assert false;
      return Err(Plain("No valid submission results to create")), calls;
    }
    var submissionResults, n3, _ := RetryOperation(createResults(rows), MaxAttempts, BaseDelay);
    calls := calls + n3;
    RetryFacts(createResults(rows), MaxAttempts);
    if submissionResults.Err? {
      return Err(submissionResults.error.value), calls;
    }
    if !submissionResults.value {
      return Err(Plain("Failed to create submission results")), calls;
    }
    var resultsCount := if rr.passedTestCases != 0 then rr.passedTestCases else |rows|;
    r := Ok(JobSummary(id, data.score, data.status, resultsCount));
  }

  /** The submission record a well-formed job persists, given the score row the lookup returned. */
  function DataFor(job: SubmissionRunnerResult, encode: string -> string, scores: Option<ProblemScores>): SubmissionData
    requires WellFormedJob(job)
  {
    var rr := job.runnerResult.value;
    SubmissionDataFor(job.metadata.value, encode, TotalScore(job.problemPoint, rr, scores), SubmissionStatus(rr.results), ResourcesOf(rr.results))
  }

  /** The score lines of the handler: completion factor times the problem weight plus the weighted score times the
      test case weight, scaled by the problem's point and rounded. */
  method ComputeTotalScore(problemPoint: real, rr: CodeRunnerResult, scores: Option<ProblemScores>) returns (totalScore: Option<real>)
    ensures totalScore == TotalScore(problemPoint, rr, scores)
  {
    var weighted := CalculateWeightedScore(rr.results);
    if rr.totalTestCases == 0 {
      return None;
    }
    var completionFactor := rr.passedTestCases as real / rr.totalTestCases as real;
    var raw := ScoreFormula(problemPoint, completionFactor, ProblemWeightOf(scores), weighted, TestcaseWeightOf(scores));
    totalScore := Some(RoundToTwoDecimals(raw));
  }

  /** The database worker's handler. Each repository is a function from its argument and the attempt number to
      what that call does; `calls` counts the repository calls made. */
  method ProcessJob(job: SubmissionRunnerResult,
                    getScore: nat -> Attempt<Option<ProblemScores>, Error>,
                    createSubmission: SubmissionData -> nat -> Attempt<Option<string>, Error>,
                    createResults: seq<ResultRow> -> nat -> Attempt<bool, Error>,
                    encode: string -> string)
    returns (r: Result<JobSummary, Error>, calls: nat, persisted: Option<SubmissionData>)
    ensures job.runnerResult.None? ==> r == Err(TypeError(RunIdReadError)) && calls == 0
    ensures job.runnerResult.Some? && job.metadata.None? ==> r == Err(Plain("Invalid job data: missing runnerResult or metadata")) && calls == 0
    ensures job.runnerResult.Some? && job.metadata.Some? && job.runnerResult.value.results == [] ==>
      r == Err(Plain("Invalid job data: no test case results found")) && calls == 0
    ensures !WellFormedJob(job) || Retry(getScore, MaxAttempts).0.Err? ==> persisted == None
    ensures WellFormedJob(job) && Retry(getScore, MaxAttempts).0.Err? ==>
      r == Err(Retry(getScore, MaxAttempts).0.error.value) && calls == Retry(getScore, MaxAttempts).1
    ensures WellFormedJob(job) && Retry(getScore, MaxAttempts).0.Ok? ==>
      persisted == Some(DataFor(job, encode, Retry(getScore, MaxAttempts).0.value)) && calls >= Retry(getScore, MaxAttempts).1 + 1
    ensures WellFormedJob(job) && Retry(getScore, MaxAttempts).0.Ok? ==>
      && persisted.Some?
      && r == Persisted(job.runnerResult.value, persisted.value, createSubmission, createResults).0
      && calls == Retry(getScore, MaxAttempts).1 + Persisted(job.runnerResult.value, persisted.value, createSubmission, createResults).1
    ensures r.Ok? ==> persisted.Some? && r.value.totalScore == persisted.value.score && r.value.status == persisted.value.status
  {
    persisted := None;
    if job.runnerResult.None? {
      return Err(TypeError(RunIdReadError)), 0, None;
    }
    var runnerResult := job.runnerResult.value;
    if job.metadata.None? {
      return Err(Plain("Invalid job data: missing runnerResult or metadata")), 0, None;
    }
    var metadata := job.metadata.value;
    if |runnerResult.results| == 0 {
      return Err(Plain("Invalid job data: no test case results found")), 0, None;
    }
    var resources := CalculateAverageResources(runnerResult.results);
    var scores, n1, _ := RetryOperation(getScore, MaxAttempts, BaseDelay);
    RetryFacts(getScore, MaxAttempts);
    if scores.Err? {
      return Err(scores.error.value), n1, None;
    }
    var status := DetermineSubmissionStatus(runnerResult.results);
    var totalScore := ComputeTotalScore(job.problemPoint, runnerResult, scores.value);
    var submissionData := SubmissionDataFor(metadata, encode, totalScore, status, resources);
    persisted := Some(submissionData);
    var n2;
    r, n2 := PersistSubmission(runnerResult, submissionData, createSubmission, createResults);
    calls := n1 + n2;
  }
}
