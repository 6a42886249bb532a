/** The trial-run worker: grades each test case in turn and streams snapshots to the status store. */
module CodeRunnerWorker {
  import opened Wrappers
  import opened Text
  import opened WorkerTypes
  import opened StatusStore

  /** The execution engine's answer to one call: a report, or the error the call threw. */
  datatype ExecOutcome = Executed(result: ExecutionResult) | Threw(message: string)

  /** The engine request for test case `i`: the job's code and language with the case's input and expected output. */
  function Request(job: RunJob, i: nat): ExecutionRequest
    requires i < |job.testCases|
  {
    ExecutionRequest(job.code, job.languageCode, job.testCases[i].input, job.testCases[i].output)
  }

  /** The pass predicate: an "Accepted" run whose output equals the expected output after trimming both. */
  predicate Passes(r: ExecutionResult, expected: string) {
    r.status == "Accepted" && Trim(r.output) == Trim(expected)
  }

  /** Whitespace around the output never decides a verdict. */
  lemma PassesIgnoresOuterWhitespace(r: ExecutionResult, expected: string)
    ensures Passes(r, expected) <==> Passes(r.(output := Trim(r.output)), Trim(expected))
  {
    TrimIdempotent(r.output);
    TrimIdempotent(expected);
  }

  /** What the two calls after a case's push do: both return, the snapshot write throws, or the progress update throws.
      Either throw lands in the same catch block as an engine error. */
  datatype Fault = NoFault | WriteFails(message: string) | ProgressFails(message: string)

  /** The entry the catch block pushes for an error with the given message. */
  function RuntimeErrorEntry(message: string): TestResult {
    TestResult(None, "Runtime Error", "", None, Some(message), None, None, None, false)
  }

  /** The first entry pushed for one test case: its grade, or the catch block's entry when the engine threw. */
  function Grade(tc: TestCase, outcome: ExecOutcome): (r: TestResult)
    ensures outcome.Executed? ==>
      && r.status == outcome.result.status && r.output == outcome.result.output
      && r.executionTime == outcome.result.time && r.memory == outcome.result.memory
      && (r.passed <==> Passes(outcome.result, tc.output))
    ensures outcome.Threw? ==>
      r.status == "Runtime Error" && r.output == "" && r.runtimeError == Some(outcome.message) && !r.passed
    ensures r.id == None && r.weight == None
  {
    match outcome
    case Executed(e) =>
      TestResult(None, e.status, e.output, e.compileError, e.error, e.time, e.memory, None, Passes(e, tc.output))
    case Threw(m) => RuntimeErrorEntry(m)
  }

  /** Case `i` ran, and then the snapshot write or the progress update threw. */
  predicate SideFault(job: RunJob, exec: ExecutionRequest -> ExecOutcome, faults: nat -> Fault, i: nat)
    requires i < |job.testCases|
  {
    exec(Request(job, i)).Executed? && !faults(i).NoFault?
  }

  /** The entries case `i` pushes: its grade, then the catch block's entry when a call after the push threw. */
  function CaseEntries(job: RunJob, exec: ExecutionRequest -> ExecOutcome, faults: nat -> Fault, i: nat): seq<TestResult>
    requires i < |job.testCases|
  {
    [Grade(job.testCases[i], exec(Request(job, i)))]
      + (if SideFault(job, exec, faults, i) then [RuntimeErrorEntry(faults(i).message)] else [])
  }

  /** The `results` list after the first `i` test cases, in push order. */
  function Graded(job: RunJob, exec: ExecutionRequest -> ExecOutcome, faults: nat -> Fault, i: nat): (rs: seq<TestResult>)
    requires i <= |job.testCases|
    ensures i <= |rs| <= 2 * i
  {
    if i == 0 then [] else Graded(job, exec, faults, i - 1) + CaseEntries(job, exec, faults, i - 1)
  }

  /** A later results list extends an earlier one, by at least one entry per case in between. */
  lemma {:induction false} GradedPrefix(job: RunJob, exec: ExecutionRequest -> ExecOutcome, faults: nat -> Fault, i: nat, j: nat)
    requires i <= j <= |job.testCases|
    ensures Graded(job, exec, faults, i) <= Graded(job, exec, faults, j)
    ensures |Graded(job, exec, faults, j)| - |Graded(job, exec, faults, i)| >= j - i
    decreases j - i
  {
    if i < j {
      GradedPrefix(job, exec, faults, i, j - 1);
      var a, b, c := Graded(job, exec, faults, i), Graded(job, exec, faults, j - 1), Graded(job, exec, faults, j);
      assert c[..|b|] == b;
      assert c[..|a|] == b[..|a|];
    }
  }

  /** Without a throw after a push, the results list holds exactly one entry per case. */
  lemma {:induction false} OneEntryPerCase(job: RunJob, exec: ExecutionRequest -> ExecOutcome, faults: nat -> Fault, i: nat)
    requires i <= |job.testCases|
    requires forall k :: 0 <= k < i ==> !SideFault(job, exec, faults, k)
    ensures |Graded(job, exec, faults, i)| == i
  {
    if i > 0 {
      OneEntryPerCase(job, exec, faults, i - 1);
    }
  }

  /** Without a throw after a push, entry `k` of the results list is the grade of test case `k`. */
  lemma {:induction false} GradedAt(job: RunJob, exec: ExecutionRequest -> ExecOutcome, faults: nat -> Fault, i: nat, k: nat)
    requires k < i <= |job.testCases|
    requires forall j :: 0 <= j < i ==> !SideFault(job, exec, faults, j)
    ensures Graded(job, exec, faults, i)[k] == Grade(job.testCases[k], exec(Request(job, k)))
  {
    OneEntryPerCase(job, exec, faults, i - 1);
    if k < i - 1 {
      GradedAt(job, exec, faults, i - 1, k);
    }
  }

  /** A throw after case `i`'s push leaves two adjacent entries for that case, its grade and then a failed
      "Runtime Error" entry with the thrown message, so the final list is longer than the number of cases. */
  lemma SideFaultDuplicatesCase(job: RunJob, exec: ExecutionRequest -> ExecOutcome, faults: nat -> Fault, i: nat)
    requires i < |job.testCases| && SideFault(job, exec, faults, i)
    ensures var rs, at := Graded(job, exec, faults, |job.testCases|), |Graded(job, exec, faults, i)|;
      && |rs| > |job.testCases| && at + 1 < |rs|
      && rs[at] == Grade(job.testCases[i], exec(Request(job, i)))
      && rs[at + 1] == RuntimeErrorEntry(faults(i).message)
  {
    GradedPrefix(job, exec, faults, i + 1, |job.testCases|);
    var at := |Graded(job, exec, faults, i)|;
    var step := Graded(job, exec, faults, i + 1);
    assert step[at] == Grade(job.testCases[i], exec(Request(job, i)));
    assert step[at + 1] == RuntimeErrorEntry(faults(i).message);
  }

  function CountPassed(rs: seq<TestResult>): nat {
    if rs == [] then 0 else CountPassed(rs[..|rs| - 1]) + (if rs[|rs| - 1].passed then 1 else 0)
  }

  /** The indices of the passed entries. */
  function PassedIndices(rs: seq<TestResult>): set<nat> {
    set k: nat | k < |rs| && rs[k].passed
  }

  /** The pass counter equals the number of entries whose `passed` flag is set. */
  lemma {:induction false} CountPassedIsCardinality(rs: seq<TestResult>)
    ensures CountPassed(rs) == |PassedIndices(rs)|
    ensures CountPassed(rs) <= |rs|
  {
    if rs != [] {
      var init := rs[..|rs| - 1];
      CountPassedIsCardinality(init);
      var last := |rs| - 1;
      if rs[last].passed {
        assert PassedIndices(rs) == PassedIndices(init) + {last};
      } else {
        assert PassedIndices(rs) == PassedIndices(init);
      }
    }
  }

  /** `Math.round(((i + 1) / n) * 100)` on exact rationals: round half up of 100k/n. */
  function RoundPercent(k: nat, n: nat): int
    requires 0 < n
  {
    (200 * k + n) / (2 * n)
  }

  lemma RoundPercentBounds(k: nat, n: nat)
    requires 0 < n && k <= n
    ensures 0 <= RoundPercent(k, n) <= 100
    ensures RoundPercent(n, n) == 100
    ensures 2 * n * RoundPercent(k, n) <= 200 * k + n < 2 * n * (RoundPercent(k, n) + 1)
  {
    var a, d := 200 * k + n, 2 * n;
    var q := a / d;
    assert d * q <= a < d * q + d;
    assert d * (101 - q) == d * 101 - d * q;
    PositiveFactor(d, 101 - q);
    assert d * (q + 1) == d * q + d;
    PositiveFactor(d, q + 1);
    DivideExactly(201 * n, d, 100);
  }

  /** A positive factor keeps the sign of the other: a non-positive factor gives a non-positive product. */
  lemma PositiveFactor(c: int, x: int)
    requires c > 0
    ensures c * x > 0 ==> x > 0
  {
  }

  /** Euclidean division by `d` gives `q` exactly when `a` lies in `[d * q, d * q + d)`. */
  lemma DivideExactly(a: int, d: int, q: int)
    requires d > 0 && d * q <= a < d * q + d
    ensures a / d == q
  {
    var p := a / d;
    assert d * p <= a < d * p + d;
    assert d * (q - p + 1) == d * q - d * p + d;
    PositiveFactor(d, q - p + 1);
    assert d * (p - q + 1) == d * p - d * q + d;
    PositiveFactor(d, p - q + 1);
  }

  /** Counting over a concatenation adds the counts. */
  lemma {:induction false} CountPassedAppend(a: seq<TestResult>, b: seq<TestResult>)
    ensures CountPassed(a + b) == CountPassed(a) + CountPassed(b)
    decreases |b|
  {
    if b != [] {
      var init := b[..|b| - 1];
      assert (a + b)[..|a + b| - 1] == a + init;
      assert (a + b)[|a + b| - 1] == b[|b| - 1];
      CountPassedAppend(a, init);
    } else {
      assert a + b == a;
    }
  }

  /** The pass counter never exceeds the number of cases, although a case may leave two entries: the catch block's
      entry is never a passed one. */
  lemma {:induction false} PassedAtMostCases(job: RunJob, exec: ExecutionRequest -> ExecOutcome, faults: nat -> Fault, i: nat)
    requires i <= |job.testCases|
    ensures CountPassed(Graded(job, exec, faults, i)) <= i
  {
    if i > 0 {
      PassedAtMostCases(job, exec, faults, i - 1);
      var es := CaseEntries(job, exec, faults, i - 1);
      CountPassedAppend(Graded(job, exec, faults, i - 1), es);
      PassedOfCaseEntries(job, exec, faults, i - 1);
    }
  }

  /** A case's entries hold at most one passed entry: the catch block's entry is never passed. */
  lemma PassedOfCaseEntries(job: RunJob, exec: ExecutionRequest -> ExecOutcome, faults: nat -> Fault, i: nat)
    requires i < |job.testCases|
    ensures CountPassed(CaseEntries(job, exec, faults, i)) == if Grade(job.testCases[i], exec(Request(job, i))).passed then 1 else 0
  {
    var es := CaseEntries(job, exec, faults, i);
    assert es[0] == Grade(job.testCases[i], exec(Request(job, i)));
    if |es| == 2 {
      assert !es[1].passed && es[..1] == [es[0]];
      assert CountPassed(es) == CountPassed([es[0]]);
    }
    assert [es[0]][..0] == [];
    assert CountPassed([es[0]]) == if es[0].passed then 1 else 0;
  }

  /** The running snapshot written after test case `i` ran: its own pass flag and the results pushed so far. */
  function Snapshot(job: RunJob, exec: ExecutionRequest -> ExecOutcome, faults: nat -> Fault, i: nat): StoredValue
    requires i < |job.testCases|
  {
    var g := Grade(job.testCases[i], exec(Request(job, i)));
    StatusDoc("Running", Some(RunProgress(job.runId, |job.testCases|, g.passed, Graded(job, exec, faults, i) + [g])), None)
  }

  /** Case `i` writes a snapshot: it ran, and the write did not throw. */
  predicate Writes(job: RunJob, exec: ExecutionRequest -> ExecOutcome, faults: nat -> Fault, i: nat)
    requires i < |job.testCases|
  {
    exec(Request(job, i)).Executed? && !faults(i).WriteFails?
  }

  /** The store writes made by the first `i` test cases: one snapshot per case that ran and whose write went through. */
  function CaseWrites(job: RunJob, exec: ExecutionRequest -> ExecOutcome, faults: nat -> Fault, i: nat): seq<(string, StoredValue)>
    requires i <= |job.testCases|
  {
    if i == 0 then []
    else CaseWrites(job, exec, faults, i - 1)
         + (if Writes(job, exec, faults, i - 1) then [(job.runId, Snapshot(job, exec, faults, i - 1))] else [])
  }

  /** The value the store holds for the run after the first `i` test cases: the latest snapshot, or "Running". */
  function LatestValue(job: RunJob, exec: ExecutionRequest -> ExecOutcome, faults: nat -> Fault, i: nat): StoredValue
    requires i <= |job.testCases|
  {
    if i == 0 then StatusOnly("Running")
    else if Writes(job, exec, faults, i - 1) then Snapshot(job, exec, faults, i - 1)
    else LatestValue(job, exec, faults, i - 1)
  }

  /** The stored value is the one written last: the initial "Running" write followed by the case snapshots. */
  lemma {:induction false} LatestIsLastWrite(job: RunJob, exec: ExecutionRequest -> ExecOutcome, faults: nat -> Fault, i: nat)
    requires i <= |job.testCases|
    ensures var ws := [(job.runId, StatusOnly("Running"))] + CaseWrites(job, exec, faults, i);
      LatestValue(job, exec, faults, i) == ws[|ws| - 1].1
  {
    if i > 0 {
      LatestIsLastWrite(job, exec, faults, i - 1);
    }
  }

  /** The progress updates made by the first `i` test cases: one per case that ran and whose two calls both returned. */
  function ProgressUpdates(job: RunJob, exec: ExecutionRequest -> ExecOutcome, faults: nat -> Fault, i: nat): seq<int>
    requires i <= |job.testCases|
  {
    if i == 0 then []
    else ProgressUpdates(job, exec, faults, i - 1)
         + (if exec(Request(job, i - 1)).Executed? && faults(i - 1).NoFault? then [RoundPercent(i, |job.testCases|)] else [])
  }

  /** Every snapshot a trial run writes is a "Running" one under its own run id, whose results list is a prefix of the
      list after the cases so far: no terminal status is ever written. */
  lemma {:induction false} CaseWritesAreRunning(job: RunJob, exec: ExecutionRequest -> ExecOutcome, faults: nat -> Fault, i: nat)
    requires i <= |job.testCases|
    ensures |CaseWrites(job, exec, faults, i)| <= i
    ensures forall w :: w in CaseWrites(job, exec, faults, i) ==>
      && w.0 == job.runId && w.1.StatusDoc? && w.1.status == "Running" && w.1.result.Some?
      && w.1.result.value.totalTestCases == |job.testCases|
      && w.1.result.value.results <= Graded(job, exec, faults, i)
  {
    if i > 0 {
      CaseWritesAreRunning(job, exec, faults, i - 1);
      var before, after := Graded(job, exec, faults, i - 1), Graded(job, exec, faults, i);
      GradedPrefix(job, exec, faults, i - 1, i);
      var g := Grade(job.testCases[i - 1], exec(Request(job, i - 1)));
      assert after[..|before| + 1] == before + [g];
      forall w | w in CaseWrites(job, exec, faults, i - 1)
        ensures w.1.result.value.results <= after
      {
        var rs := w.1.result.value.results;
        assert before[..|rs|] == rs && after[..|before|] == before;
        assert after[..|rs|] == rs;
      }
    }
  }

  /** Progress reported by a trial run stays within 0..100 and reaches 100 when the last case completes cleanly. */
  lemma {:induction false} ProgressInRange(job: RunJob, exec: ExecutionRequest -> ExecOutcome, faults: nat -> Fault, i: nat)
    requires i <= |job.testCases|
    ensures forall p :: p in ProgressUpdates(job, exec, faults, i) ==> 0 <= p <= 100
    ensures 0 < i == |job.testCases| && exec(Request(job, i - 1)).Executed? && faults(i - 1).NoFault? ==>
      ProgressUpdates(job, exec, faults, i)[|ProgressUpdates(job, exec, faults, i)| - 1] == 100
  {
    if i > 0 {
      ProgressInRange(job, exec, faults, i - 1);
      RoundPercentBounds(i, |job.testCases|);
    }
  }

  /** One step of the handler's loop for a case that ran. Its entry is pushed and counted if it passed, and the catch
      block's entry follows when a later call threw. The snapshot is written unless the write threw. Progress is
      reported only when both calls returned. */
  lemma ExecutedStep(job: RunJob, exec: ExecutionRequest -> ExecOutcome, faults: nat -> Fault, i: nat, r: ExecutionResult)
    requires i < |job.testCases| && exec(Request(job, i)) == Executed(r)
    ensures var g := Grade(job.testCases[i], Executed(r));
      var v := StatusDoc("Running", Some(RunProgress(job.runId, |job.testCases|, g.passed, Graded(job, exec, faults, i) + [g])), None);
      && Graded(job, exec, faults, i + 1)
         == Graded(job, exec, faults, i) + [g] + (if faults(i).NoFault? then [] else [RuntimeErrorEntry(faults(i).message)])
      && CountPassed(Graded(job, exec, faults, i + 1)) == CountPassed(Graded(job, exec, faults, i)) + (if g.passed then 1 else 0)
      && CaseWrites(job, exec, faults, i + 1)
         == CaseWrites(job, exec, faults, i) + (if faults(i).WriteFails? then [] else [(job.runId, v)])
      && LatestValue(job, exec, faults, i + 1) == (if faults(i).WriteFails? then LatestValue(job, exec, faults, i) else v)
      && ProgressUpdates(job, exec, faults, i + 1)
         == ProgressUpdates(job, exec, faults, i) + (if faults(i).NoFault? then [RoundPercent(i + 1, |job.testCases|)] else [])
  {
    var before := Graded(job, exec, faults, i);
    var es := CaseEntries(job, exec, faults, i);
    CountPassedAppend(before, es);
    PassedOfCaseEntries(job, exec, faults, i);
  }

  /** One step of the handler's loop for a case whose execution threw: only the catch block's entry is pushed. */
  lemma ThrewStep(job: RunJob, exec: ExecutionRequest -> ExecOutcome, faults: nat -> Fault, i: nat, message: string)
    requires i < |job.testCases| && exec(Request(job, i)) == Threw(message)
    ensures Graded(job, exec, faults, i + 1) == Graded(job, exec, faults, i) + [RuntimeErrorEntry(message)]
    ensures CountPassed(Graded(job, exec, faults, i + 1)) == CountPassed(Graded(job, exec, faults, i))
    ensures CaseWrites(job, exec, faults, i + 1) == CaseWrites(job, exec, faults, i)
    ensures LatestValue(job, exec, faults, i + 1) == LatestValue(job, exec, faults, i)
    ensures ProgressUpdates(job, exec, faults, i + 1) == ProgressUpdates(job, exec, faults, i)
  {
    assert Graded(job, exec, faults, i + 1)[..|Graded(job, exec, faults, i)|] == Graded(job, exec, faults, i);
  }

  /** The body of the handler's loop for test case `i`: run it and record what it pushes, writes and reports. */
  method GradeNext(store: RedisClient, job: RunJob, exec: ExecutionRequest -> ExecOutcome, faults: nat -> Fault, now: int,
                   i: nat, results: seq<TestResult>, passedCount: nat, progress: seq<int>,
                   ghost written: seq<(string, StoredValue)>, ghost base: map<string, Entry>)
    returns (results': seq<TestResult>, passedCount': nat, progress': seq<int>)
    requires i < |job.testCases|
    requires results == Graded(job, exec, faults, i) && passedCount == CountPassed(results)
    requires progress == [0] + ProgressUpdates(job, exec, faults, i)
    requires store.writes == written + CaseWrites(job, exec, faults, i)
    requires store.entries == base[job.runId := Entry(LatestValue(job, exec, faults, i), now + RunTtl)]
    modifies store
    ensures results' == Graded(job, exec, faults, i + 1) && passedCount' == CountPassed(results')
    ensures progress' == [0] + ProgressUpdates(job, exec, faults, i + 1)
    ensures store.writes == written + CaseWrites(job, exec, faults, i + 1)
    ensures store.entries == base[job.runId := Entry(LatestValue(job, exec, faults, i + 1), now + RunTtl)]
  {
    var outcome := exec(ExecutionRequest(job.code, job.languageCode, job.testCases[i].input, job.testCases[i].output));
    assert outcome == exec(Request(job, i));
    match outcome {
      case Executed(r) =>
        ExecutedStep(job, exec, faults, i, r);
        results', passedCount', progress' :=
          RecordExecuted(store, job.runId, |job.testCases|, job.testCases[i], r, faults(i), now, i + 1,
                         results, passedCount, progress, written, CaseWrites(job, exec, faults, i), base,
                         LatestValue(job, exec, faults, i));
      case Threw(message) =>
        results' := results + [RuntimeErrorEntry(message)];
        ThrewStep(job, exec, faults, i, message);
        passedCount', progress' := passedCount, progress;
    }
  }

  /** A case `k` of `n` that ran with report `r`: push its entry and count it if it passed, then write the snapshot
      and report progress. When either call throws, the catch block pushes a "Runtime Error" entry with the thrown
      message after it. */
  method RecordExecuted(store: RedisClient, key: string, n: nat, tc: TestCase, r: ExecutionResult, fault: Fault,
                        now: int, k: nat, results: seq<TestResult>, passedCount: nat, progress: seq<int>,
                        ghost written: seq<(string, StoredValue)>, ghost ws: seq<(string, StoredValue)>,
                        ghost base: map<string, Entry>, ghost latest: StoredValue)
    returns (results': seq<TestResult>, passedCount': nat, progress': seq<int>)
    requires 0 < n
    requires store.writes == written + ws && store.entries == base[key := Entry(latest, now + RunTtl)]
    modifies store
    ensures var g := Grade(tc, Executed(r));
      var v := StatusDoc("Running", Some(RunProgress(key, n, g.passed, results + [g])), None);
      && results' == results + [g] + (if fault.NoFault? then [] else [RuntimeErrorEntry(fault.message)])
      && passedCount' == passedCount + (if g.passed then 1 else 0)
      && progress' == progress + (if fault.NoFault? then [RoundPercent(k, n)] else [])
      && store.writes == written + (ws + (if fault.WriteFails? then [] else [(key, v)]))
      && store.entries == base[key := Entry(if fault.WriteFails? then latest else v, now + RunTtl)]
  {
    var passed := r.status == "Accepted" && Trim(r.output) == Trim(tc.output);
    passedCount' := if passed then passedCount + 1 else passedCount;
    var pushed := results + [TestResult(None, r.status, r.output, r.compileError, r.error, r.time, r.memory, None, passed)];
    var v := StatusDoc("Running", Some(RunProgress(key, n, passed, pushed)), None);
    results', progress' := AfterPush(store, key, v, fault, now, k, n, pushed, progress, written, ws, base, latest);
  }

  /** The two calls after a case's push, and the catch block when one of them throws: the snapshot write, then the
      progress report of case `k` of `n`. A throw skips what follows it and pushes the "Runtime Error" entry. */
  method AfterPush(store: RedisClient, key: string, v: StoredValue, fault: Fault, now: int, k: nat, n: nat,
                   pushed: seq<TestResult>, progress: seq<int>,
                   ghost written: seq<(string, StoredValue)>, ghost ws: seq<(string, StoredValue)>,
                   ghost base: map<string, Entry>, ghost latest: StoredValue)
    returns (results': seq<TestResult>, progress': seq<int>)
    requires 0 < n
    requires store.writes == written + ws && store.entries == base[key := Entry(latest, now + RunTtl)]
    modifies store
    ensures results' == pushed + (if fault.NoFault? then [] else [RuntimeErrorEntry(fault.message)])
    ensures progress' == progress + (if fault.NoFault? then [RoundPercent(k, n)] else [])
    ensures store.writes == written + (ws + (if fault.WriteFails? then [] else [(key, v)]))
    ensures store.entries == base[key := Entry(if fault.WriteFails? then latest else v, now + RunTtl)]
  {
    match fault {
      case WriteFails(message) =>
        assert ws + [] == ws;
        results', progress' := pushed + [RuntimeErrorEntry(message)], progress;
      case ProgressFails(message) =>
        Snap(store, key, v, now, written, ws, base, latest);
        results', progress' := pushed + [RuntimeErrorEntry(message)], progress;
      case NoFault =>
        Snap(store, key, v, now, written, ws, base, latest);
        results', progress' := pushed, progress + [RoundPercent(k, n)];
    }
  }

  /** One snapshot write under the run's key: it is appended to the write log and replaces the key's entry. */
  method Snap(store: RedisClient, key: string, v: StoredValue, now: int,
              ghost written: seq<(string, StoredValue)>, ghost ws: seq<(string, StoredValue)>,
              ghost base: map<string, Entry>, ghost latest: StoredValue)
    requires store.writes == written + ws && store.entries == base[key := Entry(latest, now + RunTtl)]
    modifies store
    ensures store.writes == written + (ws + [(key, v)]) && store.entries == base[key := Entry(v, now + RunTtl)]
  {
    store.SetForRun(key, v, now);
    OverwriteTwice(base, key, Entry(latest, now + RunTtl), Entry(v, now + RunTtl));
    assert written + ws + [(key, v)] == written + (ws + [(key, v)]);
  }

  /** The trial-run job handler. It writes "Running" and reports progress 0, grades the cases in order, writes a
      snapshot and reports progress after each case that ran, and returns the final aggregate without writing it.
      A throw from the first write or the first progress report (outside the loop's try) rejects the job. */
  method HandleRun(store: RedisClient, job: RunJob, exec: ExecutionRequest -> ExecOutcome, start: Fault,
                   faults: nat -> Fault, now: int)
    returns (result: Result<CodeRunnerResult, string>, progress: seq<int>)
    modifies store
    ensures start.WriteFails? ==>
      result == Err(start.message) && progress == []
      && store.writes == old(store.writes) && store.entries == old(store.entries)
    ensures start.ProgressFails? ==>
      result == Err(start.message) && progress == []
      && store.writes == old(store.writes) + [(job.runId, StatusOnly("Running"))]
      && store.entries == old(store.entries)[job.runId := Entry(StatusOnly("Running"), now + RunTtl)]
    ensures start.NoFault? ==>
      && result.Ok? && result.value.runId == job.runId && result.value.totalTestCases == |job.testCases|
      && result.value.results == Graded(job, exec, faults, |job.testCases|)
      && result.value.passedTestCases == CountPassed(result.value.results)
      && progress == [0] + ProgressUpdates(job, exec, faults, |job.testCases|)
      && store.writes == old(store.writes) + [(job.runId, StatusOnly("Running"))] + CaseWrites(job, exec, faults, |job.testCases|)
      && store.entries == old(store.entries)[job.runId := Entry(LatestValue(job, exec, faults, |job.testCases|), now + RunTtl)]
  {
    if start.WriteFails? {
      return Err(start.message), [];
    }
    store.SetForRun(job.runId, StatusOnly("Running"), now);
    if start.ProgressFails? {
      return Err(start.message), [];
    }
    var results, passedCount;
    results, passedCount, progress := GradeAll(store, job, exec, faults, now, store.writes, old(store.entries));
    result := Ok(CodeRunnerResult(job.runId, |job.testCases|, passedCount, results));
  }

  /** The handler's loop over all test cases, from the state right after the initial "Running" write. */
  method GradeAll(store: RedisClient, job: RunJob, exec: ExecutionRequest -> ExecOutcome, faults: nat -> Fault, now: int,
                  ghost written: seq<(string, StoredValue)>, ghost base: map<string, Entry>)
    returns (results: seq<TestResult>, passedCount: nat, progress: seq<int>)
    requires store.writes == written
    requires store.entries == base[job.runId := Entry(StatusOnly("Running"), now + RunTtl)]
    modifies store
    ensures results == Graded(job, exec, faults, |job.testCases|) && passedCount == CountPassed(results)
    ensures progress == [0] + ProgressUpdates(job, exec, faults, |job.testCases|)
    ensures store.writes == written + CaseWrites(job, exec, faults, |job.testCases|)
    ensures store.entries == base[job.runId := Entry(LatestValue(job, exec, faults, |job.testCases|), now + RunTtl)]
  {
    results := [];
    passedCount := 0;
    progress := [0];
    var n := |job.testCases|;
    for i := 0 to n
      invariant results == Graded(job, exec, faults, i)
      invariant passedCount == CountPassed(results)
      invariant progress == [0] + ProgressUpdates(job, exec, faults, i)
      invariant store.writes == written + CaseWrites(job, exec, faults, i)
      invariant store.entries == base[job.runId := Entry(LatestValue(job, exec, faults, i), now + RunTtl)]
    {
      results, passedCount, progress := GradeNext(store, job, exec, faults, now, i, results, passedCount, progress, written, base);
    }
  }
}
