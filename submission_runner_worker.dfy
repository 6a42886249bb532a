/** The submission runner: splits the inputs into batches of five and runs them in waves of at most three batches. */
module SubmissionRunnerWorker {
  import opened Wrappers
  import opened WorkerTypes
  import opened StatusStore

  const BatchSize: nat := 5
  const MaxConcurrentBatches: nat := 3

  function Min(a: int, b: int): int {
    if a <= b then a else b
  }

  /** The concatenation of a list of lists, in order. */
  function Flatten<T>(xss: seq<seq<T>>): seq<T> {
    if xss == [] then [] else xss[0] + Flatten(xss[1..])
  }

  lemma {:induction false} FlattenAppend<T>(xss: seq<seq<T>>, yss: seq<seq<T>>)
    ensures Flatten(xss + yss) == Flatten(xss) + Flatten(yss)
  {
    if xss == [] {
      assert xss + yss == yss;
    } else {
      assert (xss + yss)[0] == xss[0];
      assert (xss + yss)[1..] == xss[1..] + yss;
      FlattenAppend(xss[1..], yss);
    }
  }

  /** The result of `chunkArray(a, size)`: consecutive slices of `size` elements, the last one possibly shorter. */
  function Chunks<T>(a: seq<T>, size: nat): seq<seq<T>>
    requires 0 < size
    decreases |a|
  {
    if a == [] then [] else if |a| <= size then [a] else [a[..size]] + Chunks(a[size..], size)
  }

  /** Flattening the chunks gives back the input exactly. */
  lemma {:induction false} FlattenChunks<T>(a: seq<T>, size: nat)
    requires 0 < size
    ensures Flatten(Chunks(a, size)) == a
    decreases |a|
  {
    if |a| > size {
      FlattenChunks(a[size..], size);
      assert a[..size] + a[size..] == a;
    }
  }

  /** Every chunk holds between 1 and `size` elements, and every chunk but the last exactly `size`. */
  lemma {:induction false} ChunkSizes<T>(a: seq<T>, size: nat)
    requires 0 < size
    ensures forall j :: 0 <= j < |Chunks(a, size)| ==> 1 <= |Chunks(a, size)[j]| <= size
    ensures forall j :: 0 <= j < |Chunks(a, size)| - 1 ==> |Chunks(a, size)[j]| == size
    decreases |a|
  {
    if |a| > size {
      ChunkSizes(a[size..], size);
      var rest := Chunks(a[size..], size);
      assert Chunks(a, size) == [a[..size]] + rest;
      assert forall j :: 1 <= j < |Chunks(a, size)| ==> Chunks(a, size)[j] == rest[j - 1];
    }
  }

  /** The number of chunks `c` is the least with `|a| <= c * size`. */
  lemma {:induction false} ChunkCountBounds<T>(a: seq<T>, size: nat)
    requires 0 < size
    ensures |a| <= |Chunks(a, size)| * size
    ensures a != [] ==> (|Chunks(a, size)| - 1) * size < |a|
    decreases |a|
  {
    if |a| > size {
      ChunkCountBounds(a[size..], size);
      var c := |Chunks(a[size..], size)|;
      assert |Chunks(a, size)| == c + 1;
      assert (c + 1) * size == c * size + size;
    }
  }

  lemma CeilDiv(n: nat, size: nat, c: nat)
    requires 0 < size && (c - 1) * size < n <= c * size
    ensures (n + size - 1) / size == c
  {
    var q := (n + size - 1) / size;
    var r := (n + size - 1) % size;
    assert q * size + r == n + size - 1 && 0 <= r < size;
    assert (c - 1) * size == c * size - size;
    MulBelowOne(c - q, size);
    MulBelowOne(q - c, size);
  }

  lemma MulBelowOne(x: int, size: nat)
    requires 0 < size && x * size < size
    ensures x < 1
  {
  }

  /** There are ceil(|a| / size) chunks. */
  lemma ChunkCount<T>(a: seq<T>, size: nat)
    requires 0 < size
    ensures |Chunks(a, size)| == (|a| + size - 1) / size
  {
    ChunkCountBounds(a, size);
    if a == [] {
      assert (size - 1) / size == 0;
    } else {
      CeilDiv(|a|, size, |Chunks(a, size)|);
    }
  }

  /** Chunk `j` is the slice of the input that starts at `j * size`. */
  lemma {:induction false} ChunkAt<T>(a: seq<T>, size: nat, j: nat)
    requires 0 < size && j < |Chunks(a, size)|
    ensures j * size < |a|
    ensures Chunks(a, size)[j] == a[j * size..Min(j * size + size, |a|)]
    decreases |a|
  {
    if j > 0 {
      ChunkAt(a[size..], size, j - 1);
      var p := (j - 1) * size;
      assert j * size == p + size;
      assert Chunks(a, size)[j] == Chunks(a[size..], size)[j - 1];
      assert a[size..][p..Min(p + size, |a| - size)] == a[p + size..Min(p + size + size, |a|)];
    }
  }

  /** The chunks of the slice from `i` on: the slice up to `i + size`, then the chunks from there. */
  lemma ChunksFrom<T>(a: seq<T>, size: nat, i: nat)
    requires 0 < size && i < |a|
    ensures Chunks(a[i..], size) == [a[i..Min(i + size, |a|)]] + Chunks(a[Min(i + size, |a|)..], size)
  {
    if |a| - i > size {
      assert a[i..][..size] == a[i..i + size];
      assert a[i..][size..] == a[i + size..];
    } else {
      assert a[i..] != [];
      assert a[i..Min(i + size, |a|)] == a[i..];
      assert a[Min(i + size, |a|)..] == [];
    }
  }

  /** `chunkArray`: pushes the slice `[i, i + size)` for i = 0, size, 2 * size, ... while i is below the length. */
  method ChunkArray<T>(a: seq<T>, size: nat) returns (chunks: seq<seq<T>>)
    requires 0 < size
    ensures chunks == Chunks(a, size)
  {
    chunks := [];
    var i := 0;
    while i < |a|
      invariant 0 <= i
      invariant chunks + Chunks(a[Min(i, |a|)..], size) == Chunks(a, size)
      decreases |a| - i
    {
      ChunksFrom(a, size, i);
      chunks := chunks + [a[i..Min(i + size, |a|)]];
      i := i + size;
    }
    assert a[Min(i, |a|)..] == [];
  }

  /** The engine's answer to one batch: a result per input, or the error the call threw. */
  datatype BatchOutcome = Completed(results: seq<ExecutionResult>) | BatchFailed(message: string)

  datatype SubmissionTestcase = SubmissionTestcase(id: string, weight: Option<real>, input: string, output: string)

  /** A submission job as the runner reads it. */
  datatype SubmissionJob = SubmissionJob(submissionId: string, code: string, languageCode: string, testcases: seq<SubmissionTestcase>)

  /** Only the `input` field of each test case is sent, in test-case order. */
  function Inputs(testcases: seq<SubmissionTestcase>): (inputs: seq<string>)
    ensures |inputs| == |testcases|
    ensures forall k :: 0 <= k < |testcases| ==> inputs[k] == testcases[k].input
  {
    seq(|testcases|, k requires 0 <= k < |testcases| => testcases[k].input)
  }

  function Batches(job: SubmissionJob): seq<seq<string>> {
    Chunks(Inputs(job.testcases), BatchSize)
  }

  /** What the engine answers for each of `batches`, in order. */
  function Ask(job: SubmissionJob, engine: (string, string, seq<string>) -> BatchOutcome, batches: seq<seq<string>>): (outs: seq<BatchOutcome>)
    ensures |outs| == |batches|
    ensures forall j :: 0 <= j < |outs| ==> outs[j] == engine(job.languageCode, job.code, batches[j])
  {
    seq(|batches|, j requires 0 <= j < |batches| => engine(job.languageCode, job.code, batches[j]))
  }

  /** What the engine answers for each batch of the job, in batch order. */
  function Outcomes(job: SubmissionJob, engine: (string, string, seq<string>) -> BatchOutcome): seq<BatchOutcome> {
    Ask(job, engine, Batches(job))
  }

  lemma AskSlice(job: SubmissionJob, engine: (string, string, seq<string>) -> BatchOutcome, batches: seq<seq<string>>, i: nat, m: nat)
    requires i <= m <= |batches|
    ensures Ask(job, engine, batches[i..m]) == Ask(job, engine, batches)[i..m]
  {
  }

  predicate AllCompleted(outs: seq<BatchOutcome>) {
    forall j :: 0 <= j < |outs| ==> outs[j].Completed?
  }

  /** The per-batch result lists concatenated in batch order. */
  function Collected(outs: seq<BatchOutcome>): seq<ExecutionResult>
    requires AllCompleted(outs)
  {
    if outs == [] then [] else Collected(outs[..|outs| - 1]) + outs[|outs| - 1].results
  }

  /** The index of the first batch that failed. */
  function FirstFailure(outs: seq<BatchOutcome>): (f: nat)
    requires !AllCompleted(outs)
    ensures f < |outs| && outs[f].BatchFailed?
    ensures forall k :: 0 <= k < f ==> outs[k].Completed?
  {
    if outs[0].BatchFailed? then 0
    else
      assert !AllCompleted(outs[1..]) by {
        var j :| 0 <= j < |outs| && !outs[j].Completed?;
        assert outs[1..][j - 1] == outs[j];
      }
      1 + FirstFailure(outs[1..])
  }

  /** The number of waves the runner finishes: all of them, or those before the wave holding the first failure. */
  function WavesDone(outs: seq<BatchOutcome>): nat {
    if AllCompleted(outs) then (|outs| + MaxConcurrentBatches - 1) / MaxConcurrentBatches
    else FirstFailure(outs) / MaxConcurrentBatches
  }

  /** The number of batches covered by the first `w` waves. */
  function Covered(n: nat, w: nat): nat {
    Min(w * MaxConcurrentBatches, n)
  }

  /** The snapshot written after `w` waves: "Running" with the results accumulated so far. */
  function WaveSnapshot(outs: seq<BatchOutcome>, w: nat): StoredValue
    requires AllCompleted(outs[..Covered(|outs|, w)])
  {
    StatusDoc("Running", None, Some(Collected(outs[..Covered(|outs|, w)])))
  }

  /** The store writes made by the first `w` waves. */
  function WaveWrites(id: string, outs: seq<BatchOutcome>, w: nat): seq<(string, StoredValue)>
    requires AllCompleted(outs[..Covered(|outs|, w)])
  {
    if w == 0 then []
    else
      assert outs[..Covered(|outs|, w - 1)] == outs[..Covered(|outs|, w)][..Covered(|outs|, w - 1)];
      WaveWrites(id, outs, w - 1) + [(id, WaveSnapshot(outs, w))]
  }

  /** Every wave takes at most MaxConcurrentBatches consecutive batches, and together the waves take every batch once, in order. */
  lemma WavesPartitionBatches<T>(batches: seq<T>)
    ensures Flatten(Chunks(batches, MaxConcurrentBatches)) == batches
    ensures forall w :: 0 <= w < |Chunks(batches, MaxConcurrentBatches)| ==> 1 <= |Chunks(batches, MaxConcurrentBatches)[w]| <= MaxConcurrentBatches
    ensures |Chunks(batches, MaxConcurrentBatches)| == (|batches| + MaxConcurrentBatches - 1) / MaxConcurrentBatches
  {
    FlattenChunks(batches, MaxConcurrentBatches);
    ChunkSizes(batches, MaxConcurrentBatches);
    ChunkCount(batches, MaxConcurrentBatches);
  }

  /** Collecting a longer run of completed batches extends the collected results. */
  lemma {:induction false} CollectedPrefix(outs: seq<BatchOutcome>, a: nat, b: nat)
    requires a <= b <= |outs| && AllCompleted(outs[..b])
    ensures AllCompleted(outs[..a])
    ensures Collected(outs[..b]) == Collected(outs[..a]) + Collected(outs[a..b])
    decreases b - a
  {
    assert forall j :: 0 <= j < a ==> outs[..a][j] == outs[..b][j];
    if a < b {
      CollectedPrefix(outs, a, b - 1);
      assert outs[..b][..b - 1] == outs[..b - 1];
      assert outs[a..b][..b - 1 - a] == outs[a..b - 1];
      assert outs[a..b][b - 1 - a] == outs[b - 1];
    } else {
      assert outs[a..b] == [];
    }
  }

  /** Collecting is flattening: the results of batch `j` come before those of batch `j + 1`, whatever order they finish in. */
  lemma {:induction false} CollectedIsFlatten(outs: seq<BatchOutcome>)
    requires AllCompleted(outs)
    ensures Collected(outs) == Flatten(seq(|outs|, j requires 0 <= j < |outs| => outs[j].results))
  {
    var lists := seq(|outs|, j requires 0 <= j < |outs| => outs[j].results);
    if outs != [] {
      var init := outs[..|outs| - 1];
      CollectedIsFlatten(init);
      var initLists := seq(|init|, j requires 0 <= j < |init| => init[j].results);
      assert lists == initLists + [outs[|outs| - 1].results];
      FlattenAppend(initLists, [outs[|outs| - 1].results]);
      assert Flatten([outs[|outs| - 1].results]) == outs[|outs| - 1].results;
    }
  }

  /** One wave: the engine is called for every batch of the wave, and the wave fails with its first failing batch. */
  method RunWave(job: SubmissionJob, engine: (string, string, seq<string>) -> BatchOutcome, wave: seq<seq<string>>)
    returns (r: Result<seq<ExecutionResult>, string>)
    ensures var outs := Ask(job, engine, wave);
      && (r.Ok? <==> AllCompleted(outs))
      && (r.Ok? ==> r.value == Collected(outs))
      && (r.Err? ==> r.error == outs[FirstFailure(outs)].message)
  {
    ghost var outs := Ask(job, engine, wave);
    var batchResults: seq<BatchOutcome> := [];
    for j := 0 to |wave|
      invariant batchResults == outs[..j]
    {
      batchResults := batchResults + [engine(job.languageCode, job.code, wave[j])];
    }
    assert batchResults == outs;
    var collected: seq<ExecutionResult> := [];
    for j := 0 to |wave|
      invariant AllCompleted(outs[..j])
      invariant collected == Collected(outs[..j])
    {
      match batchResults[j] {
        case BatchFailed(message) =>
          FirstFailureAt(outs, j);
          return Err(message);
        case Completed(results) =>
          assert outs[..j + 1][..j] == outs[..j];
          collected := collected + results;
      }
    }
    assert outs[..|wave|] == outs;
    r := Ok(collected);
  }

  /** A failure after a run of completed batches is the first failure. */
  lemma FirstFailureAt(outs: seq<BatchOutcome>, j: nat)
    requires j < |outs| && outs[j].BatchFailed? && AllCompleted(outs[..j])
    ensures !AllCompleted(outs) && FirstFailure(outs) == j
  {
  }

  /** A wave that follows a run of completed batches: if the whole wave completes, the run extends by the wave's
      results; otherwise the wave's first failure is the first failure of the job. */
  lemma WaveStep(outs: seq<BatchOutcome>, i: nat, m: nat, waveOuts: seq<BatchOutcome>)
    requires i <= m <= |outs| && waveOuts == outs[i..m] && AllCompleted(outs[..i])
    ensures AllCompleted(waveOuts) ==> AllCompleted(outs[..m]) && Collected(outs[..m]) == Collected(outs[..i]) + Collected(waveOuts)
    ensures !AllCompleted(waveOuts) ==> !AllCompleted(outs) && FirstFailure(outs) == i + FirstFailure(waveOuts)
  {
    if AllCompleted(waveOuts) {
      assert forall j :: 0 <= j < m ==> outs[..m][j] == (if j < i then outs[..i][j] else waveOuts[j - i]);
      CollectedPrefix(outs, i, m);
    } else {
      var f := FirstFailure(waveOuts);
      assert outs[i + f] == waveOuts[f];
      assert forall j :: 0 <= j < i + f ==> outs[..i + f][j] == (if j < i then outs[..i][j] else waveOuts[j - i]);
      FirstFailureAt(outs, i + f);
    }
  }

  /** The latest value under the submission's key after `w` waves. */
  function WaveLatest(outs: seq<BatchOutcome>, w: nat): StoredValue
    requires AllCompleted(outs[..Covered(|outs|, w)])
  {
    if w == 0 then StatusOnly("Running") else WaveSnapshot(outs, w)
  }

  /** A failing wave `w` holds the job's first failure: it lies in the wave, and its message is the wave's. */
  lemma WaveFailure(outs: seq<BatchOutcome>, i: nat, m: nat, w: nat, waveOuts: seq<BatchOutcome>)
    requires i == w * MaxConcurrentBatches && i <= m <= i + MaxConcurrentBatches && m <= |outs|
    requires waveOuts == outs[i..m] && AllCompleted(outs[..i]) && !AllCompleted(waveOuts)
    ensures !AllCompleted(outs) && FirstFailure(outs) / MaxConcurrentBatches == w
    ensures outs[FirstFailure(outs)].message == waveOuts[FirstFailure(waveOuts)].message
  {
    WaveStep(outs, i, m, waveOuts);
    var f := FirstFailure(waveOuts);
    assert FirstFailure(outs) == w * MaxConcurrentBatches + f && f < MaxConcurrentBatches;
    assert outs[i + f] == waveOuts[f];
  }

  /** The first of the first `k` waves whose snapshot write throws, or `k` when none of them does. */
  function FirstWriteFault(writeFaults: nat -> Option<string>, k: nat): (d: nat)
    ensures d <= k
    ensures forall v :: 0 <= v < d ==> writeFaults(v).None?
    ensures d < k ==> writeFaults(d).Some?
  {
    if k == 0 then 0
    else
      var d := FirstWriteFault(writeFaults, k - 1);
      if d < k - 1 then d else if writeFaults(k - 1).Some? then k - 1 else k
  }

  /** The first throwing write is the one after wave `w` when the writes before it went through. */
  lemma FirstWriteFaultAt(writeFaults: nat -> Option<string>, w: nat, k: nat)
    requires w < k && writeFaults(w).Some?
    requires forall v :: 0 <= v < w ==> writeFaults(v).None?
    ensures FirstWriteFault(writeFaults, k) == w
  {
  }

  /** With every write of the first `k` waves going through, no write fault stops the job early. */
  lemma NoWriteFaultBefore(writeFaults: nat -> Option<string>, k: nat)
    requires forall v :: 0 <= v < k ==> writeFaults(v).None?
    ensures FirstWriteFault(writeFaults, k) == k
  {
  }

  /** A wave whose batches all completed is one of the waves the runner finishes. */
  lemma CompletedWaveIsDone(outs: seq<BatchOutcome>, w: nat)
    requires w * MaxConcurrentBatches < |outs| && AllCompleted(outs[..Covered(|outs|, w + 1)])
    ensures w < WavesDone(outs)
  {
    var c := Covered(|outs|, w + 1);
    assert forall j :: 0 <= j < c ==> outs[..c][j] == outs[j];
  }

  /** The write after a completed wave `w`: the accumulated results become the latest snapshot. */
  method RecordWave(store: RedisClient, job: SubmissionJob, now: int, ghost outs: seq<BatchOutcome>, ghost w: nat,
                    allResults: seq<ExecutionResult>, ghost written: seq<(string, StoredValue)>, ghost base: map<string, Entry>)
    requires AllCompleted(outs[..Covered(|outs|, w + 1)]) && allResults == Collected(outs[..Covered(|outs|, w + 1)])
    requires AllCompleted(outs[..Covered(|outs|, w)])
    requires store.writes == written + WaveWrites(job.submissionId, outs, w)
    requires store.entries == base[job.submissionId := Entry(WaveLatest(outs, w), now + RunTtl)]
    modifies store
    ensures store.writes == written + WaveWrites(job.submissionId, outs, w + 1)
    ensures store.entries == base[job.submissionId := Entry(WaveLatest(outs, w + 1), now + RunTtl)]
  {
    var v := StatusDoc("Running", None, Some(allResults));
    assert v == WaveSnapshot(outs, w + 1) == WaveLatest(outs, w + 1);
    ghost var before := store.writes;
    store.SetForRun(job.submissionId, v, now);
    OverwriteTwice(base, job.submissionId, Entry(WaveLatest(outs, w), now + RunTtl), Entry(v, now + RunTtl));
    assert WaveWrites(job.submissionId, outs, w + 1) == WaveWrites(job.submissionId, outs, w) + [(job.submissionId, v)];
    assert before + [(job.submissionId, v)] == written + (WaveWrites(job.submissionId, outs, w) + [(job.submissionId, v)]);
  }

  /** One turn of the wave loop: runs the batches from `i` on, then writes the accumulated results. It stops with the
      wave's first failure before the write, or with the write's error when the write throws (`writeFault`). */
  method NextWave(store: RedisClient, job: SubmissionJob, engine: (string, string, seq<string>) -> BatchOutcome, now: int,
                  ghost outs: seq<BatchOutcome>, batches: seq<seq<string>>, i: nat, ghost w: nat, allResults: seq<ExecutionResult>,
                  writeFault: Option<string>, ghost written: seq<(string, StoredValue)>, ghost base: map<string, Entry>)
    returns (failed: Option<string>, allResults': seq<ExecutionResult>)
    requires batches == Batches(job) && outs == Outcomes(job, engine)
    requires i == w * MaxConcurrentBatches && i < |batches|
    requires AllCompleted(outs[..Covered(|outs|, w)]) && allResults == Collected(outs[..Covered(|outs|, w)])
    requires store.writes == written + WaveWrites(job.submissionId, outs, w)
    requires store.entries == base[job.submissionId := Entry(WaveLatest(outs, w), now + RunTtl)]
    modifies store
    ensures !AllCompleted(outs[..Covered(|outs|, w + 1)]) ==>
      && !AllCompleted(outs) && FirstFailure(outs) / MaxConcurrentBatches == w
      && failed == Some(outs[FirstFailure(outs)].message)
      && store.writes == written + WaveWrites(job.submissionId, outs, w)
      && store.entries == base[job.submissionId := Entry(WaveLatest(outs, w), now + RunTtl)]
    ensures AllCompleted(outs[..Covered(|outs|, w + 1)]) && writeFault.Some? ==>
      && failed == writeFault
      && store.writes == written + WaveWrites(job.submissionId, outs, w)
      && store.entries == base[job.submissionId := Entry(WaveLatest(outs, w), now + RunTtl)]
    ensures AllCompleted(outs[..Covered(|outs|, w + 1)]) && writeFault.None? ==>
      && failed.None? && allResults' == Collected(outs[..Covered(|outs|, w + 1)])
      && store.writes == written + WaveWrites(job.submissionId, outs, w + 1)
      && store.entries == base[job.submissionId := Entry(WaveLatest(outs, w + 1), now + RunTtl)]
  {
    var m := Min(i + MaxConcurrentBatches, |batches|);
    assert |outs| == |batches| && Covered(|outs|, w) == i && Covered(|outs|, w + 1) == m;
    var currentBatches := batches[i..m];
    var waveResult := RunWave(job, engine, currentBatches);
    ghost var waveOuts := Ask(job, engine, currentBatches);
    AskSlice(job, engine, batches, i, m);
    WaveStep(outs, i, m, waveOuts);
    if waveResult.Err? {
      WaveFailure(outs, i, m, w, waveOuts);
      assert !AllCompleted(outs[..m]) by {
        var f := FirstFailure(waveOuts);
        assert outs[..m][i + f] == waveOuts[f];
      }
      return Some(waveResult.error), allResults;
    }
    allResults' := allResults + waveResult.value;
    if writeFault.Some? {
      return writeFault, allResults';
    }
    RecordWave(store, job, now, outs, w, allResults', written, base);
    failed := None;
  }

  lemma WavesAtExit(n: nat, w: nat)
    requires n <= w * MaxConcurrentBatches <= n + MaxConcurrentBatches - 1
    ensures Covered(n, w) == n && (n + MaxConcurrentBatches - 1) / MaxConcurrentBatches == w
  {
  }

  /** The job handler: writes "Running", then runs the batches wave by wave, writing the accumulated results after
      each wave. The catch block rethrows whatever stops it: the error of the initial write (`startFault`), the first
      failing batch, or the error of the write after wave `w` (`writeFaults(w)`). The writes made before keep. */
  method HandleSubmission(store: RedisClient, job: SubmissionJob, engine: (string, string, seq<string>) -> BatchOutcome,
                          startFault: Option<string>, writeFaults: nat -> Option<string>, now: int)
    returns (r: Result<seq<ExecutionResult>, string>)
    modifies store
    ensures startFault.Some? ==>
      r == Err(startFault.value) && store.writes == old(store.writes) && store.entries == old(store.entries)
    ensures startFault.None? ==>
      var outs := Outcomes(job, engine);
      var d := FirstWriteFault(writeFaults, WavesDone(outs));
      && (r.Ok? <==> AllCompleted(outs) && d == WavesDone(outs))
      && (r.Ok? ==> r.value == Collected(outs))
      && (d < WavesDone(outs) ==> r == Err(writeFaults(d).value))
      && (d == WavesDone(outs) && !AllCompleted(outs) ==> r == Err(outs[FirstFailure(outs)].message))
      && AllCompleted(outs[..Covered(|outs|, d)])
      && store.writes == old(store.writes) + [(job.submissionId, StatusOnly("Running"))] + WaveWrites(job.submissionId, outs, d)
      && store.entries == old(store.entries)[job.submissionId := Entry(WaveLatest(outs, d), now + RunTtl)]
  {
    if startFault.Some? {
      return Err(startFault.value);
    }
    store.SetForRun(job.submissionId, StatusOnly("Running"), now);
    r := RunWaves(store, job, engine, writeFaults, now, store.writes, old(store.entries));
  }

  /** The handler's wave loop, from the state right after the initial "Running" write. */
  method RunWaves(store: RedisClient, job: SubmissionJob, engine: (string, string, seq<string>) -> BatchOutcome,
                  writeFaults: nat -> Option<string>, now: int,
                  ghost written: seq<(string, StoredValue)>, ghost base: map<string, Entry>)
    returns (r: Result<seq<ExecutionResult>, string>)
    requires store.writes == written
    requires store.entries == base[job.submissionId := Entry(StatusOnly("Running"), now + RunTtl)]
    modifies store
    ensures var outs := Outcomes(job, engine);
      var d := FirstWriteFault(writeFaults, WavesDone(outs));
      && (r.Ok? <==> AllCompleted(outs) && d == WavesDone(outs))
      && (r.Ok? ==> r.value == Collected(outs))
      && (d < WavesDone(outs) ==> r == Err(writeFaults(d).value))
      && (d == WavesDone(outs) && !AllCompleted(outs) ==> r == Err(outs[FirstFailure(outs)].message))
      && AllCompleted(outs[..Covered(|outs|, d)])
      && store.writes == written + WaveWrites(job.submissionId, outs, d)
      && store.entries == base[job.submissionId := Entry(WaveLatest(outs, d), now + RunTtl)]
  {
    ghost var outs := Outcomes(job, engine);
    var inputs := Inputs(job.testcases);
    var batches := ChunkArray(inputs, BatchSize);
    var allResults: seq<ExecutionResult> := [];
    var i := 0;
    var w := 0;
    while i < |batches|
      invariant i == w * MaxConcurrentBatches && i <= |batches| + MaxConcurrentBatches - 1
      invariant forall v :: 0 <= v < w ==> writeFaults(v).None?
      invariant AllCompleted(outs[..Covered(|outs|, w)])
      invariant allResults == Collected(outs[..Covered(|outs|, w)])
      invariant store.writes == written + WaveWrites(job.submissionId, outs, w)
      invariant store.entries == base[job.submissionId := Entry(WaveLatest(outs, w), now + RunTtl)]
      decreases |batches| - i
    {
      var failed;
      failed, allResults := NextWave(store, job, engine, now, outs, batches, i, w, allResults, writeFaults(w), written, base);
      if failed.Some? {
        if AllCompleted(outs[..Covered(|outs|, w + 1)]) {
          CompletedWaveIsDone(outs, w);
          FirstWriteFaultAt(writeFaults, w, WavesDone(outs));
        } else {
          NoWriteFaultBefore(writeFaults, w);
        }
        return Err(failed.value);
      }
      i := i + MaxConcurrentBatches;
      w := w + 1;
    }
    WavesAtExit(|outs|, w);
    NoWriteFaultBefore(writeFaults, w);
    assert outs[..|outs|] == outs;
    r := Ok(allResults);
  }
}
