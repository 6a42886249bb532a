# A verified model of the coding-platform backend's core

The backend runs user code against a problem's test cases, scores submissions and manages problems,
test cases and contests. This project models its core in Dafny:

- **Workers.**
  - The code-runner worker executes each test case of a "run" through an executor, grades it, and writes a
    "Running" snapshot and reports progress after each case.
  - The submission-runner worker splits a submission's test-case inputs into batches of five and runs them in
    waves of at most three batches. After each wave it writes a "Running" snapshot with the results so far.
  - The database-operation worker validates a runner result, computes the score, status and resources, and
    builds the result rows. It creates the submission and its rows through the repository, with retries.
- **The status store.** A Redis-like key/value store with expiry: the `RedisClient` class holds a map from
  key to value and expiry time. The run, submission-status and test-case caches are built on it.
- **Services.**
  - The run service enqueues a run and reads its result.
  - The submission service admits a submission (user, contest, membership, live window), reads the test cases
    through the cache, wraps the code with the driver, and creates the submission.
  - The problem service checks teacher roles and required fields, keeps the teacher-authorisation cache (a
    class over a map with a time-to-live), adds moderators, removes problems and converts driver-code data.
  - The test-case service authenticates teachers, checks access to a problem, builds the S3 keys of uploads
    and their presigned URLs, inserts test cases and pairs stored test cases with preview URLs.
  - The contest service guards its operations against empty ids, builds the update data of a contest (the
    nested delete-and-create relation writes included), formats contests for output and adds problems to a
    contest.
  - The helper module holds `cleanObject`.
- **Request schemas.** The test-case, problem and contest validators are modelled as parsers from a JSON-like
  `Value` to a typed record or the first `Issue`. Each parser carries the constants and messages of the source.

Every operation is stated against a specification: a function of the inputs, an invariant of the state,
or a property lemma. Repositories, the executor, S3 and the clock are parameters of the operations. So is whether a
store write or a progress report of a worker throws, and with which message.

Some behaviour of the code is modelled **as written**, even where it looks unintended:

- `getResult` builds, but does not throw, an error for an empty run id (src/v1/services/run.service.ts:23-25).
- The validated submission body carries no submission time, so a contest submission is never inside its live
  window (`SubmissionService.MissingSubmissionTimeIsNeverLive`).
- Stored test cases carry `point`, while the score reads `weight`. A weight that is absent counts as 1, which the
  model keeps.
- In getOrFetchTestcases the `if (!data)` check at src/v1/services/submission.service.ts:102 can never fire: the
  fetch either fails or returns a non-empty list.
- Failures of the test-case cache write are swallowed. Whether the write succeeded is the `cacheUp` parameter.
- Auth-cache keys `${userId}-${problemId}` are ambiguous when ids contain '-'
  (`ProblemService.ClearReachesSuffixProblems`).
- `validateTeacherRole` is handed `teacherId || ''`, a string. In addModerators, removeProblem and updateProblem
  it therefore always passes.
- addModeratorsToProblem reads `data.moderatorIds`, although the schema declares `moderatorId`. The model uses the
  list of ids. The contest moderator deletion reads `moderatorId`, although its schema has `moderatorIds`.
- checkTestcase compares the moderator-link row's `id`, not its moderator id, with the teacher.
- `Promise.all` fan-outs are modelled as sequential, order-preserving steps. The failure with the lowest index
  is the one reported.
- The code-runner worker reads `testCases` and `languageCode` from the job. The model follows the worker's
  reading, not the queue type's declared fields.
- The database-operation worker reads `runnerResult.runId` before validating, so a missing runner result is a
  type error rather than a validation error.
- The result rows carry `Number(result?.executionTime) ?? 0`, which is NaN for a missing time; the rows the
  database-operation worker writes keep that NaN (`DbOperationWorker.ResultRows`).
- createTestcases checks access only for the first test case's problem and inserts the others unchecked
  (`TestcaseService.LaterCaseOfForeignProblemPasses`).
- A throw from the code runner's snapshot write or progress update inside the loop's try lands in the catch
  block, which pushes a second entry for that case (`CodeRunnerWorker.SideFaultDuplicatesCase`).
- The input-file-name message of `ZTestcaseCreate` speaks of a minimum length of 1, while the check is 4.

## Model

| member | source | states |
|---|---|---|
| CodeRunnerWorker.PassesIgnoresOuterWhitespace | src/workers/codeRunnerWorker.ts:38 | a case's verdict depends on the output and the expected output only after trimming both |
| CodeRunnerWorker.Grade | src/workers/codeRunnerWorker.ts:38-74 | a case that ran is recorded with its status, output, time and memory, passed exactly when it is "Accepted" with matching trimmed output; a case that threw is recorded as "Runtime Error" with empty output, the error message, and not passed |
| CodeRunnerWorker.Graded | src/workers/codeRunnerWorker.ts:25-76 | after i cases the results list has between i and 2i entries: one per case, plus one more for each case whose snapshot write or progress update threw |
| CodeRunnerWorker.GradedPrefix | src/workers/codeRunnerWorker.ts:42-74 | entries are only ever appended: a later results list extends an earlier one by at least one entry per case in between |
| CodeRunnerWorker.OneEntryPerCase | src/workers/codeRunnerWorker.ts:25-76 | when neither call after a push throws, the results list has exactly one entry per case |
| CodeRunnerWorker.GradedAt | src/workers/codeRunnerWorker.ts:25-76 | when neither call after a push throws, entry k of the results list is the grade of test case k, in input order |
| CodeRunnerWorker.SideFaultDuplicatesCase | src/workers/codeRunnerWorker.ts:42-74 | a throw from the snapshot write or the progress update, after the push, makes the catch block push a second, failed "Runtime Error" entry with the thrown message right after the case's grade, so the final list is longer than the number of cases |
| CodeRunnerWorker.CountPassedIsCardinality | src/workers/codeRunnerWorker.ts:40 | the pass counter equals the number of entries whose passed flag is set, and never exceeds the number of entries |
| CodeRunnerWorker.PassedAtMostCases | src/workers/codeRunnerWorker.ts:38-74 | the pass counter never exceeds the number of cases, duplicated cases included: the catch block's entry is never passed |
| CodeRunnerWorker.PassedOfCaseEntries | src/workers/codeRunnerWorker.ts:38-74 | a case's entries contain exactly one passed entry when its grade passed, and none otherwise |
| CodeRunnerWorker.CountPassedAppend | src/workers/codeRunnerWorker.ts:40 | the pass count of a concatenation is the sum of the counts |
| CodeRunnerWorker.RoundPercentBounds | src/workers/codeRunnerWorker.ts:62 | the progress after k of n cases is 100k/n rounded half up, within 0..100, and 100 for the last case |
| CodeRunnerWorker.LatestIsLastWrite | src/workers/codeRunnerWorker.ts:17-59 | the value stored for the run is the last of the writes: the initial "Running" one followed by the snapshots that went through |
| CodeRunnerWorker.CaseWritesAreRunning | src/workers/codeRunnerWorker.ts:51-59 | each snapshot goes under the job's run id, has status "Running", the total of cases, and a prefix of the results; there is at most one per case and no terminal status is ever written |
| CodeRunnerWorker.ProgressInRange | src/workers/codeRunnerWorker.ts:62-63 | every progress update is within 0..100, and the last one is 100 when the final case ran and both its calls returned |
| CodeRunnerWorker.ExecutedStep | src/workers/codeRunnerWorker.ts:29-75 | a case that ran appends its entry, then the catch block's entry when a later call threw; the counter grows exactly when it passed, even if a later call threw; the snapshot, whose passedTestCases is this case's flag, is written unless the write threw; the rounded progress is reported only when both calls returned |
| CodeRunnerWorker.ThrewStep | src/workers/codeRunnerWorker.ts:65-75 | a case whose execution threw appends its Runtime Error entry and leaves the counter, the snapshots and the progress unchanged |
| CodeRunnerWorker.GradeNext | src/workers/codeRunnerWorker.ts:25-76 | one loop step: results, counter and progress advance as the reference definitions say, and so do the write log and the run's entry with the 300 s expiry, for every outcome of the engine call and of the two calls after the push |
| CodeRunnerWorker.RecordExecuted | src/workers/codeRunnerWorker.ts:38-75 | a case that ran: its entry is appended and counted when it passed; a thrown write leaves the store alone and adds the Runtime Error entry; a thrown progress update keeps the snapshot and adds that entry; with both calls returning, the snapshot is stored with the 300 s expiry and the rounded progress is reported |
| CodeRunnerWorker.AfterPush | src/workers/codeRunnerWorker.ts:51-74 | the snapshot write, then the progress report; a throw skips what follows it inside the try and appends the catch block's entry with the thrown message |
| CodeRunnerWorker.Snap | src/workers/codeRunnerWorker.ts:51-59 | one snapshot write is appended to the write log and replaces the run's entry, with the 300 s expiry |
| CodeRunnerWorker.GradeAll | src/workers/codeRunnerWorker.ts:24-76 | the loop over all cases ends with the results, counter, progress, write log and stored entry the reference definitions give for all n cases |
| CodeRunnerWorker.HandleRun | src/workers/codeRunnerWorker.ts:12-88 | a throw from the initial "Running" write rejects the job before any write; a throw from the first progress report rejects it after that write; otherwise the result carries the run id, the number of cases, the graded entries and the pass count, progress starts at 0, the store sees "Running" first and then the snapshots that went through, and the final result is returned, never stored |
| SubmissionRunnerWorker.FlattenAppend | src/workers/submissionRunnerWorker.ts:39 | flattening distributes over concatenation |
| SubmissionRunnerWorker.FlattenChunks | src/workers/submissionRunnerWorker.ts:62-68 | flattening the chunks gives back the input exactly |
| SubmissionRunnerWorker.ChunkSizes | src/workers/submissionRunnerWorker.ts:62-68 | every chunk has between 1 and size elements, and every chunk but the last has exactly size |
| SubmissionRunnerWorker.ChunkCountBounds | src/workers/submissionRunnerWorker.ts:62-68 | the chunks cover the input and the last one is not empty |
| SubmissionRunnerWorker.ChunkCount | src/workers/submissionRunnerWorker.ts:62-68 | the number of chunks is ceil(n / size); an empty input gives none |
| SubmissionRunnerWorker.ChunkAt | src/workers/submissionRunnerWorker.ts:64-65 | chunk j is the slice starting at j·size, cut at the end of the input |
| SubmissionRunnerWorker.ChunksFrom | src/workers/submissionRunnerWorker.ts:64-65 | the chunks from position i are one slice followed by the chunks after it |
| SubmissionRunnerWorker.ChunkArray | src/workers/submissionRunnerWorker.ts:62-68 | the loop builds exactly the chunk sequence the reference definition gives |
| SubmissionRunnerWorker.Inputs | src/workers/submissionRunnerWorker.ts:21 | only the test cases' inputs are sent, one per case, in order |
| SubmissionRunnerWorker.Ask | src/workers/submissionRunnerWorker.ts:32-34 | each batch of a wave is sent to the engine with the job's language and code, one answer per batch |
| SubmissionRunnerWorker.AskSlice | src/workers/submissionRunnerWorker.ts:29-34 | asking for a slice of the batches gives the slice of the answers |
| SubmissionRunnerWorker.FirstFailure | src/workers/submissionRunnerWorker.ts:36 | when some batch fails, the reported failure is the lowest-index failing batch, all earlier batches having completed |
| SubmissionRunnerWorker.WavesPartitionBatches | src/workers/submissionRunnerWorker.ts:11-29 | waves of at most 3 consecutive batches partition the batches: each wave has 1 to 3, and there are ceil(batches / 3) of them |
| SubmissionRunnerWorker.CollectedPrefix | src/workers/submissionRunnerWorker.ts:39 | the results collected up to b are those up to a followed by those from a to b |
| SubmissionRunnerWorker.CollectedIsFlatten | src/workers/submissionRunnerWorker.ts:39 | the collected results are the per-batch result lists concatenated in batch order |
| SubmissionRunnerWorker.RunWave | src/workers/submissionRunnerWorker.ts:32-39 | a wave succeeds exactly when all its batches complete, giving their results in batch order, and otherwise fails with the first failing batch's message |
| SubmissionRunnerWorker.FirstFailureAt | src/workers/submissionRunnerWorker.ts:36 | a failing batch after only completed ones is the first failure |
| SubmissionRunnerWorker.WaveStep | src/workers/submissionRunnerWorker.ts:28-39 | a completed wave extends the collected prefix; a failing one places the overall first failure inside it |
| SubmissionRunnerWorker.WaveFailure | src/workers/submissionRunnerWorker.ts:28-36 | when a wave has a failing batch, the job's first failure lies in that wave and its message is the one the wave reports |
| SubmissionRunnerWorker.RecordWave | src/workers/submissionRunnerWorker.ts:41 | after a completed wave, the write log gains the "Running" snapshot of the accumulated results and the submission's key holds it with the 300 s expiry |
| SubmissionRunnerWorker.NextWave | src/workers/submissionRunnerWorker.ts:28-43 | one loop step: a failing wave writes nothing and reports the job's first failure; a completed wave extends the results, then either its write throws, leaving the store as it was and reporting the write's error, or the "Running" snapshot with the accumulated results is stored |
| SubmissionRunnerWorker.FirstWriteFault | src/workers/submissionRunnerWorker.ts:41-42 | the first of the waves written so far whose write throws: every earlier write goes through, and the wave it names, when any, does throw |
| SubmissionRunnerWorker.FirstWriteFaultAt | src/workers/submissionRunnerWorker.ts:41-42 | a throwing write after clean ones is the first write fault |
| SubmissionRunnerWorker.NoWriteFaultBefore | src/workers/submissionRunnerWorker.ts:41-42 | when every write of the first k waves goes through, the first write fault is k itself |
| SubmissionRunnerWorker.CompletedWaveIsDone | src/workers/submissionRunnerWorker.ts:28-39 | a wave whose batches all completed is one of the waves the runner finishes |
| SubmissionRunnerWorker.WavesAtExit | src/workers/submissionRunnerWorker.ts:28 | the wave loop stops after ceil(batches / 3) waves, having covered every batch |
| SubmissionRunnerWorker.RunWaves | src/workers/submissionRunnerWorker.ts:21-46 | the loop after the initial write succeeds exactly when every batch completes and every write goes through, returning all results in batch order; it rethrows the first throwing write when that comes before the first failing wave, and otherwise the first failing batch; the store holds exactly the snapshots written before the stop |
| SubmissionRunnerWorker.HandleSubmission | src/workers/submissionRunnerWorker.ts:15-51 | a throw from the initial "Running" write is rethrown with nothing written; otherwise "Running" is written first and the outcome and the later writes are those of the wave loop, never a terminal status |
| DbOperationWorker.CalculateWeightedScore | src/workers/dbOperationWorker.ts:32-45 | the loop computes the weighted score: passed weight over total weight, a missing weight counting 1, and 0 when the total is 0 |
| DbOperationWorker.PassedWeightBounds | src/workers/dbOperationWorker.ts:36-42 | with non-negative weights the passed weight lies between 0 and the total weight |
| DbOperationWorker.WeightedScoreInUnitInterval | src/workers/dbOperationWorker.ts:44 | with non-negative weights the weighted score is in [0, 1] |
| DbOperationWorker.AllPassedScoresOne | src/workers/dbOperationWorker.ts:32-45 | when every case passed the score is 1, provided the total weight is positive |
| DbOperationWorker.NonePassedScoresZero | src/workers/dbOperationWorker.ts:32-45 | when no case passed the score is 0 |
| DbOperationWorker.DetermineSubmissionStatus | src/workers/dbOperationWorker.ts:77-85 | the loop returns the status of the reference definition |
| DbOperationWorker.StatusOfFirstFailure | src/workers/dbOperationWorker.ts:79-82 | the status is that of the first result that did not pass |
| DbOperationWorker.StatusWhenAllPassed | src/workers/dbOperationWorker.ts:84 | when every result passed the status is "Accepted" |
| DbOperationWorker.StatusComesFromAFailure | src/workers/dbOperationWorker.ts:77-85 | a status other than "Accepted" is the status of some failed result |
| DbOperationWorker.CountedAppend | src/workers/dbOperationWorker.ts:63-70 | one more result adds its time and memory to the counted lists exactly when they qualify |
| DbOperationWorker.MaxOfSnoc | src/workers/dbOperationWorker.ts:65-68 | the running maximum after one more value is the larger of the two |
| DbOperationWorker.MaxOfIsMaximum | src/workers/dbOperationWorker.ts:59-70 | the running maximum is at least the start value and every counted value, and is one of them |
| DbOperationWorker.TimeCountsIffTruthy | src/workers/dbOperationWorker.ts:64 | an execution time counts exactly when it is truthy: present, non-zero and not NaN |
| DbOperationWorker.CalculateAverageResources | src/workers/dbOperationWorker.ts:51-75 | the loop returns (0, 0) for no results, and otherwise the maxima of the qualifying times and memories, starting from MIN_SAFE_INTEGER |
| DbOperationWorker.CountedTimeBelowMax | src/workers/dbOperationWorker.ts:63-66 | every qualifying execution time is at most the reported maximum |
| DbOperationWorker.CountedTimeIn | src/workers/dbOperationWorker.ts:64-65 | every qualifying execution time is among the counted ones |
| DbOperationWorker.NoCountedTimeGivesMinSafe | src/workers/dbOperationWorker.ts:59-74 | when no time qualifies on a non-empty list the reported maximum stays MIN_SAFE_INTEGER |
| DbOperationWorker.NoCountedTimes | src/workers/dbOperationWorker.ts:64 | when no time qualifies none is counted |
| DbOperationWorker.RoundToTwoDecimals | src/workers/dbOperationWorker.ts:47-49 | the rounded value is a whole number of hundredths, within half a hundredth of the input |
| DbOperationWorker.RoundKeepsCents | src/workers/dbOperationWorker.ts:47-49 | a whole number of cents is left unchanged |
| DbOperationWorker.RawScoreBounds | src/workers/dbOperationWorker.ts:127-133 | the pre-rounding score is undefined exactly when there are no test cases, and otherwise lies between 0 and problemPoint times the sum of the two weights |
| DbOperationWorker.FullMarksWithDefaults | src/workers/dbOperationWorker.ts:127-133 | with no score row and every case passed the pre-rounding score is 100 times the problem point (30 + 70) |
| DbOperationWorker.DecimalString | src/workers/dbOperationWorker.ts:165 | the index is written as a non-empty string of decimal digits |
| DbOperationWorker.DecimalRoundTrip | src/workers/dbOperationWorker.ts:165 | reading the written index back gives the index |
| DbOperationWorker.FallbackIdsDistinct | src/workers/dbOperationWorker.ts:165 | the fallback test-case ids of two different indices differ |
| DbOperationWorker.MissingTimeStoredAsNaN | src/workers/dbOperationWorker.ts:167 | as written, a result without an execution time gives a row time of NaN |
| DbOperationWorker.RowExecutionTime | src/workers/dbOperationWorker.ts:167 | corrected: a missing time becomes 0, a present one is kept, so NaN appears only when the result itself holds NaN |
| DbOperationWorker.ResultRows | src/workers/dbOperationWorker.ts:161-169 | as written: one row per result, in order, under the submission id, with the fallback test-case id `testcase_<index>`, "Unknown" for an empty status, memory defaulting to 0, and a missing execution time stored as NaN |
| DbOperationWorker.IntendedResultRows | src/workers/dbOperationWorker.ts:161-169 | corrected: the same rows with a missing execution time stored as 0 |
| DbOperationWorker.IntendedRowsDifferOnlyInMissingTimes | src/workers/dbOperationWorker.ts:167 | the corrected rows agree with the rows as written in every field except the time of a result that has none, which is NaN as written and 0 as corrected |
| DbOperationWorker.RowsWithoutIdsAreDistinct | src/workers/dbOperationWorker.ts:165 | two results without ids get different test-case ids |
| DbOperationWorker.Backoff | src/workers/dbOperationWorker.ts:242-250 | a run of k attempts waits k−1 times, the j-th wait being baseDelay·2^j, with no wait after the last attempt |
| DbOperationWorker.BackoffDoubles | src/workers/dbOperationWorker.ts:247 | each wait is twice the previous one |
| DbOperationWorker.RetryOperation | src/workers/dbOperationWorker.ts:224-255 | the loop gives the result and attempt count of the reference definition, and waits exactly the backoff sequence |
| DbOperationWorker.RetryFromFacts | src/workers/dbOperationWorker.ts:232-254 | starting at attempt k, every attempt before the last one failed; a success returns that attempt's value; a failure happens only after maxAttempts attempts and carries the last error |
| DbOperationWorker.RetryFacts | src/workers/dbOperationWorker.ts:224-255 | between 1 and maxAttempts calls; the first success is returned; after maxAttempts failures the last error is rethrown |
| DbOperationWorker.RetryIgnoresErrorKind | src/workers/dbOperationWorker.ts:239-251 | two operations that succeed on the same attempts with the same values retry identically, whatever their errors |
| DbOperationWorker.LogLineFor | src/workers/dbOperationWorker.ts:206-212 | the extra log line is the constraint one, else the network one, else the validation one, tried in that order |
| DbOperationWorker.FalsyThrownValueUnclassified | src/workers/dbOperationWorker.ts:258-290 | a falsy thrown value matches none of the three classifiers |
| DbOperationWorker.MessageTestsAreCaseSensitive | src/workers/dbOperationWorker.ts:284-288 | the message tests are case-sensitive: "invalid" is a validation error, "Invalid" is not |
| DbOperationWorker.TimeoutMessageIsNetworkError | src/workers/dbOperationWorker.ts:273-277 | any message containing "timeout" marks a network error |
| DbOperationWorker.Persisted | src/workers/dbOperationWorker.ts:145-197 | at most two retried repository calls; a successful result carries a non-empty id and the submission's own score and status |
| DbOperationWorker.StoredRows | src/workers/dbOperationWorker.ts:160-197 | the rows write makes at most the retry limit of calls, and a success reports the created id with the submission's score and status |
| DbOperationWorker.PersistSubmission | src/workers/dbOperationWorker.ts:145-197 | returns exactly `Persisted` and makes its calls; the submission is created with retries; a missing or empty id, a failed results write, or a falsy results answer each give their own error; otherwise one row per result is written, as written with a NaN time for a result that has none, and the summary reports the id, score, status and passedTestCases, or the row count when that is 0 |
| DbOperationWorker.ComputeTotalScore | src/workers/dbOperationWorker.ts:126-133 | the score is computed as the reference definition says, with defaults of 30 and 70 |
| DbOperationWorker.ProcessJob | src/workers/dbOperationWorker.ts:90-215 | a missing runnerResult fails with a TypeError before anything else; missing metadata or no results are rejected before any repository call; a failed score fetch persists nothing; otherwise the persisted data carries the computed score, status and resources, the result is `Persisted` of that data and the calls are the score lookup's plus its calls, and the rows are those built as written |
| StatusStore.Read | src/utils/redisClient.ts:26-28 | a key is read back exactly while it is present and not expired, giving the stored value |
| StatusStore.ReadAfterWrite | src/utils/redisClient.ts:22-32 | a write is visible under its key until its expiry and then gone, and leaves every other key as it was |
| StatusStore.RedisClient.constructor | src/utils/redisClient.ts:7-13 | a new client starts with an empty key space and no writes |
| StatusStore.RedisClient.SetForRun | src/utils/redisClient.ts:22-24 | the key now holds the value with an expiry 300 s ahead; nothing else changes |
| StatusStore.RedisClient.SetTestcase | src/utils/redisClient.ts:30-32 | the key now holds the value with an expiry 4 hours (14400 s) ahead; nothing else changes |
| StatusStore.RedisClient.GetResult | src/utils/redisClient.ts:26-28 | the value is returned exactly while the key is present and unexpired; the absent and expired cases give none |
| StatusStore.Registry.constructor | src/utils/redisClient.ts:5 | no instance exists before the first request |
| StatusStore.Registry.GetInstance | src/utils/redisClient.ts:15-20 | the first call creates a fresh, empty client and keeps it; later calls return that same client |
| StatusStore.GetInstanceTwice | src/utils/redisClient.ts:15-20 | two calls give the same client object |
| StatusStore.SharedKeySpace | src/utils/redisClient.ts:22-32 | run snapshots and test-case bundles share one key space: a bundle written under a run's key replaces its snapshot and is what a read sees |
| RunService.CodeRunnerQueue.constructor | src/v1/services/run.service.ts:17 | the queue starts empty |
| RunService.CodeRunnerQueue.Add | src/v1/services/run.service.ts:17 | adding a job appends it, name and payload, after the earlier ones |
| RunService.Run | src/v1/services/run.service.ts:10-20 | "Queued" is stored under the run id with the 300 s expiry, then the request plus that id is enqueued as "execute-run-only", and the same id is returned |
| RunService.DecideResult | src/v1/services/run.service.ts:27-36 | an absent key is "No submission found for given run id" (500); a stored "Failed" status is "Failed to execute the code" (500); anything else is returned as stored |
| RunService.GetResult | src/v1/services/run.service.ts:22-37 | the answer is the decision on what the store reads for the run id now |
| RunService.QueuedIsVisibleUntilExpiry | src/v1/services/run.service.ts:15-36 | after a run is queued, reading its id gives "Queued" until the 300 s expiry and the not-found error afterwards |
| RunService.RunThenRead | src/v1/services/run.service.ts:10-37 | reading a run straight after queueing it gives the "Queued" status under the returned id |
| SubmissionService.LiveWindowIsInclusive | src/v1/services/submission.service.ts:35-43 | the contest is live exactly from its start to its end instant, both included, and not one instant outside |
| SubmissionService.LiveContestErrors | src/v1/services/submission.service.ts:36-42 | the check fails exactly when the contest row is missing, with "No contest found with given id"; an unreadable submission time is never live |
| SubmissionService.ParticipantIffListed | src/v1/services/submission.service.ts:31-32 | the student takes part exactly when some batch of the contest is the student's batch |
| SubmissionService.ParticipantLookupOrder | src/v1/services/submission.service.ts:22-28 | a missing batch list fails first ("Failed to fetch batches data."), a missing student row next ("Failed to fetch student data"), and nothing else fails |
| SubmissionService.AdmittedIff | src/v1/services/submission.service.ts:45-73 | a contest submission is admitted exactly when it carries a user id and comes from a student, inside the window, whose batch takes part; a submission without a contest id is let through unchecked |
| SubmissionService.EarlyChecksComeFirst | src/v1/services/submission.service.ts:47-59 | no user id is refused first (401), and a contest submission from a non-student next (401), before any lookup |
| SubmissionService.RejectionReasons | src/v1/services/submission.service.ts:67-69 | a student outside the window is refused with the time-frame message (401) |
| SubmissionService.NonMemberRejected | src/v1/services/submission.service.ts:71-73 | a student inside the window but in no listed batch is refused with the unauthorized-access message (401) |
| SubmissionService.MissingSubmissionTimeIsNeverLive | src/v1/services/submission.service.ts:41-42 | a submission without a readable submission time is always refused for the time frame |
| SubmissionService.WithDriverCode | src/v1/services/submission.service.ts:86 | the judged code is the prelude, a blank line, the student's code, a blank line and the driver code, each found at its offset |
| SubmissionService.FetchOne | src/v1/services/submission.service.ts:128-147 | a test case is fetched when both files are read, the input first; it keeps the row's id and weight, the file contents, and as names the last path segments of the two keys |
| SubmissionService.FetchAll | src/v1/services/submission.service.ts:127-150 | every row is fetched in order; the list fails exactly when some row fails, with the lowest-index failure |
| SubmissionService.FetchTestcases | src/v1/services/submission.service.ts:119-151 | no rows, absent or empty, is "No testcases found for the given problem"; a success has one entry per row |
| SubmissionService.GetOrFetchTestcases | src/v1/services/submission.service.ts:92-117 | a cached value is returned as is; a miss fetches, and writes the bundle with the 4-hour expiry only when the fetch succeeds and the store accepts the write, a failed write being ignored |
| SubmissionService.CachedBundleIsServedAgain | src/v1/services/submission.service.ts:94-116 | a bundle just cached is what the next call returns until it expires, whatever the repository says by then |
| SubmissionService.HitIsReturnedAsIs | src/v1/services/submission.service.ts:94-98 | on a hit the stored value is returned without a fetch, even when it is a run snapshot under the same key |
| SubmissionService.AcceptedCodeIsWrapped | src/v1/services/submission.service.ts:76-89 | an accepted submission had a driver-code row with both parts and its test cases; it is returned with those test cases and the wrapped code |
| SubmissionService.CreateSubmission | src/v1/services/submission.service.ts:45-90 | a refused submission fails with its reason and leaves the store alone; a non-contest one returns nothing; an admitted one returns the test cases and the wrapped submission, and the store changes only when a missed bundle is cached |
| ProblemService.TeacherRoleOutcomes | src/v1/services/problem.service.ts:29-48 | a string caller is accepted as it is; a user object passes exactly when its role is TEACHER or ASSISTANT_TEACHER and its id is present, giving that id; a missing or other role is "Only teachers are allowed to perform this action" (401) |
| ProblemService.RequiredIff | src/v1/services/problem.service.ts:53-57 | a value passes exactly when it is truthy and, if a string, not all whitespace; otherwise the error is "<field> is required" with the given status |
| ProblemService.CacheKeyEndsWithProblem | src/v1/services/problem.service.ts:74 | every cache key for a problem ends with "-" and the problem id |
| ProblemService.Decide | src/v1/services/problem.service.ts:86-94 | a decided authorization has access exactly when the user is the creator or a moderator |
| ProblemService.AuthorizationOnMiss | src/v1/services/problem.service.ts:81-97 | on a miss a missing problem is "Problem not found" (404); otherwise the user is creator iff the creator's id is theirs, moderator iff some moderator's id is theirs, and the result is cached under the key with the current time |
| ProblemService.HitIgnoresLookups | src/v1/services/problem.service.ts:75-79 | an unexpired cached result is returned unchanged, whatever the repository would say, and the cache is left alone |
| ProblemService.StoredResultIsServed | src/v1/services/problem.service.ts:75-95 | a result just computed is what later checks return until 5 minutes have passed, even if the problem or its moderators change |
| ProblemService.ClearIsExact | src/v1/services/problem.service.ts:168-174 | clearing a problem removes every key ending in "-" and its id and keeps every other key with its entry |
| ProblemService.ClearReachesSuffixProblems | src/v1/services/problem.service.ts:168-174 | clearing problem p also removes the entries of any problem whose id ends in "-p" |
| ProblemService.CleanupKeepsHits | src/v1/services/problem.service.ts:453-460 | cleanup keeps every unexpired entry, keeps but no longer serves one exactly 5 minutes old, and drops older ones |
| ProblemService.AuthCache.constructor | src/v1/services/problem.service.ts:23 | the cache starts empty |
| ProblemService.AuthCache.CheckProblemAuthorization | src/v1/services/problem.service.ts:73-98 | the answer and the new cache are those of the cached-authorization definition, and an answer always has access iff creator or moderator |
| ProblemService.AuthCache.ClearAuthCache | src/v1/services/problem.service.ts:168-174 | the cache loses exactly the keys ending in "-" and the problem id |
| ProblemService.AuthCache.CleanupCache | src/v1/services/problem.service.ts:453-460 | the cache keeps exactly the entries at most 5 minutes old |
| ProblemService.AuthCache.AddModeratorsToProblem | src/v1/services/problem.service.ts:356-372 | the outcome follows the checks in order (problem id, creator access, no self-moderation, the insert); a blank id leaves the cache alone, a later failure keeps the authorization it cached, and a success clears the problem's entries |
| ProblemService.AuthCache.RemoveProblem | src/v1/services/problem.service.ts:292-308 | the outcome follows the checks in order (problem id, existence, creator, the soft delete); only a success clears the problem's cache entries |
| ProblemService.SelfModerationRefused | src/v1/services/problem.service.ts:362-364 | a creator who lists themself as a new moderator is refused |
| ProblemService.AddedOnlyByCreator | src/v1/services/problem.service.ts:356-369 | when the authorization is not cached, moderators are added only by the problem's creator, not to themself, with a non-blank problem id and a successful insert |
| ProblemService.RemovedOnlyByCreator | src/v1/services/problem.service.ts:292-305 | a removal succeeds exactly when the id is not blank, the problem exists, the caller is its creator and the soft delete succeeds |
| ProblemService.ConvertTouchesOnlyTruthyFields | src/v1/services/problem.service.ts:154-163 | only a present, non-empty prelude, boilerplate or driver code is converted, in the chosen direction; every other field is kept |
| ProblemService.ConvertRoundTrip | src/v1/services/problem.service.ts:154-163 | encoding and then decoding driver-code data gives it back, given a decoder that inverts the encoder and an encoder that never produces an empty string from a non-empty one |
| ProblemService.ProcessAllKeepsShape | src/v1/services/problem.service.ts:133-149 | processing succeeds exactly when every file read succeeds, and then keeps each test case with its input and output replaced by the file contents, in order |
| ProblemService.ProcessAllAppend | src/v1/services/problem.service.ts:136-146 | processing two lists one after the other is processing their concatenation: the first failure wins, otherwise the results are joined |
| ProblemService.BatchStep | src/v1/services/problem.service.ts:136-146 | one batch extends the processed prefix or fails the whole call with its own failure |
| ProblemService.ProcessTestcases | src/v1/services/problem.service.ts:133-149 | the batched loop gives exactly the reference result, whatever the batch size |
| TestcaseService.TeacherIff | src/v1/services/testcase.service.ts:14-22 | a caller passes exactly when it has an id and the TEACHER or ASSISTANT_TEACHER role; a missing id is "No teacher id found" |
| TestcaseService.TeacherChecksDisagreeOnOrder | src/v1/services/testcase.service.ts:14-22 | for a non-teacher without an id this check reports the missing id, while the problem service's check reports the role |
| TestcaseService.IsModeratorAllowed | src/v1/services/testcase.service.ts:40-52 | a missing teacher id is an error; otherwise the answer is true exactly when some moderator's id is the teacher's |
| TestcaseService.ProblemAccessIff | src/v1/services/testcase.service.ts:24-38 | access is granted exactly when the teacher id is present, the problem exists, and the teacher is its creator or one of its moderators; the check fails exactly when the id or the problem is missing |
| TestcaseService.CheckProblem | src/v1/services/testcase.service.ts:24-38 | the method gives the access decision of the reference definition |
| TestcaseService.AccessGateIff | src/v1/services/testcase.service.ts:55-61 | a request gets past the gate exactly when the caller is a teacher, the id check passes and the teacher has access to the problem |
| TestcaseService.Gate | src/v1/services/testcase.service.ts:55-61 | the method gives the gate decision of the reference definition |
| TestcaseService.KeysRoundTrip | src/v1/services/testcase.service.ts:63-64 | the last path segment of an upload key is the file name it was built from |
| TestcaseService.KeysAreDistinct | src/v1/services/testcase.service.ts:63-64 | an input key never equals an output key, and each key determines its file name |
| TestcaseService.PresignAllShape | src/v1/services/testcase.service.ts:92-105 | the bulk presign succeeds exactly when every pair is presigned, giving one pair of URLs per request in order, and otherwise fails with the upload-URL error (500) |
| TestcaseService.GeneratePresignedUrl | src/v1/services/testcase.service.ts:54-78 | a request refused at the gate fails with the gate's error; otherwise the answer is the presigned input and output URLs of the two keys, or the upload-URL error when either is missing |
| TestcaseService.GenerateBulkPresignedUrl | src/v1/services/testcase.service.ts:81-110 | a request refused at the gate fails with the gate's error; otherwise the answer is the bulk presign of every request |
| TestcaseService.PresignAllFailsFrom | src/v1/services/testcase.service.ts:92-101 | once a prefix of the requests fails, the whole bulk call fails the same way |
| TestcaseService.RewriteKeys | src/v1/services/testcase.service.ts:124-130 | every test case keeps its fields, with input and output replaced by their storage keys under its own problem id |
| TestcaseService.RewrittenNamesReadBack | src/v1/services/testcase.service.ts:124-130 | the last segment of each rewritten key is the original file name, and the problem id is kept |
| TestcaseService.CreateTestcases | src/v1/services/testcase.service.ts:115-135 | an empty list fails first; the gate looks up only the first test case's problem and its moderators and a refused caller fails with the gate's error; otherwise a successful insert returns every row with keys under its own problem, and a failed one "Failed to upload testcases, please try again." (500) |
| TestcaseService.LaterCaseOfForeignProblemPasses | src/v1/services/testcase.service.ts:120-131 | a teacher who owns the first case's problem but not a later case's passes the gate, and that later case is inserted under its own problem's keys |
| TestcaseService.PairWithUrls | src/v1/services/testcase.service.ts:189-197 | row i is paired with URL pair i: each file becomes its key and its preview URL, the other fields kept |
| TestcaseService.GetAllTestcases | src/v1/services/testcase.service.ts:160-202 | a request refused at the gate fails with the gate's error; otherwise it succeeds exactly when every file has a preview URL, listing each row with its keys and URLs in order, and fails with "Failed to fetch all the testcases" (500) otherwise |
| TestcaseService.CheckTestcase | src/v1/services/testcase.service.ts:205-228 | a missing teacher id fails first, a missing test case next; otherwise the check passes exactly when the teacher created the problem or is one of its moderators, and fails with the change-denied message |
| ContestService.Guard | src/v1/services/contest.service.ts:19-62 | each operation refuses exactly the empty contest or user id, with that operation's own message and status |
| ContestService.GuardStatusesByOperation | src/v1/services/contest.service.ts:19-162 | the missing-id status is 400 for deleteModerator, addModerator and getContestById, 502 for getAllProblems, and 500 for the rest |
| ContestService.OptionalText | src/v1/services/contest.service.ts:63-64 | an absent optional field is undefined, and only an absent one |
| ContestService.ScalarFields | src/v1/services/contest.service.ts:63 | the fields left after taking out the four lists have distinct names, none of them a relation |
| ContestService.CreateEntries | src/v1/services/contest.service.ts:71-92 | one create entry per id |
| ContestService.CreateEntriesReadBack | src/v1/services/contest.service.ts:71-92 | create entry i is an object whose only key is the id field, holding id i |
| ContestService.Assign | src/v1/services/contest.service.ts:69-93 | after setting a property, reading it gives the new value and every other property reads as before |
| ContestService.AssignKeepsUniqueKeys | src/v1/services/contest.service.ts:69-93 | setting a property never duplicates a key |
| ContestService.ScalarFieldsRead | src/v1/services/contest.service.ts:63 | the rest object reads as the update's own scalar fields, and has no relation fields |
| ContestService.StartOfUpdate | src/v1/services/contest.service.ts:63-64 | after cleaning, the data holds exactly the defined scalar fields and none of the relations |
| ContestService.EndOfUpdate | src/v1/services/contest.service.ts:89-96 | once all four relations are handled, the data is the whole update |
| ContestService.RelationStep | src/v1/services/contest.service.ts:67-94 | handling one list replaces its relation when the list is given and leaves the data alone when it is not |
| ContestService.ReplaceRelation | src/v1/services/contest.service.ts:67-94 | one `if (list)` block keeps the data describing the update so far, one more relation handled |
| ContestService.BuildUpdateData | src/v1/services/contest.service.ts:63-94 | the data sent has no undefined values and reads, field by field, as the reference description of the update |
| ContestService.AbsentListIsNotTouched | src/v1/services/contest.service.ts:67-94 | a relation is in the data exactly when its list was given; an absent list leaves the stored relation alone |
| ContestService.AbsentScalarIsDropped | src/v1/services/contest.service.ts:63-64 | a scalar field is in the data exactly when it was given, and isOpen is always sent |
| ContestService.EmptyListClearsRelation | src/v1/services/contest.service.ts:67-73 | an empty language list still deletes every stored language and creates none |
| ContestService.FormatContestData | src/v1/services/contest.service.ts:109-121 | the other fields are kept and each of the four relations keeps its length |
| ContestService.FormatLosesNothing | src/v1/services/contest.service.ts:109-121 | formatting loses nothing: putting each flattened entry back under its link gives the row again |
| ContestService.UpdateContestData | src/v1/services/contest.service.ts:59-107 | an empty id is refused before anything is sent; otherwise the data sent is the update's description, a missing answer is "Failed to update the contest, please try one more time." (500), and the answer is returned formatted |
| ContestService.GetContestByIdResult | src/v1/services/contest.service.ts:123-134 | an empty id is "No contest id found" (400), a missing row "Failed to find the contest detail." (500); a found row is returned formatted, losing nothing |
| ContestService.GetContestsResult | src/v1/services/contest.service.ts:160-167 | only an empty user id is refused (500); otherwise every contest is returned formatted, in order |
| ContestService.GetAllModeratorsResult | src/v1/services/contest.service.ts:51-57 | only an empty id is refused (500); otherwise each moderator is unwrapped from its link, in order |
| ContestService.GetAllProblemsResult | src/v1/services/contest.service.ts:146-158 | only an empty id is refused (502); otherwise each row becomes its problem's id, title, difficulty and the contest points, in order and losing nothing |
| ContestService.AddProblemToContestAsWritten | src/v1/services/contest.service.ts:136-144 | as written, a missing row is not reported: the `points` read of null throws a TypeError |
| ContestService.AddProblemToContest | src/v1/services/contest.service.ts:136-144 | corrected: a missing row is "Failed to add problem to the contest." (500), and a present one gives its points, problem id and title |
| ContestService.MissingRowIsNotReportedAsWritten | src/v1/services/contest.service.ts:139-143 | the two agree on every present row and differ on the missing one, where the as-written error is not the API error |
| Helper.CleanObject | src/utils/helper.ts:1-5 | exactly the entries whose value is not undefined are kept; null, false, 0 and "" stay |
| Helper.CleanObjectKeepsOrder | src/utils/helper.ts:2-4 | the kept entries keep their order |
| Helper.CleanObjectKeys | src/utils/helper.ts:2-4 | no key is invented, and no kept value is undefined |
| Helper.CleanObjectIdempotent | src/utils/helper.ts:1-5 | cleaning twice is cleaning once |
| Helper.CleanObjectReadsSame | src/utils/helper.ts:1-5 | on an object with distinct keys, every property reads the same before and after cleaning |
| Helper.CleanObjectKeepsUniqueKeys | src/utils/helper.ts:1-5 | cleaning keeps keys distinct |
| Text.TrimmedHasNoOuterWhitespace | src/workers/codeRunnerWorker.ts:38 | a trimmed output neither starts nor ends with whitespace, and trimming it again changes nothing |
| Text.TrimIdempotent | src/workers/codeRunnerWorker.ts:38 | trimming twice is trimming once |
| Text.TrimEmptyIffAllWhitespace | src/v1/services/problem.service.ts:54 | a string trims to empty exactly when it is made only of whitespace |
| Text.IncludesNeedsRoom | src/workers/dbOperationWorker.ts:264 | a message never includes a longer word |
| Text.IncludesAt | src/workers/dbOperationWorker.ts:273-277 | a word found at some position is included |
| Text.IncludesWitness | src/workers/dbOperationWorker.ts:284-288 | an included word occurs at some position |
| Text.ToLowerAscii | src/v1/types/testcase.type.ts:7 | lower-casing keeps the length and lower-cases each character on its own |
| Text.LastSegment | src/v1/services/submission.service.ts:136-137 | the last path segment contains no "/" and ends the path |
| Text.LastSegmentFollowsSlash | src/v1/services/submission.service.ts:136-137 | the last segment is the whole path when it has no "/", and otherwise the part right after a "/" |
| Text.LastSegmentOfPath | src/v1/services/submission.service.ts:136-137 | the last segment of a directory, "/" and a name without "/" is the name |
| Schema.AsObject | src/v1/types/testcase.type.ts:3 | an object schema accepts exactly objects, and reads their properties |
| Schema.ParseString | src/v1/types/problem.type.ts:4-5 | a string schema accepts exactly strings, as they are |
| Schema.ParseOptionalString | src/v1/types/problem.type.ts:9-11 | an optional string is absent exactly when undefined, kept when a string, refused otherwise |
| Schema.ParseStringMin | src/v1/types/contest.type.ts:4 | a string with a minimum length accepts exactly strings that long, and refuses a shorter one with the schema's message |
| Schema.ParseBool | src/v1/types/problem.type.ts:13 | a boolean schema accepts exactly booleans |
| Schema.ParseOptionalBool | src/v1/types/problem.type.ts:13 | an optional boolean is absent when undefined, kept when a boolean, refused otherwise |
| Schema.ParseBoolDefault | src/v1/types/testcase.type.ts:32 | the default replaces undefined only; a boolean is kept and anything else, null included, is refused |
| Schema.ParseInt32 | src/v1/types/testcase.type.ts:33 | an int32 schema accepts exactly the finite integral numbers in the signed 32-bit range |
| Schema.ParseInt32Default | src/v1/types/testcase.type.ts:33 | the default replaces undefined only; anything else is parsed as an int32 |
| Schema.ParseInt32Between | src/v1/types/contest.type.ts:23 | a bounded int32 accepts exactly the int32 values within both bounds, inclusive |
| Schema.ParseOptionalNumber | src/v1/types/problem.type.ts:14 | an optional number is accepted exactly when it is undefined or a finite number; it is absent when undefined and keeps its value when finite; NaN and non-numbers are refused |
| Schema.ParseEnum | src/v1/types/problem.type.ts:12 | an enum accepts exactly its listed strings, compared exactly |
| Schema.ParseEach | src/v1/types/contest.type.ts:11 | a list parses exactly when every element does, giving the parsed elements in order |
| Schema.ParseArray | src/v1/types/testcase.type.ts:24-25 | an array schema accepts exactly arrays whose elements all parse and that have at least the minimum length, and refuses a short one with the schema's message |
| TestcaseTypes.ParseFilename | src/v1/types/testcase.type.ts:4-16 | a file name is accepted exactly when it is a string of at least 4 characters ending in ".txt" in any case; a shorter one gets the field's length message |
| TestcaseTypes.ParseTestcaseCreate | src/v1/types/testcase.type.ts:3-20 | an upload pair is accepted exactly when both names are valid and differ, compared as written; the result holds the body's inputFilename and outputFilename |
| TestcaseTypes.ParseBulkTestcaseCreate | src/v1/types/testcase.type.ts:23-26 | a bulk upload is accepted exactly when it holds at least one pair and every pair is valid; the result has one entry per item, each that item's parsed pair |
| TestcaseTypes.ParseTestcase | src/v1/types/testcase.type.ts:28-35 | a test case is accepted exactly when it is an object with string problemId, input and output, and an isSample, int32 points and explanation that are each undefined or of their type; every given field keeps its value, and a missing isSample is false, a missing points 0, a missing explanation "" |
| TestcaseTypes.ParseTestcases | src/v1/types/testcase.type.ts:37-40 | accepted exactly when `testcases` is a non-empty array of accepted test cases, and then gives each one parsed, in order; an empty one gets "At least one test case is required." |
| TestcaseTypes.ParseTestcaseFilter | src/v1/types/testcase.type.ts:42-45 | the filter is accepted exactly when the problem id is a string and isSample is a boolean or missing; the result holds the body's problem id and a given isSample, and a missing isSample is true |
| TestcaseTypes.BareAndUpperCaseExtensionsPass | src/v1/types/testcase.type.ts:5-7 | ".txt" and "A.TXT" are valid names; "a.tx" and "txt" are not |
| TestcaseTypes.EqualNamesAreRefused | src/v1/types/testcase.type.ts:17-20 | the same name for input and output is always refused |
| TestcaseTypes.NamesDifferingInCaseAreAccepted | src/v1/types/testcase.type.ts:7-18 | "a.txt" and "A.TXT" count as different names, so the pair is accepted |
| TestcaseTypes.EmptyUploadListIsRefused | src/v1/types/testcase.type.ts:23-26 | an empty upload list is refused with "At least one test case is required" |
| TestcaseTypes.TestcaseDefaults | src/v1/types/testcase.type.ts:28-35 | the three required strings alone give a test case that is not a sample, worth 0 points, with no explanation |
| TestcaseTypes.FilterDefaultsToSamples | src/v1/types/testcase.type.ts:42-45 | a filter with only the problem id selects the sample test cases |
| ProblemTypes.ParseProblemCreate | src/v1/types/problem.type.ts:3-6 | a creation body is accepted exactly when title and createdBy are strings, and gives them |
| ProblemTypes.ParseOptionalDifficulty | src/v1/types/problem.type.ts:12 | a difficulty is accepted exactly when missing or one of "Easy", "Medium", "Hard"; it is absent exactly when undefined and otherwise is the body's string |
| ProblemTypes.ParseProblem | src/v1/types/problem.type.ts:8-16 | an update is accepted exactly when it is an object whose every field is undefined or of its type, with difficulty one of the three and points finite; each field is absent in the result exactly when undefined in the body, and otherwise carries the body's value |
| ProblemTypes.EmptyUpdateIsValid | src/v1/types/problem.type.ts:8-16 | an empty object is a valid update that sets nothing |
| ProblemTypes.ParseProblemModerator | src/v1/types/problem.type.ts:18-21 | the body is accepted exactly when problemId and moderatorId are strings, and gives them |
| ProblemTypes.ParseFlag | src/v1/types/problem.type.ts:25-32 | a flag is true for "true" or true, false for "false" or false, the default when missing, and refused for anything else |
| ProblemTypes.ParseProblemFilter | src/v1/types/problem.type.ts:24-38 | a filter is accepted exactly when both flags parse, createdBy is a string or missing, and a string difficulty is one of the three; createdBy and a given difficulty are the query's own strings, and a non-string difficulty is dropped rather than refused |
| ProblemTypes.OtherFlagSpellingsAreRefused | src/v1/types/problem.type.ts:25-27 | "TRUE", "1" and the number 1 are refused as flags |
| ProblemTypes.EmptyQueryDefaults | src/v1/types/problem.type.ts:24-38 | an empty query lists active, non-public problems with no creator or difficulty restriction |
| ContestTypes.ParseContestCreate | src/v1/types/contest.type.ts:3-5 | a title is accepted exactly when it is a string of at least one character; an empty one gets "The contest name should contain at least 1 character." |
| ContestTypes.ParseOptionalDateTime | src/v1/types/contest.type.ts:10 | a time is absent when undefined, kept when it is an ISO date-time string, refused otherwise |
| ContestTypes.ParseOptionalStrings | src/v1/types/contest.type.ts:11 | accepted exactly when undefined or an array of strings only; absent exactly when undefined, and otherwise gives every string in order |
| ContestTypes.ParseContest | src/v1/types/contest.type.ts:7-18 | accepted exactly when the body is an object and every field's own parser accepts it; each optional field is absent exactly when undefined and otherwise carries the body's string or strings; the times are ISO, and isOpen is true only when the body says true (false by default) |
| ContestTypes.ParseContestAcceptsExactly | src/v1/types/contest.type.ts:7-18 | the accepted bodies field by field: an object whose fields are each undefined or a string, a pair of ISO strings for the times, arrays of strings only for the lists and a boolean for isOpen |
| ContestTypes.EmptyBodyClosesContest | src/v1/types/contest.type.ts:7-18 | an empty body is a valid update that only sets isOpen to false |
| ContestTypes.ParsePoint | src/v1/types/contest.type.ts:23 | a point is accepted exactly when it is an int32 from 1 to 10, and is then the body's number; below 1 and above 10 get their own messages |
| ContestTypes.ParseContestProblemEntry | src/v1/types/contest.type.ts:21-24 | an entry is accepted exactly when its problem id is a string and its point is valid; it holds the body's problem id and point |
| ContestTypes.ParseContestProblems | src/v1/types/contest.type.ts:20-25 | the list is accepted exactly when every entry is, one result per entry, each that item's parsed entry with a point from 1 to 10 |
| ContestTypes.ParseContestMod | src/v1/types/contest.type.ts:27-29 | the moderator list is accepted exactly when it is an array of strings, giving them in order |
| ContestTypes.ParseProblemContestEdit | src/v1/types/contest.type.ts:31-34 | the edit is accepted exactly when the point is valid and the contest id is a string; it holds the body's point and contest id |
| ContestTypes.PointBounds | src/v1/types/contest.type.ts:23 | 1 and 10 are accepted, 0 and 11 get the minimum and maximum messages, and 1.5 is refused |
| ContestTypes.EmptyProblemListIsAccepted | src/v1/types/contest.type.ts:20-25 | an empty problem list is accepted |

## Left out

- Input and output: the BullMQ queues and workers, Express requests and responses, logging and `setInterval`.
  The job progress updates are returned as a sequence instead.
- Concurrency: jobs, cache accesses and `Promise.all` branches run one after another in the model.
- `JSON.stringify` and `JSON.parse` of cached values are the identity on the stored-value datatype; the model does
  not capture the text encoding.
- The clock, `uuid` and the fresh submission ids are parameters.
- The Prisma repositories, S3 presigning, the code executor and judge0 are function-typed parameters or given answers.
- `convertToBase64` and `convertToNormalString` wrap Node's `Buffer`; they are parameters.
- createContest, and the checks that deleteModerator, deleteProblemFromContest and addModerator make on the
  repository's answer. Only their guards before the write are modelled.
- The re-read of the created test cases in createTestcases (src/v1/services/testcase.service.ts:137-140).
- getTestcases, removeTestcase, getSampleTestcases, editTestcase and getTestcase of the test-case service
  beyond the authorisation checks they share.
- The problem-service request handlers other than the moderator and removal guards are outside the modelled
  core; several make checks of their own, which the model does not capture:
  - createProblem (src/v1/services/problem.service.ts:176-192) refuses a title already in use with 409 and a
    failed create with 500;
  - updateProblem (:194-212) refuses a caller other than the problem's creator with 401, but skips that check
    for a problem with no creator, and writes the tags only when some are given;
  - getProblemDetails (:233-265) fails with 404 when the problem is missing and with 500 when its sample test
    cases cannot be read; only its `processTestcases` step is modelled;
  - getTagsOfProblem, getProblemById, getAllProblems, getProblemsOfCreator, getModeratorsOfProblem,
    deleteModeratorFromProblem, deleteDriverCodes, addDriverCode, getDriverCodes and updateDriverCode
    (:214-231, :267-290, :315-354, :385-451) check existence, role or the repository's answer before or after
    one repository call.
- Floating point: numbers are exact reals. `Math.round` is modelled on rationals, and NaN is a separate value of
  the `Number` datatype.
- DbOperationWorker.RoundToTwoDecimals: drops the `Number.EPSILON` added before scaling
  (src/workers/dbOperationWorker.ts:48); on exact reals that nudge only matters for binary rounding error, which
  the model does not have.
- SubmissionService.CreateSubmission: the driver-code lookup is taken as the optional single row the service
  reads (`driverOf`). As written, the service calls getDriverCodes with two positional arguments, while the
  repository (src/v1/repositories/problem.repository.ts:324-336) takes one object and returns a `findMany`
  list, which has no `prelude`; under that reading the check at src/v1/services/submission.service.ts:81-83
  would refuse every admitted contest submission with "No driver code found for given problem". The model
  leaves `driverOf` unconstrained and does not promise that refusal.
- RunService.Run, RunService.GetResult and SubmissionService.GetOrFetchTestcases: the services' own store
  calls never throw in the model; fault parameters exist only for the workers. In the source a throwing
  `setForRun` rejects `run` before the enqueue (src/v1/services/run.service.ts:15-17), and a throwing read
  rejects `getResult` (:27) and getOrFetchTestcases (src/v1/services/submission.service.ts:94). Only the cache
  write of getOrFetchTestcases can fail, through `cacheUp`.
- TestcaseService.GeneratePresignedUrl, TestcaseService.GenerateBulkPresignedUrl and
  TestcaseService.GetAllTestcases: the S3 presign and preview calls are `string -> Option<string>`, so a call
  that fails becomes the service's 500 `ApiError`. In the source an S3 call that throws propagates its own
  error instead (src/v1/services/testcase.service.ts:66-67, 96-97, 160-202); the model does not capture that
  raw error.
- Text.ToLowerAscii: lower-cases ASCII letters only. JavaScript's `toLowerCase` also maps other scripts, which
  only matters for names whose last four characters are not ASCII.
- Schema: each parser reports the first issue in field order. zod collects every issue; which fields are
  accepted is the same.
- String lengths are counted in characters, not UTF-16 code units.
- ContestTypes.ParseOptionalDateTime: which strings are ISO date-times is the `isIso` parameter; the ISO grammar
  is not modelled.
- utils/cleanObject is not part of this model. The contest service's `cleanObject` is taken to be the one in
  src/utils/helper.ts.

## Findings

| source | as written | input that shows it | evidently intended | confidence | as-written member | corrected member |
|---|---|---|---|---|---|---|
| src/workers/dbOperationWorker.ts:167 | `Number(result?.executionTime) ?? 0` stores NaN for a missing time, since `Number(undefined)` is NaN and not nullish | a test result without `executionTime` | a missing time is stored as 0 | high, not executed | DbOperationWorker.MissingTimeStoredAsNaN | DbOperationWorker.IntendedResultRows |
| src/v1/services/contest.service.ts:139-143 | when the repository returns nothing, the `ApiError` is created but not thrown, and reading `.points` of null fails with a type error | the repository returns null | the request fails with "Failed to add problem to the contest." (500) | high, not executed | ContestService.MissingRowIsNotReportedAsWritten | ContestService.AddProblemToContest |
