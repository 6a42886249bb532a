/** The trial-run service: queues a run and reports its status from the status store. */
module RunService {
  import opened Wrappers
  import opened Errors
  import opened WorkerTypes
  import opened StatusStore

  /** The request body of a custom run. */
  datatype CustomRun = CustomRun(problemId: string, input: seq<string>, output: seq<string>, code: string, languageId: string)

  /** The queued payload: the request with the run id added. */
  datatype QueuedRun = QueuedRun(request: CustomRun, runId: string)

  const RunJobName: string := "execute-run-only"

  /** The code-execution queue, as the jobs added to it. */
  class CodeRunnerQueue {
    var jobs: seq<(string, QueuedRun)>

    constructor ()
      ensures jobs == []
    {
      jobs := [];
    }

    /** `add(name, data)`: appends one job. */
    method Add(name: string, data: QueuedRun)
      modifies this
      ensures jobs == old(jobs) + [(name, data)]
    {
      jobs := jobs + [(name, data)];
    }
  }

  /** `RunService.run`: stores "Queued" under the new run id, then queues the request with that id and returns it.
      The id generator is the parameter `runId`. */
  method Run(store: RedisClient, queue: CodeRunnerQueue, data: CustomRun, runId: string, now: int) returns (id: string)
    modifies store, queue
    ensures id == runId
    ensures store.entries == old(store.entries)[runId := Entry(StatusOnly("Queued"), now + RunTtl)]
    ensures store.writes == old(store.writes) + [(runId, StatusOnly("Queued"))]
    ensures queue.jobs == old(queue.jobs) + [(RunJobName, QueuedRun(data, runId))]
  {
    var newData := QueuedRun(data, runId);
    store.SetForRun(runId, StatusOnly("Queued"), now);
    queue.Add(RunJobName, newData);
    id := runId;
  }

  const NoSubmissionMessage: string := "No submission found for given run id"
  const FailedRunMessage: string := "Failed to execute the code"

  /** What `getResult` makes of the value it read: absent is one error, a "Failed" status another, and
      anything else is handed back as stored. */
  function DecideResult(read: Option<StoredValue>): (r: Result<StoredValue, Error>)
    ensures read.None? ==> r == Err(ApiWith(NoSubmissionMessage, InternalServerError))
    ensures read.Some? && read.value.StatusDoc? && read.value.status == "Failed" ==>
      r == Err(ApiWith(FailedRunMessage, InternalServerError))
    ensures read.Some? && !(read.value.StatusDoc? && read.value.status == "Failed") ==> r == Ok(read.value)
  {
    if read.None? then Err(ApiWith(NoSubmissionMessage, InternalServerError))
    else if read.value.StatusDoc? && read.value.status == "Failed" then Err(ApiWith(FailedRunMessage, InternalServerError))
    else Ok(read.value)
  }

  /** `RunService.getResult`. The empty-id check builds an error without throwing it, so an empty id is looked up
      like any other. */
  method GetResult(store: RedisClient, runId: string, now: int) returns (r: Result<StoredValue, Error>)
    ensures r == DecideResult(Read(store.entries, runId, now))
  {
    if runId == "" {
      var _ := ApiWith("No run id found", BadRequest);
    }
    var result := store.GetResult(runId, now);
    r := DecideResult(result);
  }

  /** Right after `run`, and until the entry expires, `getResult` reports the "Queued" snapshot. */
  lemma QueuedIsVisibleUntilExpiry(entries: map<string, Entry>, runId: string, at: int, now: int)
    ensures now < at + RunTtl ==>
      DecideResult(Read(entries[runId := Entry(StatusOnly("Queued"), at + RunTtl)], runId, now)) == Ok(StatusOnly("Queued"))
    ensures at + RunTtl <= now ==>
      DecideResult(Read(entries[runId := Entry(StatusOnly("Queued"), at + RunTtl)], runId, now)) == Err(ApiWith(NoSubmissionMessage, InternalServerError))
  {
    ReadAfterWrite(entries, runId, StatusOnly("Queued"), at, RunTtl, runId, now);
  }

  /** A run that was queued and then read back: the id returned by `run` is where `getResult` finds the snapshot. */
  method RunThenRead(store: RedisClient, queue: CodeRunnerQueue, data: CustomRun, runId: string, now: int)
    returns (id: string, r: Result<StoredValue, Error>)
    modifies store, queue
    ensures id == runId && r == Ok(StatusOnly("Queued"))
  {
    id := Run(store, queue, data, runId, now);
    r := GetResult(store, id, now);
  }
}
