/** The status store: one key space of values with expiry times, shared by run snapshots and test-case bundles. */
module StatusStore {
  import opened Wrappers
  import opened WorkerTypes

  /** Expiry of a run or submission snapshot, in seconds. */
  const RunTtl: int := 300
  /** Expiry of a cached test-case bundle, in seconds (4 hours). */
  const TestcaseTtl: int := 4 * 60 * 60

  datatype Entry = Entry(value: StoredValue, expiresAt: int)

  /** A read at time `now`: the stored value while it has not expired, absent otherwise. */
  function Read(entries: map<string, Entry>, key: string, now: int): (r: Option<StoredValue>)
    ensures r.Some? <==> key in entries && now < entries[key].expiresAt
    ensures r.Some? ==> r.value == entries[key].value
  {
    if key in entries && now < entries[key].expiresAt then Some(entries[key].value) else None
  }

  /** A write with a time-to-live replaces the key's value and expiry and leaves every other key alone. */
  lemma ReadAfterWrite(entries: map<string, Entry>, key: string, value: StoredValue, at: int, ttl: int, other: string, now: int)
    ensures Read(entries[key := Entry(value, at + ttl)], key, now) == if now < at + ttl then Some(value) else None
    ensures other != key ==> Read(entries[key := Entry(value, at + ttl)], other, now) == Read(entries, other, now)
  {
  }

  /** A second write to a key hides the first one completely. */
  lemma OverwriteTwice(m: map<string, Entry>, k: string, x: Entry, y: Entry)
    ensures m[k := x][k := y] == m[k := y]
  {
  }

  class RedisClient {
    /** Every key with its latest value and its expiry time. */
    var entries: map<string, Entry>
    /** Every write made through this client, oldest first. */
    ghost var writes: seq<(string, StoredValue)>

    constructor ()
      ensures entries == map[] && writes == []
    {
      entries := map[];
      writes := [];
    }

    /** `setForRun`: a write that expires after RunTtl seconds. */
    method SetForRun(runId: string, value: StoredValue, now: int)
      modifies this
      ensures entries == old(entries)[runId := Entry(value, now + RunTtl)]
      ensures writes == old(writes) + [(runId, value)]
    {
      entries := entries[runId := Entry(value, now + RunTtl)];
      writes := writes + [(runId, value)];
    }

    /** `setTestcase`: a write to the same key space that expires after TestcaseTtl seconds. */
    method SetTestcase(problemId: string, value: StoredValue, now: int)
      modifies this
      ensures entries == old(entries)[problemId := Entry(value, now + TestcaseTtl)]
      ensures writes == old(writes) + [(problemId, value)]
    {
      entries := entries[problemId := Entry(value, now + TestcaseTtl)];
      writes := writes + [(problemId, value)];
    }

    /** `getResult`: the latest value written under `key`, while it is unexpired. */
    method GetResult(key: string, now: int) returns (r: Option<StoredValue>)
      ensures r.Some? <==> key in entries && now < entries[key].expiresAt
      ensures r.Some? ==> r.value == entries[key].value
    {
      r := Read(entries, key, now);
    }
  }

  /** The holder of the process-wide client that `getInstance` hands out. */
  class Registry {
    var instance: RedisClient?

    constructor ()
      ensures instance == null
    {
      instance := null;
    }

    /** `getInstance`: creates the client on the first call and returns that same client on every later one. */
    method GetInstance() returns (c: RedisClient)
      modifies this
      ensures old(instance) != null ==> c == old(instance)
      ensures old(instance) == null ==> fresh(c) && c.entries == map[] && c.writes == []
      ensures instance == c
    {
      if instance == null {
        instance := new RedisClient();
      }
      c := instance;
    }
  }

  /** Two calls of `getInstance` yield one and the same client. */
  method GetInstanceTwice(registry: Registry) returns (first: RedisClient, second: RedisClient)
    modifies registry
    ensures first == second && registry.instance == first
  {
    first := registry.GetInstance();
    second := registry.GetInstance();
  }

  /** Run snapshots and test-case bundles share one key space: a test-case write at a run's key replaces the run's snapshot. */
  method SharedKeySpace(store: RedisClient, key: string, snapshot: StoredValue, bundle: StoredValue, now: int) returns (read: Option<StoredValue>)
    modifies store
    ensures read == Some(bundle)
    ensures store.entries == old(store.entries)[key := Entry(bundle, now + TestcaseTtl)]
  {
    store.SetForRun(key, snapshot, now);
    store.SetTestcase(key, bundle, now);
    read := store.GetResult(key, now);
  }
}
