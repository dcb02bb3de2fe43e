/** The cache-first repository (data/repository/DogRepositoryImpl.kt): read
    the local table; if it has rows, serve them; otherwise fetch the remote
    array, write it to the table and return what was fetched. Failures of the
    table or of the remote source are never caught here. */
module Repository {
  import opened Failures
  import opened DomainModel
  import opened LocalEntity
  import opened RemoteModel
  import opened LocalStore
  import opened RemoteSource

  /** A call made to a collaborator, in the order made: the DAO's read, the
      remote fetch, and the DAO's write with the batch it was given. */
  datatype Call = ReadCache | FetchRemote | WriteCache(batch: seq<DogEntity>)

  /** What the collaborators do when called: the table's read and write may
      fail, and the remote source answers with an array or a failure. */
  datatype Env = Env(readFault: Option<Failure>, remote: Result<seq<DogResponse>>, writeFault: Option<Failure>)

  /** A run of `getDogs`: what it returned, the calls it made and the table after it. */
  datatype Fetch = Fetch(result: Result<seq<Dog>>, calls: seq<Call>, store: Table)

  /** The order in which `getDogs` may call its collaborators; every run makes
      a non-empty prefix of it. */
  function CallOrder(batch: seq<DogEntity>): seq<Call> {
    [ReadCache, FetchRemote, WriteCache(batch)]
  }

  /** The batches of the writes in a call log, in call order. */
  function Batches(calls: seq<Call>): (bs: seq<seq<DogEntity>>)
    ensures |bs| <= |calls|
    ensures (forall i :: 0 <= i < |calls| ==> !calls[i].WriteCache?) ==> bs == []
  {
    if calls == [] then []
    else (if calls[0].WriteCache? then [calls[0].batch] else []) + Batches(calls[1..])
  }

  /** How many remote calls a call log holds. */
  function Fetches(calls: seq<Call>): (n: nat)
    ensures n <= |calls|
    ensures n == 0 <==> FetchRemote !in calls
  {
    if calls == [] then 0
    else (if calls[0] == FetchRemote then 1 else 0) + Fetches(calls[1..])
  }

  /** What the DAO and the remote source record for each log a run can make. */
  lemma LogsRecorded(batch: seq<DogEntity>)
    ensures Batches([ReadCache]) == [] && Fetches([ReadCache]) == 0
    ensures Batches([ReadCache, FetchRemote]) == [] && Fetches([ReadCache, FetchRemote]) == 1
    ensures Batches(CallOrder(batch)) == [batch] && Fetches(CallOrder(batch)) == 1
  {
    assert [ReadCache, FetchRemote][1..] == [FetchRemote];
    assert CallOrder(batch)[1..] == [FetchRemote, WriteCache(batch)];
    assert CallOrder(batch)[1..][1..] == [WriteCache(batch)];
    assert [WriteCache(batch)][1..] == [];
    assert Batches([WriteCache(batch)]) == [batch];
    assert Batches([FetchRemote, WriteCache(batch)]) == [batch];
  }

  /** One run of `getDogs` on table `t`: the read comes first; a remote call
      is made exactly when the read succeeds on an empty table; a failure is
      always the failure of one of the collaborators, passed on as it came,
      and a failed run leaves the table as it was. */
  function GetDogsSpec(t: Table, env: Env): (f: Fetch)
    ensures |f.calls| >= 1 && f.calls[0] == ReadCache
    ensures FetchRemote in f.calls <==> env.readFault.None? && t.rows == []
    ensures f.calls == [ReadCache] || f.calls == [ReadCache, FetchRemote]
            || (env.remote.Ok? && f.calls == CallOrder(BatchFor(env.remote.value)))
    ensures f.result.Err? ==> f.store == t
    ensures f.result.Err? ==> || env.readFault == Some(f.result.failure)
                              || env.remote == Err(f.result.failure)
                              || env.writeFault == Some(f.result.failure)
    ensures f.result.Ok? && t.rows != [] ==> |f.result.value| == |t.rows|
    ensures f.result.Ok? && t.rows == [] ==> env.remote.Ok? && |f.result.value| == |env.remote.value|
  {
    if env.readFault.Some? then
      Fetch(Err(env.readFault.value), [ReadCache], t)
    else if t.rows != [] then
      Fetch(Ok(EntitiesToDomain(t.rows)), [ReadCache], t)
    else
      match env.remote
      case Err(f) => Fetch(Err(f), [ReadCache, FetchRemote], t)
      case Ok(responses) =>
        var fromApi := ResponsesToDomain(responses);
        var toCache := DogsFromDomain(fromApi);
        if env.writeFault.Some? then
          Fetch(Err(env.writeFault.value), CallOrder(toCache), t)
        else
          Fetch(Ok(fromApi), CallOrder(toCache), InsertRows(t, toCache))
  }

  /** The batch written on a cache miss: every API dog as a row, all unassigned. */
  function BatchFor(responses: seq<DogResponse>): (batch: seq<DogEntity>)
    ensures |batch| == |responses|
    ensures forall i :: 0 <= i < |responses| ==> batch[i] == FromDomain(responses[i].ToDomain())
    ensures forall i :: 0 <= i < |responses| ==> batch[i].id == Unassigned
  {
    DogsFromDomain(ResponsesToDomain(responses))
  }

  // ---------------------------------------------------------------------
  // Properties of one run

  /** A non-empty cache is served as it is, mapped row by row in the same
      order; the remote source and the write are never called. */
  lemma CacheHit(t: Table, env: Env)
    requires env.readFault.None? && t.rows != []
    ensures GetDogsSpec(t, env).result == Ok(EntitiesToDomain(t.rows))
    ensures |GetDogsSpec(t, env).result.value| == |t.rows|
    ensures GetDogsSpec(t, env).calls == [ReadCache]
    ensures Batches(GetDogsSpec(t, env).calls) == [] && Fetches(GetDogsSpec(t, env).calls) == 0
    ensures GetDogsSpec(t, env).store == t
  {
    LogsRecorded([]);
  }

  /** An empty cache and a successful fetch: the batch is written exactly
      once, with every API dog as an unassigned row, and what is returned is
      the fetched list itself (ids 0), not a re-read of the table. */
  lemma CacheMissFetched(t: Table, env: Env)
    requires env.readFault.None? && t.rows == [] && env.remote.Ok? && env.writeFault.None?
    ensures GetDogsSpec(t, env).result == Ok(ResponsesToDomain(env.remote.value))
    ensures GetDogsSpec(t, env).calls == CallOrder(BatchFor(env.remote.value))
    ensures Batches(GetDogsSpec(t, env).calls) == [BatchFor(env.remote.value)]
    ensures Fetches(GetDogsSpec(t, env).calls) == 1
    ensures GetDogsSpec(t, env).store == InsertRows(t, BatchFor(env.remote.value))
    ensures forall d :: d in GetDogsSpec(t, env).result.value ==> d.id == 0
  {
    LogsRecorded(BatchFor(env.remote.value));
  }

  /** An empty cache and a failing fetch: that very failure comes back, the
      write is never called and the table is unchanged. */
  lemma CacheMissRemoteFails(t: Table, env: Env)
    requires env.readFault.None? && t.rows == [] && env.remote.Err?
    ensures GetDogsSpec(t, env).result == Err(env.remote.failure)
    ensures GetDogsSpec(t, env).calls == [ReadCache, FetchRemote]
    ensures Batches(GetDogsSpec(t, env).calls) == [] && Fetches(GetDogsSpec(t, env).calls) == 1
    ensures GetDogsSpec(t, env).store == t
  {
    LogsRecorded([]);
  }

  /** A failing read: that very failure comes back; nothing else is called. */
  lemma ReadFails(t: Table, env: Env)
    requires env.readFault.Some?
    ensures GetDogsSpec(t, env).result == Err(env.readFault.value)
    ensures GetDogsSpec(t, env).calls == [ReadCache]
    ensures Batches(GetDogsSpec(t, env).calls) == [] && Fetches(GetDogsSpec(t, env).calls) == 0
    ensures GetDogsSpec(t, env).store == t
  {
    LogsRecorded([]);
  }

  /** A failing write after a successful fetch: the write's failure comes back
      and, the write being one transaction, the table is unchanged. */
  lemma WriteFails(t: Table, env: Env)
    requires env.readFault.None? && t.rows == [] && env.remote.Ok? && env.writeFault.Some?
    ensures GetDogsSpec(t, env).result == Err(env.writeFault.value)
    ensures GetDogsSpec(t, env).calls == CallOrder(BatchFor(env.remote.value))
    ensures Batches(GetDogsSpec(t, env).calls) == [BatchFor(env.remote.value)]
    ensures GetDogsSpec(t, env).store == t
  {
    LogsRecorded(BatchFor(env.remote.value));
  }

  /** Every run reads the cache once, first, and then makes at most one
      remote call and at most one write, in that order. */
  lemma AtMostOneCallEach(t: Table, env: Env)
    ensures exists batch :: GetDogsSpec(t, env).calls <= CallOrder(batch)
    ensures |GetDogsSpec(t, env).calls| >= 1 && GetDogsSpec(t, env).calls[0] == ReadCache
    ensures FetchRemote in GetDogsSpec(t, env).calls <==> env.readFault.None? && t.rows == []
    ensures |Batches(GetDogsSpec(t, env).calls)| <= 1 && Fetches(GetDogsSpec(t, env).calls) <= 1
  {
    LogsRecorded(if env.remote.Ok? then BatchFor(env.remote.value) else []);
    var f := GetDogsSpec(t, env);
    if f.calls == [ReadCache] {
      assert f.calls <= CallOrder([]);
    } else if f.calls == [ReadCache, FetchRemote] {
      assert f.calls <= CallOrder([]);
    } else {
      assert f.calls <= CallOrder(BatchFor(env.remote.value));
    }
  }

  /** The table only ever changes on a cache miss followed by a successful
      fetch and write, and the run keeps the table's invariant. */
  lemma StoreChangesOnlyOnFill(t: Table, env: Env)
    requires TableInv(t)
    ensures TableInv(GetDogsSpec(t, env).store)
    ensures GetDogsSpec(t, env).store != t ==>
              env.readFault.None? && t.rows == [] && env.remote.Ok? && env.writeFault.None?
  {
    if env.readFault.None? && t.rows == [] && env.remote.Ok? && env.writeFault.None? {
      InsertRowsKeepsInv(t, BatchFor(env.remote.value));
    }
  }

  // ---------------------------------------------------------------------
  // Properties of consecutive runs

  /** The fetched dogs are stored with fresh consecutive ids, one above the
      table's counter, in fetch order; so the next run is a cache hit that
      serves the same dogs with those ids instead of id 0. */
  lemma {:induction false} FillThenServe(t: Table, env: Env, next: Env)
    requires TableInv(t)
    requires env.readFault.None? && t.rows == [] && env.remote.Ok? && env.writeFault.None?
    requires env.remote.value != [] && next.readFault.None?
    ensures var filled := GetDogsSpec(t, env).store;
            var fetched := GetDogsSpec(t, env).result.value;
            && filled.rows == Numbered(BatchFor(env.remote.value), t.lastId + 1)
            && GetDogsSpec(filled, next).calls == [ReadCache]
            && GetDogsSpec(filled, next).result.Ok?
            && |GetDogsSpec(filled, next).result.value| == |fetched|
            && forall i :: 0 <= i < |fetched| ==>
                 GetDogsSpec(filled, next).result.value[i] == fetched[i].(id := t.lastId + 1 + i)
  {
    var batch := BatchFor(env.remote.value);
    UnassignedBatchAppends(t, batch);
    var filled := GetDogsSpec(t, env).store;
    assert filled.rows == Numbered(batch, t.lastId + 1);
    var served := GetDogsSpec(filled, next).result.value;
    var fetched := GetDogsSpec(t, env).result.value;
    forall i | 0 <= i < |fetched| ensures served[i] == fetched[i].(id := t.lastId + 1 + i) {
      RoundTrip(fetched[i]);
    }
  }

  /** An empty remote array is still written (as an empty batch), the table
      stays empty, and so the next run goes to the remote source again. */
  lemma EmptyFetchRefetches(t: Table, env: Env, next: Env)
    requires env.readFault.None? && t.rows == [] && env.remote == Ok([]) && env.writeFault.None?
    requires next.readFault.None?
    ensures GetDogsSpec(t, env).result == Ok([])
    ensures GetDogsSpec(t, env).calls == [ReadCache, FetchRemote, WriteCache([])]
    ensures GetDogsSpec(t, env).store == t
    ensures FetchRemote in GetDogsSpec(GetDogsSpec(t, env).store, next).calls
  {
  }

  // ---------------------------------------------------------------------
  // The repository

  class DogRepositoryImpl {
    const api: DogApi
    const dao: DogDao

    constructor (api: DogApi, dao: DogDao)
      ensures this.api == api && this.dao == dao
    {
      this.api := api;
      this.dao := dao;
    }

    /** `getDogs()`: returns what was served or fetched, or the failure of the
        collaborator that failed, and the log of the calls it made, which is
        exactly what the DAO and the remote source record. */
    method GetDogs(env: Env) returns (r: Result<seq<Dog>>, calls: seq<Call>)
      requires dao.Valid()
      modifies dao, api
      ensures dao.Valid()
      ensures Fetch(r, calls, dao.Contents()) == GetDogsSpec(old(dao.Contents()), env)
      ensures dao.getAllDogsCalls == old(dao.getAllDogsCalls) + 1
      ensures dao.insertAllBatches == old(dao.insertAllBatches) + Batches(calls)
      ensures api.fetches == old(api.fetches) + Fetches(calls)
    {
      ghost var before := dao.Contents();
      LogsRecorded([]);
      calls := [ReadCache];
      var cached := dao.GetAllDogs(env.readFault);
      if cached.Err? {
        ReadFails(before, env);
        return Err(cached.failure), calls;
      }
      if |cached.value| == 0 {
        calls := [ReadCache, FetchRemote];
        var fetched := api.GetDogs(env.remote);
        if fetched.Err? {
          CacheMissRemoteFails(before, env);
          return Err(fetched.failure), calls;
        }
        var dogsFromApi := ResponsesToDomain(fetched.value);
        var dogsToCache := DogsFromDomain(dogsFromApi);
        calls := CallOrder(dogsToCache);
        LogsRecorded(dogsToCache);
        var written := dao.InsertAll(dogsToCache, env.writeFault);
        if written.Err? {
          WriteFails(before, env);
          return Err(written.failure), calls;
        }
        CacheMissFetched(before, env);
        r := Ok(dogsFromApi);
      } else {
        CacheHit(before, env);
        r := Ok(EntitiesToDomain(cached.value));
      }
    }
  }
}
