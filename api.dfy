/**
 * The two request handlers that touch the scheduler: `Ingest` validates a
 * request, splits its identifiers into batches, creates the batch and
 * ingestion records and enqueues the batches; `Status` reads the records
 * back and folds the batch statuses into one overall status.
 */
module Api {
  import opened Records
  import opened JobQueue
  import opened Split
  import opened Aggregate
  import opened BatchWorker

  /** The priorities the request schema accepts. */
  const RequestPriorities: set<string> := {"HIGH", "MEDIUM", "LOW"}

  /** Rejected by request validation (422), or an unknown ingestion (404). */
  datatype ApiError = ValidationError | NotFound

  /** One batch as the status response lists it. */
  datatype BatchView = BatchView(batchId: string, ids: seq<int>, status: Status)

  datatype StatusReport = StatusReport(ingestionId: string, status: Status, batches: seq<BatchView>)

  /** The set of statuses of the listed batches. */
  function StatusSet(views: seq<BatchView>): (r: set<Status>)
    ensures forall k :: 0 <= k < |views| ==> views[k].status in r
    ensures forall s :: s in r ==> exists k :: 0 <= k < |views| && views[k].status == s
  {
    set v | v in views :: v.status
  }

  /** Every priority the schema accepts has a rank, so a validated request
      is never refused by the queue. */
  lemma RequestPrioritiesRanked()
    ensures RequestPriorities == PriorityMap.Keys
  {
  }

  /**
   * Creates one yet_to_start batch record per slice, under the next fresh
   * identifier, and returns the identifiers in slice order.
   */
  method CreateBatches(store: Store, ingestionId: string, slices: seq<seq<int>>, idSupply: seq<string>)
    returns (batchIds: seq<string>)
    requires |idSupply| >= |slices|
    requires forall j, k :: 0 <= j < k < |idSupply| ==> idSupply[j] != idSupply[k]
    requires forall j :: 0 <= j < |idSupply| ==> idSupply[j] !in store.batches
    modifies store`batches
    ensures batchIds == idSupply[..|slices|]
    ensures store.batches.Keys == old(store.batches).Keys + (set j | 0 <= j < |slices| :: idSupply[j])
    ensures forall j :: 0 <= j < |slices| ==>
      store.batches[idSupply[j]] == Batch(slices[j], YetToStart, ingestionId, None)
    ensures forall b :: b in old(store.batches) ==> store.batches[b] == old(store.batches[b])
  {
    batchIds := [];
    for k := 0 to |slices|
      invariant batchIds == idSupply[..k]
      invariant store.batches.Keys == old(store.batches).Keys + (set j | 0 <= j < k :: idSupply[j])
      invariant forall j :: 0 <= j < k ==>
        store.batches[idSupply[j]] == Batch(slices[j], YetToStart, ingestionId, None)
      invariant forall b :: b in old(store.batches) ==> store.batches[b] == old(store.batches[b])
    {
      var batchId := idSupply[k];
      batchIds := batchIds + [batchId];
      store.batches := store.batches[batchId := Batch(slices[k], YetToStart, ingestionId, None)];
    }
  }

  /**
   * Writes the records of an accepted request: its batch records, then
   * its ingestion record listing the batch ids in slice order and stamped
   * with the current clock. The worker invariant is kept.
   */
  method CreateRecords(store: Store, worker: Worker, ingestionId: string, priority: string,
                       slices: seq<seq<int>>, idSupply: seq<string>)
    returns (batchIds: seq<string>)
    requires worker.Valid() && worker.store == store
    requires ingestionId !in store.ingestions
    requires |idSupply| >= |slices|
    requires forall j, k :: 0 <= j < k < |idSupply| ==> idSupply[j] != idSupply[k]
    requires forall j :: 0 <= j < |idSupply| ==> idSupply[j] !in store.batches
    modifies store
    ensures worker.Valid()
    ensures batchIds == idSupply[..|slices|]
    ensures forall k :: 0 <= k < |batchIds| ==> batchIds[k] in store.batches
    ensures store.ingestions == old(store.ingestions)[ingestionId := Ingestion(priority, worker.clock.now, batchIds)]
    ensures store.batches.Keys == old(store.batches).Keys + (set j | 0 <= j < |slices| :: idSupply[j])
    ensures forall j :: 0 <= j < |slices| ==>
      store.batches[idSupply[j]] == Batch(slices[j], YetToStart, ingestionId, None)
    ensures forall b :: b in old(store.batches) ==> store.batches[b] == old(store.batches[b])
  {
    batchIds := CreateBatches(store, ingestionId, slices, idSupply);
    store.ingestions := store.ingestions[ingestionId := Ingestion(priority, worker.clock.now, batchIds)];
  }

  /**
   * The accepted path of a request: writes its records, then enqueues one
   * entry per batch at the request's rank and the current clock.
   */
  method Accept(store: Store, worker: Worker, ingestionId: string, priority: string,
                slices: seq<seq<int>>, idSupply: seq<string>)
    requires worker.Valid() && worker.store == store
    requires priority in RequestPriorities
    requires ingestionId !in store.ingestions
    requires |idSupply| >= |slices|
    requires forall j, k :: 0 <= j < k < |idSupply| ==> idSupply[j] != idSupply[k]
    requires forall j :: 0 <= j < |idSupply| ==> idSupply[j] !in store.batches
    modifies store, worker`queue, worker`workerStarted
    ensures worker.Valid() && priority in PriorityMap && worker.workerStarted
    ensures store.ingestions == old(store.ingestions)[ingestionId := Ingestion(priority, old(worker.clock.now), idSupply[..|slices|])]
    ensures store.batches.Keys == old(store.batches).Keys + (set j | 0 <= j < |slices| :: idSupply[j])
    ensures forall j :: 0 <= j < |slices| ==>
      store.batches[idSupply[j]] == Batch(slices[j], YetToStart, ingestionId, None)
    ensures forall b :: b in old(store.batches) ==> store.batches[b] == old(store.batches[b])
    ensures |worker.queue| == |old(worker.queue)| + |slices|
    ensures worker.queue[..|old(worker.queue)|] == old(worker.queue)
    ensures forall j :: 0 <= j < |slices| ==>
      worker.queue[|old(worker.queue)| + j]
      == Entry(PriorityMap[priority], old(worker.clock.now), ingestionId, idSupply[j])
  {
    var batchIds := CreateRecords(store, worker, ingestionId, priority, slices, idSupply);
    RequestPrioritiesRanked();
    var e := worker.Enqueue(ingestionId, priority, batchIds);
    assert e.Ok?;
    assert forall j :: 0 <= j < |slices| ==> batchIds[j] == idSupply[j];
    assert forall j :: 0 <= j < |slices| ==>
      worker.queue[|old(worker.queue)| + j] == Entry(PriorityMap[priority], old(worker.clock.now), ingestionId, idSupply[j]);
  }

  /**
   * Handles one ingestion request. `ingestionId` and `idSupply` stand for
   * the fresh identifiers the handler generates: one for the ingestion and
   * one for each batch, in order.
   */
  method Ingest(store: Store, worker: Worker, ids: seq<int>, priority: string,
                ingestionId: string, idSupply: seq<string>)
    returns (r: Result<string, ApiError>)
    requires worker.Valid() && worker.store == store
    requires ingestionId !in store.ingestions
    requires |idSupply| >= |ids|
    requires forall j, k :: 0 <= j < k < |idSupply| ==> idSupply[j] != idSupply[k]
    requires forall j :: 0 <= j < |idSupply| ==> idSupply[j] !in store.batches
    modifies store, worker`queue, worker`workerStarted
    ensures worker.Valid()
    ensures r.Err? <==> |ids| == 0 || priority !in RequestPriorities
    ensures r.Err? ==>
      && r.error == ValidationError
      && store.batches == old(store.batches) && store.ingestions == old(store.ingestions)
      && worker.queue == old(worker.queue) && worker.workerStarted == old(worker.workerStarted)
    ensures r.Ok? ==> r.value == ingestionId && priority in PriorityMap && worker.workerStarted
    ensures r.Ok? ==>
      store.ingestions == old(store.ingestions)[ingestionId := Ingestion(priority, old(worker.clock.now), idSupply[..|Chunks(ids)|])]
    ensures r.Ok? ==>
      store.batches.Keys == old(store.batches).Keys + (set j | 0 <= j < |Chunks(ids)| :: idSupply[j])
    ensures r.Ok? ==> forall j :: 0 <= j < |Chunks(ids)| ==>
      store.batches[idSupply[j]] == Batch(Chunks(ids)[j], YetToStart, ingestionId, None)
    ensures r.Ok? ==> forall b :: b in old(store.batches) ==> store.batches[b] == old(store.batches[b])
    ensures r.Ok? ==>
      && |worker.queue| == |old(worker.queue)| + |Chunks(ids)|
      && worker.queue[..|old(worker.queue)|] == old(worker.queue)
    ensures r.Ok? ==> forall j :: 0 <= j < |Chunks(ids)| ==>
      worker.queue[|old(worker.queue)| + j]
      == Entry(PriorityMap[priority], old(worker.clock.now), ingestionId, idSupply[j])
  {
    if |ids| == 0 || priority !in RequestPriorities {
      return Err(ValidationError);
    }
    ChunksCount(ids);
    Accept(store, worker, ingestionId, priority, Chunks(ids), idSupply);
    r := Ok(ingestionId);
  }

  /** Reports an ingestion's batches in split order and its overall status. */
  method Status(store: Store, ingestionId: string) returns (r: Result<StatusReport, ApiError>)
    requires store.Valid()
    ensures r == Err(NotFound) <==> ingestionId !in store.ingestions
    ensures ingestionId in store.ingestions ==> r.Ok?
    ensures r.Ok? ==>
      && ingestionId in store.ingestions
      && var batchIds := store.ingestions[ingestionId].batchIds;
         && r.value.ingestionId == ingestionId
         && |r.value.batches| == |batchIds|
         && (forall k :: 0 <= k < |batchIds| ==>
               r.value.batches[k]
               == BatchView(batchIds[k], store.batches[batchIds[k]].ids, store.batches[batchIds[k]].status))
         && r.value.status == OverallStatus(StatusSet(r.value.batches))
  {
    if ingestionId !in store.ingestions {
      return Err(NotFound);
    }
    var batchIds := store.ingestions[ingestionId].batchIds;
    var batches: seq<BatchView> := [];
    var statuses: set<Status> := {};
    for k := 0 to |batchIds|
      invariant |batches| == k
      invariant forall j :: 0 <= j < k ==>
        batches[j] == BatchView(batchIds[j], store.batches[batchIds[j]].ids, store.batches[batchIds[j]].status)
      invariant statuses == StatusSet(batches)
    {
      var batch := store.batches[batchIds[k]];
      var view := BatchView(batchIds[k], batch.ids, batch.status);
      assert StatusSet(batches + [view]) == StatusSet(batches) + {batch.status};
      batches := batches + [view];
      statuses := statuses + {batch.status};
    }
    r := Ok(StatusReport(ingestionId, OverallStatus(statuses), batches));
  }

  /** When every listed batch has the same status, that status is the
      whole set: a fresh ingestion reads yet_to_start and a finished one
      reads completed. */
  lemma UniformStatusSet(views: seq<BatchView>, s: Status)
    requires |views| > 0
    requires forall k :: 0 <= k < |views| ==> views[k].status == s
    ensures StatusSet(views) == {s}
    ensures s == YetToStart || s == Completed ==> OverallStatus(StatusSet(views)) == s
  {
    assert views[0].status in StatusSet(views);
  }
}
