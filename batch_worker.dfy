/**
 * The batch scheduler: the priority map, the rate limiter and the single
 * worker. The worker's endless loop is modelled one atomic step at a time:
 * a step either runs the locked section (pop the smallest entry, drop it if
 * its batch has already left yet_to_start, otherwise mark it triggered) or,
 * when a batch is in flight, runs the processing section (call the
 * downstream resource once per identifier, record completed or failed, and
 * on success apply the rate limiter).
 */
module BatchWorker {
  import opened Records
  import opened JobQueue

  /** Priority names and their ranks: HIGH sorts first. */
  const PriorityMap: map<string, nat> := map["HIGH" := 0, "MEDIUM" := 1, "LOW" := 2]

  /** The minimum spacing, in clock units, the rate limiter keeps between
      the ends of two successful batches. */
  const MinSpacing: nat := 5

  /** The pause before recording the end of a batch that finished at `now`,
      given the end `last` of the previous successful one. */
  function Wait(now: nat, last: nat): (w: nat)
    ensures now + w >= last + MinSpacing
    ensures w == 0 || now + w == last + MinSpacing
  {
    if now - last < MinSpacing then MinSpacing - (now - last) else 0
  }

  /** No shorter pause restores the spacing. */
  lemma WaitIsLeast(now: nat, last: nat, v: nat)
    requires now + v >= last + MinSpacing
    ensures Wait(now, last) <= v
  {
  }

  /** With no previous successful batch (`last_batch_time` still 0) and a
      clock past the spacing, the limiter does not pause. */
  lemma NoPriorBatchNoWait(now: nat)
    requires now >= MinSpacing
    ensures Wait(now, 0) == 0
  {
  }

  /** The process clock: it only moves forward, by sleeping. */
  class Clock {
    var now: nat

    constructor (start: nat)
      ensures now == start
    {
      now := start;
    }

    method Sleep(d: nat)
      modifies this
      ensures now == old(now) + d
    {
      now := now + d;
    }
  }

  /** What the downstream resource does with one batch: every call returns,
      or the call for the identifier at `index` raises `message`. */
  datatype Downstream = AllSucceed | RaisesAt(index: nat, message: string)

  /** Does the downstream resource raise before all `n` calls are made? */
  predicate RaisesWithin(call: Downstream, n: nat)
  {
    call.RaisesAt? && call.index < n
  }

  datatype EnqueueError = InvalidPriority | UnknownIngestion

  /** The outcome of one worker step. */
  datatype StepOutcome =
    | Idle                                // the queue was empty
    | Dropped(entry: Entry)               // popped, but the batch had already left yet_to_start
    | Dispatched(entry: Entry)            // popped and marked triggered
    | Finished(batchId: string, status: Status)  // the in-flight batch completed or failed

  /** The batch whose record a step changes, if any. */
  predicate Touches(r: StepOutcome, b: string)
  {
    (r.Dispatched? && r.entry.batchId == b) || (r.Finished? && r.batchId == b)
  }

  class Worker {
    const store: Store
    const clock: Clock
    /** The job queue, as a sequence whose order is not significant. */
    var queue: seq<Entry>
    var workerStarted: bool
    var lastBatchTime: nat
    /** The batch between the locked section and the end of its processing. */
    var running: Option<string>

    /** Every queued batch has a record; the batch in flight is triggered,
        and it is the only triggered batch; the last successful end is not
        in the future. */
    ghost predicate Valid()
      reads this, store, clock
    {
      && store.Valid()
      && lastBatchTime <= clock.now
      && (forall k :: 0 <= k < |queue| ==> queue[k].batchId in store.batches)
      && (running.Some? ==> running.value in store.batches && store.batches[running.value].status == Triggered)
      && (forall b :: b in store.batches && store.batches[b].status == Triggered ==> running == Some(b))
    }

    /** `last_batch_time` starts at 0 while the wall clock reads seconds
        since the epoch, so the clock is taken to be past the spacing: the
        first successful batch never pauses. */
    constructor (store: Store, clock: Clock)
      requires clock.now >= MinSpacing
      requires store.Valid()
      requires forall b :: b in store.batches ==> store.batches[b].status != Triggered
      ensures Valid()
      ensures this.store == store && this.clock == clock
      ensures queue == [] && !workerStarted && lastBatchTime == 0 && running == None
    {
      this.store := store;
      this.clock := clock;
      queue := [];
      workerStarted := false;
      lastBatchTime := 0;
      running := None;
    }

    /** Pushes one entry per batch, all with the ingestion's rank and
        creation time; on the first successful call, starts the worker
        (the result says whether this call started it). */
    method Enqueue(ingestionId: string, priority: string, batchIds: seq<string>)
      returns (r: Result<bool, EnqueueError>)
      requires Valid()
      requires forall k :: 0 <= k < |batchIds| ==> batchIds[k] in store.batches
      modifies this`queue, this`workerStarted
      ensures Valid()
      ensures r.Ok? <==> priority in PriorityMap && ingestionId in store.ingestions
      ensures priority !in PriorityMap ==> r == Err(InvalidPriority)
      ensures priority in PriorityMap && ingestionId !in store.ingestions ==> r == Err(UnknownIngestion)
      ensures r.Err? ==> queue == old(queue) && workerStarted == old(workerStarted)
      ensures r.Ok? ==>
        && |queue| == |old(queue)| + |batchIds|
        && queue[..|old(queue)|] == old(queue)
        && (forall k :: 0 <= k < |batchIds| ==>
              queue[|old(queue)| + k]
              == Entry(PriorityMap[priority], store.ingestions[ingestionId].createdTime, ingestionId, batchIds[k]))
        && workerStarted
        && r.value == !old(workerStarted)
    {
      if priority !in PriorityMap {
        return Err(InvalidPriority);
      }
      if ingestionId !in store.ingestions {
        return Err(UnknownIngestion);
      }
      var createdTime := store.ingestions[ingestionId].createdTime;
      var n := |queue|;
      for i := 0 to |batchIds|
        invariant |queue| == n + i
        invariant queue[..n] == old(queue)
        invariant forall k :: 0 <= k < i ==>
          queue[n + k] == Entry(PriorityMap[priority], createdTime, ingestionId, batchIds[k])
        invariant forall k :: 0 <= k < |queue| ==> queue[k].batchId in store.batches
        modifies this`queue
      {
        queue := queue + [Entry(PriorityMap[priority], createdTime, ingestionId, batchIds[i])];
      }
      var started := !workerStarted;
      if !workerStarted {
        workerStarted := true;
      }
      r := Ok(started);
    }

    /**
     * The locked section at the top of the worker loop: with nothing
     * queued, sleep one unit; otherwise pop a smallest entry and either
     * drop it (its batch has already left yet_to_start) or mark its batch
     * triggered and hold it as the batch in flight.
     */
    method Dispatch() returns (r: StepOutcome)
      requires Valid() && running == None
      modifies this`queue, this`running, store`batches, clock
      ensures Valid()
      ensures store.ingestions == old(store.ingestions) && workerStarted == old(workerStarted)
      ensures lastBatchTime == old(lastBatchTime)
      ensures r.Idle? || r.Dropped? || r.Dispatched?
      ensures store.batches.Keys == old(store.batches.Keys)
      ensures forall b :: b in old(store.batches) ==>
        Advances(old(store.batches[b].status), store.batches[b].status)
      ensures forall b :: b in old(store.batches) && !Touches(r, b) ==>
        store.batches[b] == old(store.batches[b])
      // nothing to pop: only the one-unit idle sleep
      ensures r.Idle? <==> old(queue) == []
      ensures r.Idle? ==>
        && queue == old(queue) && running == None && store.batches == old(store.batches)
        && clock.now == old(clock.now) + 1
      // otherwise one smallest entry leaves the queue
      ensures !r.Idle? ==>
        && r.entry in old(queue)
        && (forall x :: x in old(queue) ==> EntryLeq(r.entry, x))
        && multiset(queue) == multiset(old(queue)) - multiset{r.entry}
        && clock.now == old(clock.now)
        && r.entry.batchId in old(store.batches)
      // the at-most-once guard: a stale entry changes no record
      ensures r.Dropped? ==>
        && old(store.batches[r.entry.batchId].status) != YetToStart
        && store.batches == old(store.batches) && running == None
      ensures r.Dispatched? ==>
        && old(store.batches[r.entry.batchId].status) == YetToStart
        && store.batches == old(store.batches)[r.entry.batchId := old(store.batches[r.entry.batchId]).(status := Triggered)]
        && running == Some(r.entry.batchId)
    {
      if |queue| == 0 {
        clock.Sleep(1);
        return Idle;
      }
      var m := MinIndex(queue);
      var e := queue[m];
      queue := RemoveAt(queue, m);
      var batch := store.batches[e.batchId];
      if batch.status != YetToStart {
        return Dropped(e);
      }
      store.batches := store.batches[e.batchId := batch.(status := Triggered)];
      running := Some(e.batchId);
      return Dispatched(e);
    }

    /**
     * The processing section for the batch in flight: one downstream call
     * per identifier, in order. If every call returns, the batch is
     * completed and the rate limiter pads the time since the previous
     * successful batch up to `MinSpacing` before recording the new end; if
     * a call raises, the batch is failed with the message and the rate
     * limiter is left alone.
     */
    method Process(call: Downstream) returns (r: StepOutcome)
      requires Valid() && running.Some?
      modifies this`lastBatchTime, this`running, store`batches, clock
      ensures Valid()
      ensures store.ingestions == old(store.ingestions) && workerStarted == old(workerStarted)
      ensures queue == old(queue) && running == None
      ensures r.Finished? && r.batchId == old(running.value) && r.batchId in old(store.batches)
      ensures old(store.batches[r.batchId].status) == Triggered
      ensures var ids := old(store.batches[r.batchId].ids);
        if RaisesWithin(call, |ids|) then
          && r.status == Failed
          && store.batches == old(store.batches)[r.batchId := old(store.batches[r.batchId]).(status := Failed, error := Some(call.message))]
          && clock.now == old(clock.now) + call.index
          && lastBatchTime == old(lastBatchTime)
        else
          && r.status == Completed
          && store.batches == old(store.batches)[r.batchId := old(store.batches[r.batchId]).(status := Completed)]
          && clock.now == old(clock.now) + |ids| + Wait(old(clock.now) + |ids|, old(lastBatchTime))
          && lastBatchTime == clock.now
          && lastBatchTime >= old(lastBatchTime) + MinSpacing
    {
      var b := running.value;
      var batch := store.batches[b];
      var failure: Option<string> := None;
      var i := 0;
      while i < |batch.ids| && failure.None?
        invariant 0 <= i <= |batch.ids|
        invariant clock.now == old(clock.now) + i
        invariant failure.None? ==> !RaisesWithin(call, i)
        invariant failure.Some? ==> call.RaisesAt? && call.index == i && i < |batch.ids| && failure == Some(call.message)
        modifies clock
        decreases |batch.ids| - i, if failure.None? then 1 else 0
      {
        if call.RaisesAt? && call.index == i {
          failure := Some(call.message);
        } else {
          clock.Sleep(1);
          i := i + 1;
        }
      }

      if failure.None? {
        store.batches := store.batches[b := batch.(status := Completed)];
        var current := clock.now;
        var since := current - lastBatchTime;
        if since < MinSpacing {
          clock.Sleep(MinSpacing - since);
        }
        lastBatchTime := clock.now;
        r := Finished(b, Completed);
      } else {
        store.batches := store.batches[b := batch.(status := Failed, error := failure)];
        r := Finished(b, Failed);
      }
      running := None;
    }

    /** One iteration of the worker loop: the locked section when no batch
        is in flight, the processing section otherwise. */
    method Step(call: Downstream) returns (r: StepOutcome)
      requires Valid()
      modifies this`queue, this`lastBatchTime, this`running, store`batches, clock
      ensures Valid()
      ensures r.Finished? <==> old(running).Some?
      ensures r.Idle? <==> old(running).None? && old(queue) == []
      ensures r.Idle? || r.Finished? ==> queue == old(queue)
      ensures r.Dropped? || r.Dispatched? ==>
        && r.entry in old(queue)
        && (forall x :: x in old(queue) ==> EntryLeq(r.entry, x))
        && multiset(queue) == multiset(old(queue)) - multiset{r.entry}
      ensures store.ingestions == old(store.ingestions) && workerStarted == old(workerStarted)
      ensures store.batches.Keys == old(store.batches.Keys)
      ensures forall b :: b in old(store.batches) ==>
        Advances(old(store.batches[b].status), store.batches[b].status)
      ensures forall b :: b in old(store.batches) ==>
        Reachable(old(store.batches[b].status), store.batches[b].status)
      ensures forall b :: b in old(store.batches) && !Touches(r, b) ==>
        store.batches[b] == old(store.batches[b])
      // the at-most-once guard, and the status each section writes
      ensures r.Idle? ==> clock.now == old(clock.now) + 1 && store.batches == old(store.batches)
      ensures r.Dropped? || r.Dispatched? ==> clock.now == old(clock.now)
      ensures r.Dropped? ==>
        && old(store.batches[r.entry.batchId].status) != YetToStart
        && store.batches == old(store.batches) && running == None
      ensures r.Dispatched? ==>
        && old(store.batches[r.entry.batchId].status) == YetToStart
        && store.batches == old(store.batches)[r.entry.batchId := old(store.batches[r.entry.batchId]).(status := Triggered)]
        && store.batches[r.entry.batchId].status == Triggered
        && running == Some(r.entry.batchId)
      ensures r.Finished? ==>
        && r.batchId == old(running.value)
        && (r.status == Completed || r.status == Failed)
        && store.batches[r.batchId].status == r.status
      // the finished batch's outcome follows the downstream behaviour
      ensures r.Finished? ==>
        var ids := old(store.batches[r.batchId].ids);
        if RaisesWithin(call, |ids|) then
          && r.status == Failed
          && store.batches == old(store.batches)[r.batchId := old(store.batches[r.batchId]).(status := Failed, error := Some(call.message))]
          && clock.now == old(clock.now) + call.index
        else
          && r.status == Completed
          && store.batches == old(store.batches)[r.batchId := old(store.batches[r.batchId]).(status := Completed)]
          && clock.now == old(clock.now) + |ids| + Wait(old(clock.now) + |ids|, old(lastBatchTime))
          && lastBatchTime == clock.now
      ensures clock.now >= old(clock.now) && lastBatchTime >= old(lastBatchTime)
      ensures r.Finished? && r.status == Completed ==> lastBatchTime >= old(lastBatchTime) + MinSpacing
      ensures !(r.Finished? && r.status == Completed) ==> lastBatchTime == old(lastBatchTime)
    {
      if running.None? {
        r := Dispatch();
      } else {
        r := Process(call);
      }
    }

    /** Runs the worker loop for `|calls|` iterations; the i-th iteration,
        if it processes a batch, meets the downstream behaviour `calls[i]`. Across the whole
        run no batch status goes backwards, no record appears or vanishes,
        and the clock and the last successful end never go back. */
    method Run(calls: seq<Downstream>)
      requires Valid()
      modifies this`queue, this`lastBatchTime, this`running, store`batches, clock
      ensures Valid()
      ensures store.ingestions == old(store.ingestions) && workerStarted == old(workerStarted)
      ensures store.batches.Keys == old(store.batches.Keys)
      ensures forall b :: b in old(store.batches) ==>
        Reachable(old(store.batches[b].status), store.batches[b].status)
      ensures clock.now >= old(clock.now) && lastBatchTime >= old(lastBatchTime)
    {
      for i := 0 to |calls|
        invariant Valid()
        invariant store.ingestions == old(store.ingestions) && workerStarted == old(workerStarted)
        invariant store.batches.Keys == old(store.batches.Keys)
        invariant forall b :: b in old(store.batches) ==>
          Reachable(old(store.batches[b].status), store.batches[b].status)
        invariant clock.now >= old(clock.now) && lastBatchTime >= old(lastBatchTime)
      {
        ghost var before := store.batches;
        var _ := Step(calls[i]);
        forall b | b in old(store.batches)
          ensures Reachable(old(store.batches[b].status), store.batches[b].status)
        {
          ReachableTransitive(old(store.batches[b].status), before[b].status, store.batches[b].status);
        }
      }
    }
  }
}
