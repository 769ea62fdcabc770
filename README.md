# Batch scheduler of the data ingestion API, in Dafny

This project models the core of a small ingestion service. A client posts a list of integer
identifiers and a priority (HIGH, MEDIUM or LOW). The service splits the list into batches of
three and stores one batch record per batch and one ingestion record per request. It then
pushes one job-queue entry per batch. A single background worker pops the smallest entry
`(priority rank, created time, ingestion id, batch id)`. It drops the entry if its batch has
already left `yet_to_start`. Otherwise it marks the batch `triggered`, calls the downstream
resource once per identifier, and marks the batch `completed` or `failed`. After a success it
pads the time since the previous success to at least 5 units. A status query folds the batch
statuses of one ingestion into one overall status.

Files and modules:

- `records.dfy` (`Records`): the status state machine, the batch and ingestion records, and the
  record store. The store is a class with two maps that are updated in place.
- `job_queue.dfy` (`JobQueue`): queue entries and their ordering. Entries compare as Python
  tuples: strings compare by code point, and a proper prefix is smaller. `MinIndex` finds the
  entry a heap pop returns.
- `split.dfy` (`Split`): the list comprehension that cuts a request into slices of three.
- `aggregate.dfy` (`Aggregate`): the conditional chain that gives the overall status.
- `batch_worker.dfy` (`BatchWorker`): the priority map, the rate limiter, the clock and the
  `Worker` class. The worker's module-level globals are the fields `queue`, `workerStarted` and
  `lastBatchTime`. The endless loop is modelled one atomic section at a time:
  - `Dispatch` is the locked section: pop, guard, mark `triggered`.
  - `Process` is the processing section: downstream calls, then `completed` or `failed`, then
    the rate limiter.
  - `Step` runs whichever section is due. The field `running` holds the batch in flight
    between the two sections, so a status query can see `triggered`.
- `api.dfy` (`Api`): the `ingest` and `status` handlers.

Time is a natural-number clock (`Clock.now`) that only moves forward. Sleeping advances it by
exactly the requested amount; reading `time.time()` reads it. `last_batch_time` starts at 0
while the wall clock counts seconds since the epoch, so the worker is created with the clock
already past the 5-unit spacing, and the first successful batch never pauses. The downstream
call is a parameter (`Downstream`): either every call returns, or the call for the identifier
at a given index raises a message. Fresh UUIDs are parameters that must be distinct and unused.

Three behaviours of the code that the model keeps on purpose:

- The rate limiter (batch_worker.py:50-55) sits inside the `try` after `status = 'completed'`.
  So a failed batch neither pauses nor moves `last_batch_time`; `Process` states that.
- Ties on `(rank, created_time)` are broken by comparing the ingestion id and then the batch id
  as strings (batch_worker.py:23, 35), not by push order; `EntryLess` models that.
- The status fold never reports `failed`: any mixture without `triggered` (other than all
  `completed`) reads `yet_to_start`. This includes a single failed batch; `FailedIsHidden`
  states it.

## Model

| member | source | states |
|---|---|---|
| `Records.AdvancesIsForward` | batch_worker.py:37-60 | a single observable status move never goes backwards, and a completed or failed batch stays as it is |
| `Records.ReachableTransitive` | batch_worker.py:37-60 | forward moves compose: a status reachable from a reachable status is reachable |
| `JobQueue.StrLess` | batch_worker.py:35 | the string order used for tie-breaking: nothing sorts before the empty string, and the empty string sorts before every non-empty one |
| `JobQueue.EntryLess` | batch_worker.py:23 | the queue tuple order: a smaller priority rank always sorts first, a larger one never does, and within one rank a later created time never sorts first |
| `JobQueue.StrLessIrreflexive` | batch_worker.py:35 | no id string sorts before itself |
| `JobQueue.StrLessAsymmetric` | batch_worker.py:35 | two id strings never each sort before the other |
| `JobQueue.StrLessTransitive` | batch_worker.py:35 | the string order used for tie-breaking is transitive |
| `JobQueue.StrLessTotal` | batch_worker.py:35 | any two distinct id strings are ordered one way or the other |
| `JobQueue.EntryLessIrreflexive` | batch_worker.py:35 | no queue entry sorts before itself |
| `JobQueue.EntryLessAsymmetric` | batch_worker.py:35 | two queue entries never each sort before the other |
| `JobQueue.EntryLessTransitive` | batch_worker.py:35 | the tuple order (rank, created time, ingestion id, batch id) is transitive |
| `JobQueue.EntryLessTotal` | batch_worker.py:35 | any two distinct entries are ordered, so a smallest entry exists |
| `JobQueue.EntryLeqAntisymmetric` | batch_worker.py:35 | the smallest entry is unique up to equality of all four fields |
| `JobQueue.MinIndex` | batch_worker.py:35 | the popped entry is at most every queued entry in tuple order; no queued entry has a smaller rank, and none of the same rank was created earlier |
| `JobQueue.RemoveAt` | batch_worker.py:35 | removing the popped position takes exactly that one entry out of the queue's multiset |
| `Split.ChunksCount` | main.py:78 | the number of batches is ceil(n/3): zero exactly for empty input, and otherwise the least count whose batches of three hold all n ids |
| `Split.ChunkSizes` | main.py:78 | every batch holds 1 to 3 ids, and all but the last hold exactly 3 |
| `Split.ChunksUnfold` | main.py:78 | the batch list is the first slice followed by the batches of the rest |
| `Split.ChunksFlatten` | main.py:78 | concatenating the batches in order gives back the ids exactly |
| `Split.ChunksExample` | test_main.py:40-46 | [10, 11, 12, 13] splits into [10, 11, 12] and [13] |
| `Split.Chunks` | main.py:78 | the split is empty exactly when the ids are, and every batch holds between 1 and 3 ids |
| `Aggregate.OverallStatus` | main.py:115-122 | the overall status is never failed; it is completed iff the set is {completed}; it is triggered iff the set contains triggered; otherwise it is yet_to_start |
| `Aggregate.FailedIsHidden` | main.py:115-122 | a set with failed and without triggered reads yet_to_start |
| `BatchWorker.Wait` | batch_worker.py:51-54 | the pause brings the end time to at least last + 5, and a positive pause lands exactly on last + 5 |
| `BatchWorker.WaitIsLeast` | batch_worker.py:53-54 | no shorter pause restores the 5-unit spacing |
| `BatchWorker.NoPriorBatchNoWait` | batch_worker.py:51-54 | with last_batch_time still 0 and the clock past the spacing, the first successful batch does not pause |
| `BatchWorker.Clock.Sleep` | batch_worker.py:45 | a sleep advances the clock by exactly the requested amount; the same clock serves the idle sleep (line 33) and the rate-limit sleep (line 54) |
| `BatchWorker.Worker.constructor` | batch_worker.py:10-13 | the worker starts with an empty queue, not started, and last_batch_time 0, on a clock already past the spacing |
| `BatchWorker.Worker.Enqueue` | batch_worker.py:15-26 | an unknown priority fails with InvalidPriority, and an unknown ingestion fails with UnknownIngestion; either way the queue and the started flag are unchanged. On success, one entry (rank, the ingestion's created time, ingestion id, batch id) is appended per batch id in order, the existing entries stay as they were, and the started flag becomes true. The result tells whether this call started the worker, which happens only when the flag was false |
| `BatchWorker.Worker.Dispatch` | batch_worker.py:31-39 | an empty queue costs one idle unit and changes no queue entry and no record. Otherwise a smallest entry leaves the queue's multiset. A stale entry (status not yet_to_start) changes no record; a yet_to_start batch becomes triggered and in flight, and nothing else changes |
| `BatchWorker.Worker.Process` | batch_worker.py:42-60 | a downstream raise at index i makes the in-flight batch failed with that message after i clock units, and last_batch_time is unchanged. Otherwise the batch is completed after one unit per id plus Wait; last_batch_time becomes the clock and grows by at least 5. Only that batch's record changes, and the queue is untouched |
| `BatchWorker.Worker.Step` | batch_worker.py:30-60 | the worker is idle exactly when nothing is in flight and the queue is empty, and then the queue is unchanged; a pop takes a smallest entry out of the queue's multiset, and finishing an in-flight batch leaves the queue alone. A dropped entry's batch had already left yet_to_start; a dispatched batch was yet_to_start, is now triggered and is in flight; a finished batch is the one that was in flight. An idle step sleeps one unit; a pop leaves the clock alone; a dropped entry changes no record; a dispatch changes only its batch's status. A finished batch is failed with the downstream's message after `index` units when the call for the id at that index raises, and otherwise completed after one unit per id plus `Wait`, with last_batch_time set to the clock; no other field of its record changes. Every batch status moves at most one edge forward and never back; only the popped or in-flight batch changes; the clock and last_batch_time never go back; after a completed batch last_batch_time advanced by at least 5, and otherwise it is unchanged |
| `BatchWorker.Worker.Run` | batch_worker.py:28-60 | over any number of loop iterations no batch status goes backwards (the steps compose by `ReachableTransitive`), no record appears or vanishes, the worker invariant holds, and the clock and last_batch_time never go back |
| `Api.RequestPrioritiesRanked` | main.py:67-69 | the priorities the request schema accepts are exactly the keys of the priority map |
| `Api.CreateBatches` | main.py:79-87 | one yet_to_start record per slice, owned by the ingestion, under the next fresh id; the returned ids are in slice order; existing records are untouched |
| `Api.CreateRecords` | main.py:79-92 | the batch records of `CreateBatches`, then an ingestion record with the request's priority, the current clock as created time and the new batch ids in slice order; every listed batch has a record, so the worker invariant is kept |
| `Api.Accept` | main.py:79-93 | an accepted request's records are written and one queue entry per batch, carrying the priority's rank and the creation time, is appended in batch order behind the existing entries; the worker counts as started |
| `Api.Ingest` | main.py:71-95 | empty ids or an unknown priority are rejected before any record or queue entry is created. Otherwise the ingestion record lists the batch ids in split order with the current clock as created time; batch j holds slice j of the split, is yet_to_start and points back at the ingestion; one queue entry per batch is appended; the worker invariant is kept; last_batch_time and the in-flight batch are outside the handler's frame, so they are unchanged |
| `Api.Status` | main.py:97-128 | an unknown id yields NotFound, and a known one yields a report. The report lists the batches in the ingestion's batch_ids order, with each batch's ids and status copied from the batch store; the overall status is the fold of exactly those statuses |
| `Api.UniformStatusSet` | main.py:115-118 | when all batches share one status, the status set is that singleton; all yet_to_start reads yet_to_start, and all completed reads completed |
| `Api.StatusSet` | main.py:106-114 | the status set holds the status of every listed batch and nothing else |

## Left out

- Threads and the lock (batch_worker.py:11, 20, 25, 31). Each worker section and each handler
  is one atomic step, so races between enqueue, pop and status polling are not modelled.
  Starting the thread is reduced to the flag and to `Enqueue`'s result saying whether this
  call would start it. The idle `time.sleep(1)` is called while the lock is held; that
  hazard is only noted here.
- Floating-point `time.time()` and `time.sleep`. They are replaced by a natural-number clock
  that sleeps advance exactly. The downstream call's real duration is the source's simulated
  one second per identifier.
- UUID generation. Fresh identifiers are parameters of `Ingest`; it requires them to be
  distinct and unused.
- `heapq` internals. The heap layout is not modelled: a push appends to a sequence, and a pop
  removes the entry `MinIndex` finds, which has the heap pop's contract.
- The `store` module is not part of this model. The two dictionaries are the maps of
  `Records.Store`.
- KeyError paths that the worker invariant rules out. The worker looks up a popped batch id
  in the batch store, and the status query looks up each listed batch id. Both lookups would
  raise if the record were missing. `Worker.Valid` and `Store.Valid` require every queued or
  listed batch id to have a record, which `Ingest` establishes because it creates the records
  before it enqueues.
- Exceptions other than a downstream call raising inside the processing section.
- FastAPI plumbing: the app set-up, CORS, static files, the root route, logging, the startup
  browser launch and HTTP response shapes beyond the report datatypes. Request validation
  other than "ids non-empty" and "priority is HIGH, MEDIUM or LOW" (such as "ids are
  integers") is left to the types.
- The browser UI (static/app.js) and the timing-based integration tests (test_main.py),
  which serve only as evidence for the split example.
- Whole-run properties other than the monotone statuses of `Run` are stated per step:
  - At-most-once dispatch: `Step` triggers only a `yet_to_start` batch, and `Run` never
    moves a status backwards, so a batch is triggered at most once.
  - HIGH before LOW: `Dispatch` pops an entry of least rank.
