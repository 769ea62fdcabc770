/**
 * Records shared by the ingestion API and the batch worker: the batch state
 * machine, the batch and ingestion records, and the record store that holds
 * them (two dictionaries keyed by identifier, mutated in place).
 */
module Records {

  datatype Option<T> = None | Some(value: T)

  datatype Result<T, E> = Ok(value: T) | Err(error: E)

  /** The status of one batch. */
  datatype Status = YetToStart | Triggered | Completed | Failed

  /** A batch record: its slice of identifiers, its status, its owner and,
      once it has failed, the error message. */
  datatype Batch = Batch(ids: seq<int>, status: Status, ingestionId: string, error: Option<string>)

  /** An ingestion record: the request's priority name, its creation time and
      the identifiers of its batches in split order. */
  datatype Ingestion = Ingestion(priority: string, createdTime: nat, batchIds: seq<string>)

  /** How far a status is along yet_to_start -> triggered -> completed | failed. */
  function Stage(s: Status): (n: nat)
    ensures n <= 2
    ensures n == 0 <==> s == YetToStart
    ensures n == 2 <==> s == Completed || s == Failed
  {
    match s
    case YetToStart => 0
    case Triggered => 1
    case Completed => 2
    case Failed => 2
  }

  /** One observable move of a batch's status, or none. */
  predicate Advances(s: Status, t: Status)
  {
    s == t
    || (s == YetToStart && t == Triggered)
    || (s == Triggered && (t == Completed || t == Failed))
  }

  /** Any number of forward moves: no regression, and the two terminal
      statuses never turn into each other. */
  predicate Reachable(s: Status, t: Status)
  {
    s == t || Stage(s) < Stage(t)
  }

  lemma AdvancesIsForward(s: Status, t: Status)
    requires Advances(s, t)
    ensures Reachable(s, t)
    ensures s == Completed || s == Failed ==> t == s
  {
  }

  lemma ReachableTransitive(s: Status, t: Status, u: Status)
    requires Reachable(s, t) && Reachable(t, u)
    ensures Reachable(s, u)
  {
  }

  /** The record store: `batches` and `ingestions` are dictionaries whose
      entries are created by the API and whose batch statuses are updated
      in place by the worker. */
  class Store {
    var batches: map<string, Batch>
    var ingestions: map<string, Ingestion>

    constructor ()
      ensures batches == map[] && ingestions == map[]
    {
      batches := map[];
      ingestions := map[];
    }

    /** Every batch an ingestion lists is in the batch store and points back
        at that ingestion. */
    ghost predicate Valid()
      reads this
    {
      forall i, k :: i in ingestions && 0 <= k < |ingestions[i].batchIds| ==>
        ingestions[i].batchIds[k] in batches && batches[ingestions[i].batchIds[k]].ingestionId == i
    }
  }
}
