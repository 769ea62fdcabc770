/**
 * Folding the set of an ingestion's batch statuses into one overall status.
 */
module Aggregate {
  import opened Records

  /** The conditional chain of the status query: only {yet_to_start} and
      {completed} are reported as themselves, any set holding triggered is
      triggered, and everything else falls back to yet_to_start. */
  function OverallStatus(statuses: set<Status>): (r: Status)
    ensures r != Failed
    ensures r == Completed <==> statuses == {Completed}
    ensures r == Triggered <==> Triggered in statuses
    ensures r == YetToStart <==> Triggered !in statuses && statuses != {Completed}
  {
    if statuses == {YetToStart} then YetToStart
    else if statuses == {Completed} then Completed
    else if Triggered in statuses then Triggered
    else YetToStart
  }

  /** A failed batch is never visible in the overall status: with no batch
      in flight it reads yet_to_start, whatever else is in the set. */
  lemma FailedIsHidden(statuses: set<Status>)
    requires Failed in statuses && Triggered !in statuses
    ensures OverallStatus(statuses) == YetToStart
  {
  }
}
