/**
 * The worker's job queue. Every entry is the tuple
 * (priority rank, created time, ingestion id, batch id), and the queue hands
 * out the smallest tuple first, comparing tuples element by element and
 * strings by code point, the way tuples and strings compare in Python.
 * The heap layout is abstracted away: the queue is a sequence, a push
 * appends, and a pop removes the element found by `MinIndex`.
 */
module JobQueue {

  datatype Entry = Entry(rank: nat, createdTime: nat, ingestionId: string, batchId: string)

  /** Lexicographic string order by code point; a proper prefix is smaller. */
  predicate StrLess(a: string, b: string)
    ensures StrLess(a, b) ==> |b| > 0
    ensures |a| == 0 ==> (StrLess(a, b) <==> |b| > 0)
    decreases |a|
  {
    if |b| == 0 then false
    else if |a| == 0 then true
    else if a[0] != b[0] then a[0] < b[0]
    else StrLess(a[1..], b[1..])
  }

  lemma {:induction false} StrLessIrreflexive(a: string)
    ensures !StrLess(a, a)
    decreases |a|
  {
    if |a| > 0 {
      StrLessIrreflexive(a[1..]);
    }
  }

  lemma {:induction false} StrLessAsymmetric(a: string, b: string)
    requires StrLess(a, b)
    ensures !StrLess(b, a)
    decreases |a|
  {
    if |a| > 0 && a[0] == b[0] {
      StrLessAsymmetric(a[1..], b[1..]);
    }
  }

  lemma {:induction false} StrLessTransitive(a: string, b: string, c: string)
    requires StrLess(a, b) && StrLess(b, c)
    ensures StrLess(a, c)
    decreases |a|
  {
    if |a| > 0 && a[0] == b[0] && b[0] == c[0] {
      StrLessTransitive(a[1..], b[1..], c[1..]);
    }
  }

  lemma {:induction false} StrLessTotal(a: string, b: string)
    ensures a == b || StrLess(a, b) || StrLess(b, a)
    decreases |a|
  {
    if |a| > 0 && |b| > 0 && a[0] == b[0] {
      StrLessTotal(a[1..], b[1..]);
      if a[1..] == b[1..] {
        assert a == [a[0]] + a[1..] && b == [b[0]] + b[1..];
      }
    }
  }

  /** Python's tuple order on queue entries. */
  predicate EntryLess(x: Entry, y: Entry)
    ensures x.rank < y.rank ==> EntryLess(x, y)
    ensures EntryLess(x, y) ==> x.rank <= y.rank
    ensures EntryLess(x, y) && x.rank == y.rank ==> x.createdTime <= y.createdTime
  {
    x.rank < y.rank
    || (x.rank == y.rank && x.createdTime < y.createdTime)
    || (x.rank == y.rank && x.createdTime == y.createdTime && StrLess(x.ingestionId, y.ingestionId))
    || (x.rank == y.rank && x.createdTime == y.createdTime && x.ingestionId == y.ingestionId
        && StrLess(x.batchId, y.batchId))
  }

  predicate EntryLeq(x: Entry, y: Entry)
  {
    x == y || EntryLess(x, y)
  }

  lemma EntryLessIrreflexive(x: Entry)
    ensures !EntryLess(x, x)
  {
    StrLessIrreflexive(x.ingestionId);
    StrLessIrreflexive(x.batchId);
  }

  lemma EntryLessAsymmetric(x: Entry, y: Entry)
    requires EntryLess(x, y)
    ensures !EntryLess(y, x)
  {
    if StrLess(x.ingestionId, y.ingestionId) {
      StrLessAsymmetric(x.ingestionId, y.ingestionId);
    }
    if StrLess(x.batchId, y.batchId) {
      StrLessAsymmetric(x.batchId, y.batchId);
    }
    StrLessIrreflexive(x.ingestionId);
  }

  lemma EntryLessTransitive(x: Entry, y: Entry, z: Entry)
    requires EntryLess(x, y) && EntryLess(y, z)
    ensures EntryLess(x, z)
  {
    if StrLess(x.ingestionId, y.ingestionId) && StrLess(y.ingestionId, z.ingestionId) {
      StrLessTransitive(x.ingestionId, y.ingestionId, z.ingestionId);
    }
    if StrLess(x.batchId, y.batchId) && StrLess(y.batchId, z.batchId) {
      StrLessTransitive(x.batchId, y.batchId, z.batchId);
    }
  }

  lemma EntryLessTotal(x: Entry, y: Entry)
    ensures x == y || EntryLess(x, y) || EntryLess(y, x)
  {
    StrLessTotal(x.ingestionId, y.ingestionId);
    StrLessTotal(x.batchId, y.batchId);
  }

  /** The smallest entry is unique: two entries that are each at most the
      other are the same tuple. */
  lemma EntryLeqAntisymmetric(x: Entry, y: Entry)
    requires EntryLeq(x, y) && EntryLeq(y, x)
    ensures x == y
  {
    if x != y {
      EntryLessAsymmetric(x, y);
    }
  }

  /** The position of a smallest entry of a non-empty queue: what a heap pop
      would return. */
  method MinIndex(q: seq<Entry>) returns (m: nat)
    requires |q| > 0
    ensures m < |q|
    ensures forall k :: 0 <= k < |q| ==> EntryLeq(q[m], q[k])
    ensures forall k :: 0 <= k < |q| ==> q[m].rank <= q[k].rank
    ensures forall k :: 0 <= k < |q| && q[k].rank == q[m].rank ==> q[m].createdTime <= q[k].createdTime
  {
    m := 0;
    var i := 1;
    while i < |q|
      invariant 1 <= i <= |q| && m < i
      invariant forall k :: 0 <= k < i ==> EntryLeq(q[m], q[k])
    {
      if EntryLess(q[i], q[m]) {
        forall k | 0 <= k < i
          ensures EntryLeq(q[i], q[k])
        {
          if q[m] != q[k] {
            EntryLessTransitive(q[i], q[m], q[k]);
          }
        }
        m := i;
      } else {
        EntryLessTotal(q[i], q[m]);
      }
      i := i + 1;
    }
  }

  /** The queue after removing position `m`. */
  function RemoveAt(q: seq<Entry>, m: nat): (r: seq<Entry>)
    requires m < |q|
    ensures |r| == |q| - 1
    ensures multiset(r) == multiset(q) - multiset{q[m]}
  {
    assert q == q[..m] + [q[m]] + q[m + 1..];
    q[..m] + q[m + 1..]
  }
}
