/**
 * Splitting a request's identifiers into batches of at most `BatchSize`:
 * the slices ids[i:i+3] for i in range(0, len(ids), 3), with Python's
 * clamping of a slice that runs past the end.
 */
module Split {

  const BatchSize: nat := 3

  function Min(a: int, b: int): (r: int)
  {
    if a <= b then a else b
  }

  /** The number of batches the comprehension produces: one per start
      position 0, 3, 6, ... below |ids|. */
  function ChunkCount(n: nat): (r: nat)
  {
    (n + BatchSize - 1) / BatchSize
  }

  /** The batches, in order; batch k is ids[3k : 3k+3], clamped. */
  function Chunks(ids: seq<int>): (r: seq<seq<int>>)
    ensures |r| == 0 <==> |ids| == 0
    ensures forall k :: 0 <= k < |r| ==> 1 <= |r[k]| <= BatchSize
  {
    seq(ChunkCount(|ids|), k requires 0 <= k < ChunkCount(|ids|) =>
      ids[BatchSize * k .. Min(BatchSize * k + BatchSize, |ids|)])
  }

  /** The batches concatenated in order. */
  function Flatten(ss: seq<seq<int>>): (r: seq<int>)
  {
    if ss == [] then [] else ss[0] + Flatten(ss[1..])
  }

  /** ceil(n/3) batches, stated without division: enough batches of three to
      hold every identifier, and not one more. */
  lemma ChunksCount(ids: seq<int>)
    ensures |Chunks(ids)| == 0 <==> |ids| == 0
    ensures BatchSize * |Chunks(ids)| >= |ids|
    ensures |ids| > 0 ==> BatchSize * (|Chunks(ids)| - 1) < |ids|
  {
  }

  /** Every batch holds one to three identifiers, and all but the last hold
      exactly three. */
  lemma ChunkSizes(ids: seq<int>, k: nat)
    requires k < |Chunks(ids)|
    ensures 1 <= |Chunks(ids)[k]| <= BatchSize
    ensures k < |Chunks(ids)| - 1 ==> |Chunks(ids)[k]| == BatchSize
  {
  }

  /** Splitting off the first batch leaves the batches of the rest. */
  lemma ChunksUnfold(ids: seq<int>)
    requires |ids| > 0
    ensures Chunks(ids) == [ids[..Min(BatchSize, |ids|)]] + Chunks(ids[Min(BatchSize, |ids|)..])
  {
    var c, rest := Chunks(ids), Chunks(ids[Min(BatchSize, |ids|)..]);
    assert |c| == 1 + |rest|;
    forall k | 0 <= k < |rest|
      ensures c[k + 1] == rest[k]
    {
      assert ids[Min(BatchSize, |ids|)..][BatchSize * k .. Min(BatchSize * k + BatchSize, |ids| - BatchSize)]
          == ids[BatchSize * (k + 1) .. Min(BatchSize * (k + 1) + BatchSize, |ids|)];
    }
  }

  /** Concatenating the batches in order gives back the identifiers. */
  lemma {:induction false} ChunksFlatten(ids: seq<int>)
    ensures Flatten(Chunks(ids)) == ids
    decreases |ids|
  {
    if |ids| > 0 {
      var h := Min(BatchSize, |ids|);
      ChunksUnfold(ids);
      ChunksFlatten(ids[h..]);
      assert Chunks(ids)[1..] == Chunks(ids[h..]);
      assert ids == ids[..h] + ids[h..];
    }
  }

  /** The worked example: [10, 11, 12, 13] becomes [10, 11, 12] and [13]. */
  lemma ChunksExample()
    ensures Chunks([10, 11, 12, 13]) == [[10, 11, 12], [13]]
  {
    var ids := [10, 11, 12, 13];
    assert |Chunks(ids)| == 2;
    assert Chunks(ids)[0] == ids[0..3] == [10, 11, 12];
    assert Chunks(ids)[1] == ids[3..4] == [13];
  }
}
