/** The curriculum scheduler: which cumulative bucket each of the 13 epochs trains on. */
module Schedule {

  /** The training loop runs `range(13)` epochs. */
  const NumEpochs: nat := 13

  /** Index of the hardest, largest bucket. */
  const LastBucket: nat := 5

  /**
   * Lines 663-665: `j = epoch // 2`, capped at 5. Each bucket below the last is
   * used for the two epochs `2j` and `2j + 1`; the last from epoch 10 on.
   */
  function BucketForEpoch(epoch: nat): (j: nat)
    ensures j <= LastBucket
    ensures 2 * j <= epoch
    ensures j < LastBucket ==> epoch < 2 * j + 2
  {
    var j := epoch / 2;
    if j > LastBucket then LastBucket else j
  }

  /** The schedule never goes back to an easier bucket. */
  lemma BucketMonotone(e1: nat, e2: nat)
    requires e1 <= e2
    ensures BucketForEpoch(e1) <= BucketForEpoch(e2)
  {
  }

  /**
   * Over the 13 epochs, bucket `k < 5` is trained on in epochs `2k` and
   * `2k + 1` only, and bucket 5 in epochs 10, 11 and 12.
   */
  lemma EpochsOfBucket(k: nat, e: nat)
    requires k <= LastBucket && e < NumEpochs
    ensures BucketForEpoch(e) == k <==> 2 * k <= e && (e < 2 * k + 2 || k == LastBucket)
  {
  }
}
