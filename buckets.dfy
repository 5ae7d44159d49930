/**
 * The cumulative curriculum buckets: after five in-place `extend`s, bucket k
 * holds its own new groups followed by everything of bucket k - 1.
 */
module Buckets {

  /** Difficulty buckets 0..5. */
  const NumBuckets: nat := 6

  /** Bucket `k` after the extends: `raw[k] + raw[k - 1] + ... + raw[0]`. */
  function Cumulative<T>(raw: seq<seq<T>>, k: nat): (r: seq<T>)
    requires k < |raw|
    ensures raw[k] <= r
  {
    if k == 0 then raw[0] else raw[k] + Cumulative(raw, k - 1)
  }

  /** Lines 630-634: `bucket_k.extend(bucket_{k-1})` for k = 1..5, in this order. */
  method ExtendBuckets<T>(buckets: array<seq<T>>)
    requires buckets.Length == NumBuckets
    modifies buckets
    ensures forall k | 0 <= k < NumBuckets :: buckets[k] == Cumulative(old(buckets[..]), k)
  {
    ghost var raw := buckets[..];
    buckets[1] := buckets[1] + buckets[0];
    buckets[2] := buckets[2] + buckets[1];
    buckets[3] := buckets[3] + buckets[2];
    buckets[4] := buckets[4] + buckets[3];
    buckets[5] := buckets[5] + buckets[4];
    assert buckets[0] == Cumulative(raw, 0);
    assert buckets[1] == Cumulative(raw, 1);
    assert buckets[2] == Cumulative(raw, 2);
    assert buckets[3] == Cumulative(raw, 3);
    assert buckets[4] == Cumulative(raw, 4);
  }

  /** `|raw[0]| + ... + |raw[k]|`. */
  function SizeUpTo<T>(raw: seq<seq<T>>, k: nat): nat
    requires k < |raw|
  {
    if k == 0 then |raw[0]| else SizeUpTo(raw, k - 1) + |raw[k]|
  }

  /** Bucket `k` is as large as buckets 0..k of new material together. */
  lemma {:induction false} CumulativeSize<T>(raw: seq<seq<T>>, k: nat)
    requires k < |raw|
    ensures |Cumulative(raw, k)| == SizeUpTo(raw, k)
  {
    if k > 0 {
      CumulativeSize(raw, k - 1);
    }
  }

  /** An easier bucket is a suffix of every harder one: the new groups come first. */
  lemma {:induction false} CumulativeSuffix<T>(raw: seq<seq<T>>, j: nat, k: nat)
    requires j <= k < |raw|
    ensures |Cumulative(raw, j)| <= |Cumulative(raw, k)|
    ensures Cumulative(raw, k)[|Cumulative(raw, k)| - |Cumulative(raw, j)|..] == Cumulative(raw, j)
  {
    if j < k {
      CumulativeSuffix(raw, j, k - 1);
      var longer := Cumulative(raw, k - 1);
      assert Cumulative(raw, k) == raw[k] + longer;
      assert (raw[k] + longer)[|raw[k]| + |longer| - |Cumulative(raw, j)|..]
          == longer[|longer| - |Cumulative(raw, j)|..];
    }
  }

  /** A group is in bucket `k` exactly when it is new material of some bucket `i <= k`. */
  lemma {:induction false} CumulativeMembers<T>(raw: seq<seq<T>>, k: nat, x: T)
    requires k < |raw|
    ensures x in Cumulative(raw, k) <==> exists i | 0 <= i <= k :: x in raw[i]
  {
    if k > 0 {
      CumulativeMembers(raw, k - 1, x);
      if x in raw[k] {
        assert exists i | 0 <= i <= k :: x in raw[i];
      }
    }
  }

  /** The hardest bucket holds every group of every other bucket. */
  lemma LastBucketHoldsAll<T>(raw: seq<seq<T>>, j: nat, x: T)
    requires |raw| == NumBuckets && j < NumBuckets && x in Cumulative(raw, j)
    ensures x in Cumulative(raw, NumBuckets - 1)
  {
    CumulativeMembers(raw, j, x);
    CumulativeMembers(raw, NumBuckets - 1, x);
  }
}
