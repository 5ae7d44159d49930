/** The accuracy metric: how many rows of logits have their maximum at the label. */
module Metrics {

  /**
   * `np.argmax` of one row: the first position of the maximum. A later position
   * holding the same maximum does not win.
   */
  function Argmax(row: seq<real>): (m: nat)
    requires |row| > 0
    ensures m < |row|
    ensures forall j | 0 <= j < |row| :: row[j] <= row[m]
    ensures forall j | 0 <= j < m :: row[j] < row[m]
  {
    if |row| == 1 then 0
    else
      var m := Argmax(row[..|row| - 1]);
      if row[|row| - 1] > row[m] then |row| - 1 else m
  }

  /** One row of logits per label, and no empty row. */
  predicate WellShaped(logits: seq<seq<real>>, labels: seq<int>)
  {
    |logits| == |labels| && forall row <- logits :: |row| > 0
  }

  /** Lines 302-304: `np.sum(np.argmax(out, axis=1) == labels)`. */
  function Accuracy(logits: seq<seq<real>>, labels: seq<int>): (n: nat)
    requires WellShaped(logits, labels)
    ensures n <= |labels|
  {
    if logits == [] then 0
    else
      var k := |logits| - 1;
      assert logits[k] in logits;
      Accuracy(logits[..k], labels[..k]) + (if Argmax(logits[k]) == labels[k] then 1 else 0)
  }

  /** Accuracy counts add up over consecutive batches (the sum at line 734). */
  lemma {:induction false} AccuracyAppend(l1: seq<seq<real>>, y1: seq<int>, l2: seq<seq<real>>, y2: seq<int>)
    requires WellShaped(l1, y1) && WellShaped(l2, y2)
    ensures WellShaped(l1 + l2, y1 + y2)
    ensures Accuracy(l1 + l2, y1 + y2) == Accuracy(l1, y1) + Accuracy(l2, y2)
    decreases |l2|
  {
    assert forall row <- l1 + l2 :: row in l1 || row in l2;
    if l2 != [] {
      var k := |l2| - 1;
      assert l2[k] in l2;
      AccuracyAppend(l1, y1, l2[..k], y2[..k]);
      var n := |l1| + k;
      assert (l1 + l2)[..n] == l1 + l2[..k];
      assert (y1 + y2)[..n] == y1 + y2[..k];
      assert (l1 + l2)[n] == l2[k] && (y1 + y2)[n] == y2[k];
      assert Accuracy(l1 + l2, y1 + y2)
          == Accuracy(l1 + l2[..k], y1 + y2[..k]) + (if Argmax(l2[k]) == y2[k] then 1 else 0);
    } else {
      assert l1 + l2 == l1 && y1 + y2 == y1;
    }
  }

  /** Every row is counted exactly when every argmax equals its label. */
  lemma {:induction false} AccuracyAll(logits: seq<seq<real>>, labels: seq<int>)
    requires WellShaped(logits, labels)
    ensures Accuracy(logits, labels) == |labels|
            <==> forall i | 0 <= i < |labels| :: Argmax(logits[i]) == labels[i]
  {
    if logits != [] {
      var k := |logits| - 1;
      assert logits[k] in logits;
      AccuracyAll(logits[..k], labels[..k]);
    }
  }

  /** No row is counted exactly when no argmax equals its label. */
  lemma {:induction false} AccuracyNone(logits: seq<seq<real>>, labels: seq<int>)
    requires WellShaped(logits, labels)
    ensures Accuracy(logits, labels) == 0
            <==> forall i | 0 <= i < |labels| :: Argmax(logits[i]) != labels[i]
  {
    if logits != [] {
      var k := |logits| - 1;
      assert logits[k] in logits;
      AccuracyNone(logits[..k], labels[..k]);
    }
  }
}
