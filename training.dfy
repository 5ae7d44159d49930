/**
 * The training and evaluation loop of the curriculum run: configuration
 * checks, gradient accumulation, per-epoch evaluation on the dev set and
 * best-checkpoint selection. The model and the optimizer are opaque; what the
 * loop does to them is recorded as a history of calls.
 */
module Training {

  import opened Common
  import opened Metrics
  import opened Schedule
  import opened Buckets

  /** Lines 483-485: a ValueError for a gradient accumulation step count below one. */
  datatype ConfigError = InvalidGradientAccumulationSteps(steps: int)

  datatype Config = Config(gradientAccumulationSteps: nat, trainBatchSize: nat)

  lemma MulMonotone(a: nat, b: nat, g: nat)
    requires a <= b
    ensures a * g <= b * g
  {
    var d := b - a;
    assert b * g == a * g + d * g;
  }

  /** The quotient and remainder of `x` by `g` are the only such pair. */
  lemma DivModUnique(x: nat, g: nat, q: nat, r: nat)
    requires g >= 1 && x == q * g + r && r < g
    ensures x / g == q && x % g == r
  {
    var q', r' := x / g, x % g;
    assert x == q' * g + r';
    if q' < q {
      MulMonotone(q' + 1, q, g);
      assert false;
    } else if q < q' {
      MulMonotone(q + 1, q', g);
      assert false;
    }
  }

  /** How quotient and remainder move when `s` grows by one. */
  lemma DivModNext(s: nat, g: nat)
    requires g >= 1
    ensures (s + 1) % g == if s % g + 1 == g then 0 else s % g + 1
    ensures (s + 1) / g == if s % g + 1 == g then s / g + 1 else s / g
  {
    var q, r := s / g, s % g;
    if r + 1 == g {
      DivModUnique(s + 1, g, q + 1, 0);
    } else {
      DivModUnique(s + 1, g, q, r + 1);
    }
  }

  /**
   * Lines 483-487: reject a step count below one, then divide the batch size by
   * it (`int(a / b)` on non-negative operands is the floor of the quotient).
   */
  function CheckAccumulation(steps: int, trainBatchSize: nat): (r: Result<Config, ConfigError>)
    ensures r.Err? <==> steps < 1
    ensures r.Err? ==> r.error == InvalidGradientAccumulationSteps(steps)
    ensures r.Ok? ==> r.value.gradientAccumulationSteps == steps
                      && r.value.trainBatchSize * steps <= trainBatchSize
                      && trainBatchSize < (r.value.trainBatchSize + 1) * steps
  {
    if steps < 1 then Err(InvalidGradientAccumulationSteps(steps))
    else
      DivModUnique(trainBatchSize, steps, trainBatchSize / steps, trainBatchSize % steps);
      Ok(Config(steps, trainBatchSize / steps))
  }

  /** A call the loop makes on the opaque model or optimizer. */
  datatype Event = Backward | OptimizerStep | ZeroGrad

  /**
   * Lines 690-697 for the batch at position `step` of a pass: the loss is
   * back-propagated, and every `steps`-th batch the optimizer steps and the
   * gradients are zeroed.
   */
  function BatchEvents(step: nat, steps: nat): seq<Event>
    requires steps >= 1
  {
    [Backward] + if (step + 1) % steps == 0 then [OptimizerStep, ZeroGrad] else []
  }

  /** The calls of one pass over `n` batches. */
  function PassEvents(n: nat, steps: nat): seq<Event>
    requires steps >= 1
  {
    if n == 0 then [] else PassEvents(n - 1, steps) + BatchEvents(n - 1, steps)
  }

  function Count(events: seq<Event>, e: Event): nat
  {
    if events == [] then 0
    else Count(events[..|events| - 1], e) + if events[|events| - 1] == e then 1 else 0
  }

  lemma {:induction false} CountAppend(s: seq<Event>, t: seq<Event>, e: Event)
    ensures Count(s + t, e) == Count(s, e) + Count(t, e)
    decreases |t|
  {
    if t == [] {
      assert s + t == s;
    } else {
      CountAppend(s, t[..|t| - 1], e);
      assert (s + t)[..|s + t| - 1] == s + t[..|t| - 1];
    }
  }

  /** One batch back-propagates once, and steps and zeroes once when its position closes a group. */
  lemma BatchCounts(step: nat, steps: nat)
    requires steps >= 1
    ensures Count(BatchEvents(step, steps), Backward) == 1
    ensures Count(BatchEvents(step, steps), OptimizerStep) == if (step + 1) % steps == 0 then 1 else 0
    ensures Count(BatchEvents(step, steps), ZeroGrad) == if (step + 1) % steps == 0 then 1 else 0
  {
    var batch := BatchEvents(step, steps);
    var one, two, three := [Backward], [Backward, OptimizerStep], [Backward, OptimizerStep, ZeroGrad];
    assert one[..0] == [] && two[..1] == one && three[..2] == two;
    forall e: Event
      ensures Count(one, e) == if e == Backward then 1 else 0
      ensures Count(three, e) == 1
    {
      assert Count(one, e) == Count([], e) + if e == Backward then 1 else 0;
      assert Count(two, e) == Count(one, e) + if e == OptimizerStep then 1 else 0;
      assert Count(three, e) == Count(two, e) + if e == ZeroGrad then 1 else 0;
    }
    if (step + 1) % steps == 0 {
      assert batch == three;
    } else {
      assert batch == one;
    }
  }

  /** The quotient by `steps` grows by one exactly when `m + 1` closes a group. */
  lemma QuotientStep(m: nat, steps: nat)
    requires steps >= 1
    ensures (m + 1) / steps == m / steps + if (m + 1) % steps == 0 then 1 else 0
  {
    DivModNext(m, steps);
  }

  /** The count of one kind of call in a pass, batch by batch. */
  lemma {:induction false} PassCount(n: nat, steps: nat, e: Event)
    requires steps >= 1
    ensures Count(PassEvents(n, steps), e) == if e == Backward then n else n / steps
  {
    if n == 0 {
      DivModUnique(0, steps, 0, 0);
    } else {
      var m := n - 1;
      PassCount(m, steps, e);
      QuotientStep(m, steps);
      BatchCounts(m, steps);
      CountAppend(PassEvents(m, steps), BatchEvents(m, steps), e);
    }
  }

  /**
   * A pass over `n` batches back-propagates `n` times and steps the optimizer
   * exactly `n / steps` times (integer division), zeroing the gradients as
   * often.
   */
  lemma PassCounts(n: nat, steps: nat)
    requires steps >= 1
    ensures Count(PassEvents(n, steps), Backward) == n
    ensures Count(PassEvents(n, steps), OptimizerStep) == n / steps
    ensures Count(PassEvents(n, steps), ZeroGrad) == n / steps
  {
    PassCount(n, steps, Backward);
    PassCount(n, steps, OptimizerStep);
    PassCount(n, steps, ZeroGrad);
  }

  /**
   * The gradients are zeroed only right after an optimizer step, and every
   * optimizer step is followed at once by zeroing them.
   */
  lemma {:induction false} ZeroGradOnlyAfterStep(n: nat, steps: nat)
    requires steps >= 1
    ensures forall i | 0 <= i < |PassEvents(n, steps)| ::
              (PassEvents(n, steps)[i] == ZeroGrad <==> i > 0 && PassEvents(n, steps)[i - 1] == OptimizerStep)
    ensures forall i | 0 <= i < |PassEvents(n, steps)| && PassEvents(n, steps)[i] == OptimizerStep ::
              i + 1 < |PassEvents(n, steps)|
    ensures n > 0 ==> PassEvents(n, steps)[0] == Backward
  {
    if n > 0 {
      ZeroGradOnlyAfterStep(n - 1, steps);
      var prefix, batch := PassEvents(n - 1, steps), BatchEvents(n - 1, steps);
      var all := prefix + batch;
      assert PassEvents(n, steps) == all;
      forall i | 0 <= i < |all|
        ensures all[i] == ZeroGrad <==> i > 0 && all[i - 1] == OptimizerStep
        ensures all[i] == OptimizerStep ==> i + 1 < |all|
      {
        if i < |prefix| {
          assert all[i] == prefix[i];
          if i > 0 {
            assert all[i - 1] == prefix[i - 1];
          }
        } else {
          assert all[i] == batch[i - |prefix|];
          if i > |prefix| {
            assert all[i - 1] == batch[i - 1 - |prefix|];
          } else if i > 0 {
            assert all[i - 1] == prefix[|prefix| - 1];
          }
        }
      }
    }
  }

  /** One evaluation batch: the model's logits and the labels after `reshape(-1)`. */
  datatype EvalBatch = EvalBatch(logits: seq<seq<real>>, labels: seq<int>)

  /** Lines 739-740 divide by the number of batches and rows: an empty dev set is a ZeroDivisionError. */
  datatype EvalError = EmptyEvaluation

  /** A batch from the data loader: shaped rows, and at least one of them. */
  predicate BatchShaped(b: EvalBatch)
  {
    WellShaped(b.logits, b.labels) && |b.labels| > 0
  }

  function AllLogits(batches: seq<EvalBatch>): seq<seq<real>>
  {
    if batches == [] then [] else AllLogits(batches[..|batches| - 1]) + batches[|batches| - 1].logits
  }

  function AllLabels(batches: seq<EvalBatch>): seq<int>
  {
    if batches == [] then [] else AllLabels(batches[..|batches| - 1]) + batches[|batches| - 1].labels
  }

  lemma {:induction false} AllShaped(batches: seq<EvalBatch>)
    requires forall b <- batches :: BatchShaped(b)
    ensures WellShaped(AllLogits(batches), AllLabels(batches))
    ensures batches != [] ==> |AllLabels(batches)| > 0
  {
    if batches != [] {
      var k := |batches| - 1;
      assert batches[k] in batches;
      assert forall b <- batches[..k] :: b in batches;
      AllShaped(batches[..k]);
      AccuracyAppend(AllLogits(batches[..k]), AllLabels(batches[..k]), batches[k].logits, batches[k].labels);
    }
  }

  /** Gathering one more batch appends its rows. */
  lemma AllNext(batches: seq<EvalBatch>, i: nat)
    requires i < |batches|
    ensures AllLogits(batches[..i + 1]) == AllLogits(batches[..i]) + batches[i].logits
    ensures AllLabels(batches[..i + 1]) == AllLabels(batches[..i]) + batches[i].labels
  {
    assert batches[..i + 1][..i] == batches[..i];
  }

  lemma RatioBounds(a: nat, n: nat)
    requires 0 < n && a <= n
    ensures 0.0 <= a as real / n as real <= 1.0
  {
  }

  /**
   * The accuracy part of one evaluation pass (lines 711-740): per-batch
   * correct counts and row counts are summed, then divided. The result is the
   * fraction of all dev rows whose argmax is the label.
   */
  method EvaluatePass(batches: seq<EvalBatch>) returns (r: Result<real, EvalError>)
    requires forall b <- batches :: BatchShaped(b)
    ensures r.Err? <==> batches == []
    ensures r.Ok? ==> WellShaped(AllLogits(batches), AllLabels(batches))
                      && |AllLabels(batches)| > 0
                      && r.value == Accuracy(AllLogits(batches), AllLabels(batches)) as real
                                    / |AllLabels(batches)| as real
    ensures r.Ok? ==> 0.0 <= r.value <= 1.0
    ensures r.Ok? ==> r.value == PassAccuracy(batches)
  {
    var evalAccuracy: nat := 0;
    var nbEvalSteps: nat := 0;
    var nbEvalExamples: nat := 0;
    for i := 0 to |batches|
      invariant WellShaped(AllLogits(batches[..i]), AllLabels(batches[..i]))
      invariant evalAccuracy == Accuracy(AllLogits(batches[..i]), AllLabels(batches[..i]))
      invariant nbEvalExamples == |AllLabels(batches[..i])|
      invariant nbEvalSteps == i
    {
      var b := batches[i];
      assert b in batches;
      AllNext(batches, i);
      AccuracyAppend(AllLogits(batches[..i]), AllLabels(batches[..i]), b.logits, b.labels);
      evalAccuracy := evalAccuracy + Accuracy(b.logits, b.labels);
      nbEvalExamples := nbEvalExamples + |b.labels|;
      nbEvalSteps := nbEvalSteps + 1;
    }
    assert batches[..|batches|] == batches;
    if nbEvalSteps == 0 {
      return Err(EmptyEvaluation);
    }
    AllShaped(batches);
    RatioBounds(evalAccuracy, nbEvalExamples);
    r := Ok(evalAccuracy as real / nbEvalExamples as real);
  }

  /**
   * The dev accuracy of an evaluation pass: correct rows over all rows. It is
   * taken as 0 for an empty or ill-shaped pass, which the evaluation never
   * divides (it fails or is not called).
   */
  function PassAccuracy(batches: seq<EvalBatch>): (r: real)
    ensures 0.0 <= r <= 1.0
  {
    if batches == [] || exists b <- batches :: !BatchShaped(b) then 0.0
    else
      AllShaped(batches);
      RatioBounds(Accuracy(AllLogits(batches), AllLabels(batches)), |AllLabels(batches)|);
      Accuracy(AllLogits(batches), AllLabels(batches)) as real / |AllLabels(batches)| as real
  }

  /** The best accuracy after the given epochs: it starts at 0 and takes every value `>=` it. */
  function BestOf(accuracies: seq<real>): (r: real)
    ensures r >= 0.0
  {
    if accuracies == [] then 0.0
    else
      var best := BestOf(accuracies[..|accuracies| - 1]);
      if accuracies[|accuracies| - 1] >= best then accuracies[|accuracies| - 1] else best
  }

  /** The epoch whose checkpoint is on disk after the given epochs, if any was written. */
  function SavedEpochOf(accuracies: seq<real>): (r: Option<nat>)
    ensures r.Some? ==> r.value < |accuracies|
  {
    if accuracies == [] then None
    else if accuracies[|accuracies| - 1] >= BestOf(accuracies[..|accuracies| - 1]) then Some(|accuracies| - 1)
    else SavedEpochOf(accuracies[..|accuracies| - 1])
  }

  /** The best accuracy is the maximum of 0 and all epochs' accuracies. */
  lemma {:induction false} BestOfIsMax(accuracies: seq<real>)
    ensures BestOf(accuracies) >= 0.0
    ensures forall e | 0 <= e < |accuracies| :: accuracies[e] <= BestOf(accuracies)
    ensures BestOf(accuracies) == 0.0 || exists e | 0 <= e < |accuracies| :: accuracies[e] == BestOf(accuracies)
  {
    if accuracies != [] {
      var k := |accuracies| - 1;
      BestOfIsMax(accuracies[..k]);
      if BestOf(accuracies[..k]) != 0.0 && accuracies[k] < BestOf(accuracies[..k]) {
        var e :| 0 <= e < k && accuracies[..k][e] == BestOf(accuracies[..k]);
        assert accuracies[e] == BestOf(accuracies);
      }
    }
  }

  /** One more epoch: its accuracy becomes the best, and its checkpoint is written, when it ties or beats the best so far. */
  lemma BestOfAppend(accuracies: seq<real>, a: real)
    ensures BestOf(accuracies + [a]) == if a >= BestOf(accuracies) then a else BestOf(accuracies)
    ensures SavedEpochOf(accuracies + [a])
            == if a >= BestOf(accuracies) then Some(|accuracies|) else SavedEpochOf(accuracies)
  {
    assert (accuracies + [a])[..|accuracies|] == accuracies;
  }

  /** The best accuracy never decreases from one epoch to the next. */
  lemma {:induction false} BestOfGrows(accuracies: seq<real>, k: nat)
    requires k <= |accuracies|
    ensures BestOf(accuracies[..k]) <= BestOf(accuracies)
    decreases |accuracies| - k
  {
    if k < |accuracies| {
      var n := |accuracies|;
      BestOfGrows(accuracies[..n - 1], k);
      assert accuracies[..n - 1][..k] == accuracies[..k];
    } else {
      assert accuracies[..k] == accuracies;
    }
  }

  /**
   * Once some epoch's accuracy is not negative, a checkpoint is written, and
   * the one left on disk is the last epoch that attains the best accuracy.
   */
  lemma {:induction false} SavedIsLastBest(accuracies: seq<real>)
    requires exists a <- accuracies :: a >= 0.0
    ensures SavedEpochOf(accuracies).Some?
    ensures var e := SavedEpochOf(accuracies).value;
            e < |accuracies| && accuracies[e] == BestOf(accuracies)
            && forall e' | e < e' < |accuracies| :: accuracies[e'] < BestOf(accuracies)
  {
    var k := |accuracies| - 1;
    BestOfIsMax(accuracies[..k]);
    if accuracies[k] < BestOf(accuracies[..k]) {
      var i :| 0 <= i < k && accuracies[..k][i] == BestOf(accuracies[..k]);
      assert accuracies[..k][i] in accuracies[..k];
      SavedIsLastBest(accuracies[..k]);
    }
  }

  /** When every epoch's accuracy is negative, no checkpoint is written and the best stays 0. */
  lemma {:induction false} NoneSavedWhenAllNegative(accuracies: seq<real>)
    requires forall a <- accuracies :: a < 0.0
    ensures SavedEpochOf(accuracies).None? && BestOf(accuracies) == 0.0
  {
    if accuracies != [] {
      var k := |accuracies| - 1;
      assert forall a <- accuracies[..k] :: a in accuracies;
      NoneSavedWhenAllNegative(accuracies[..k]);
      assert accuracies[k] in accuracies;
    }
  }

  /** What `torch.save` writes to model_best.pt: the model and optimizer state, and the epoch. */
  datatype Checkpoint = Checkpoint(history: seq<Event>, epoch: nat)

  /** Sum over the first `n` epochs of the optimizer steps of each epoch's pass. */
  function CurriculumSteps(loaderBatches: seq<nat>, steps: nat, n: nat): nat
    requires |loaderBatches| == NumBuckets && steps >= 1
  {
    if n == 0 then 0
    else CurriculumSteps(loaderBatches, steps, n - 1) + loaderBatches[BucketForEpoch(n - 1)] / steps
  }

  /** The dev loader's batches: the model's logits for each batch, zipped with its fixed labels. */
  function DevBatches(logits: seq<seq<seq<real>>>, labels: seq<seq<int>>): seq<EvalBatch>
    requires |logits| == |labels|
  {
    seq(|labels|, i requires 0 <= i < |labels| => EvalBatch(logits[i], labels[i]))
  }

  /** The logits the model gives for the dev set fit its labels, batch by batch. */
  predicate DevShaped(logits: seq<seq<seq<real>>>, labels: seq<seq<int>>)
  {
    |logits| == |labels| && forall b <- DevBatches(logits, labels) :: BatchShaped(b)
  }

  /**
   * The model's history after the first `e` epochs of the curriculum, starting
   * from `h0`: each epoch appends the calls of one pass over its scheduled
   * bucket's loader.
   */
  function EpochHistory(h0: seq<Event>, loaderBatches: seq<nat>, steps: nat, e: nat): (r: seq<Event>)
    requires |loaderBatches| == NumBuckets && steps >= 1
    ensures h0 <= r
  {
    if e == 0 then h0
    else EpochHistory(h0, loaderBatches, steps, e - 1) + PassEvents(loaderBatches[BucketForEpoch(e - 1)], steps)
  }

  /** The number of batches whose gradients are still accumulated after the first `e` epochs. */
  function PendingAfter(p0: nat, loaderBatches: seq<nat>, steps: nat, e: nat): nat
    requires |loaderBatches| == NumBuckets && steps >= 1
  {
    if e == 0 then p0
    else
      var n := loaderBatches[BucketForEpoch(e - 1)];
      if n < steps then PendingAfter(p0, loaderBatches, steps, e - 1) + n else n % steps
  }

  /** The dev accuracy of the model whose history is `h` (lines 711-740). */
  function DevAccuracy(devLogits: seq<Event> -> seq<seq<seq<real>>>, devLabels: seq<seq<int>>, h: seq<Event>): (r: real)
    ensures 0.0 <= r <= 1.0
  {
    if |devLogits(h)| == |devLabels| then PassAccuracy(DevBatches(devLogits(h), devLabels)) else 0.0
  }

  /** The dev accuracy as a function of the model's history. */
  function DevAccuracyOf(devLogits: seq<Event> -> seq<seq<seq<real>>>, devLabels: seq<seq<int>>): (f: seq<Event> -> real)
    ensures forall h :: f(h) == DevAccuracy(devLogits, devLabels, h)
  {
    h => DevAccuracy(devLogits, devLabels, h)
  }

  /**
   * The optimizer steps of the curriculum are the optimizer steps recorded in
   * the model's history: `global_step` counts exactly the `optimizer.step()`
   * calls of all epochs.
   */
  lemma {:induction false} EpochHistorySteps(h0: seq<Event>, loaderBatches: seq<nat>, steps: nat, e: nat)
    requires |loaderBatches| == NumBuckets && steps >= 1
    ensures Count(EpochHistory(h0, loaderBatches, steps, e), OptimizerStep)
            == Count(h0, OptimizerStep) + CurriculumSteps(loaderBatches, steps, e)
  {
    if e > 0 {
      EpochHistorySteps(h0, loaderBatches, steps, e - 1);
      var n := loaderBatches[BucketForEpoch(e - 1)];
      CountAppend(EpochHistory(h0, loaderBatches, steps, e - 1), PassEvents(n, steps), OptimizerStep);
      PassCount(n, steps, OptimizerStep);
    }
  }

  /**
   * The dev accuracies of the first `e` epochs, in epoch order: epoch `i` is
   * measured on the model after the passes of epochs `0..i`. `accuracyOf`
   * gives the dev accuracy of a model from its history.
   */
  function EpochAccuracies(h0: seq<Event>, loaderBatches: seq<nat>, steps: nat,
                           accuracyOf: seq<Event> -> real, e: nat): (r: seq<real>)
    requires |loaderBatches| == NumBuckets && steps >= 1
    ensures |r| == e
    ensures forall i | 0 <= i < e :: r[i] == accuracyOf(EpochHistory(h0, loaderBatches, steps, i + 1))
  {
    if e == 0 then []
    else EpochAccuracies(h0, loaderBatches, steps, accuracyOf, e - 1)
         + [accuracyOf(EpochHistory(h0, loaderBatches, steps, e))]
  }

  /** The fields of a run as values: model history, accumulated batches, `global_step`, best, checkpoint. */
  datatype RunState = RunState(history: seq<Event>, pending: nat, globalStep: nat,
                               bestAccuracy: real, saved: Option<Checkpoint>)

  /**
   * One epoch of lines 661-764 on the run's values: a pass over the scheduled
   * bucket, the dev accuracy of the resulting model, and the `>=` decision.
   */
  function EpochStep(s: RunState, epoch: nat, loaderBatches: seq<nat>, steps: nat,
                     accuracyOf: seq<Event> -> real): RunState
    requires |loaderBatches| == NumBuckets && steps >= 1
  {
    var n := loaderBatches[BucketForEpoch(epoch)];
    var h := s.history + PassEvents(n, steps);
    var acc := accuracyOf(h);
    RunState(h, if n < steps then s.pending + n else n % steps, s.globalStep + n / steps,
             if acc >= s.bestAccuracy then acc else s.bestAccuracy,
             if acc >= s.bestAccuracy then Some(Checkpoint(h, epoch)) else s.saved)
  }

  /**
   * The run's values after the first `e` epochs started with
   * `best_accuracy = 0`: the model has trained on the scheduled buckets in
   * order; the accumulated batches and `global_step` follow the passes; the
   * best accuracy is the best of the epochs' dev accuracies; and once a
   * checkpoint is written, it names the last epoch attaining the best and holds
   * the model exactly as it was after that epoch's pass.
   */
  function CurriculumState(s0: RunState, loaderBatches: seq<nat>, steps: nat,
                           accuracyOf: seq<Event> -> real, e: nat): RunState
    requires |loaderBatches| == NumBuckets && steps >= 1
  {
    var accuracies := EpochAccuracies(s0.history, loaderBatches, steps, accuracyOf, e);
    var k := SavedEpochOf(accuracies);
    RunState(EpochHistory(s0.history, loaderBatches, steps, e),
             PendingAfter(s0.pending, loaderBatches, steps, e),
             s0.globalStep + CurriculumSteps(loaderBatches, steps, e),
             BestOf(accuracies),
             if k.None? then s0.saved
             else Some(Checkpoint(EpochHistory(s0.history, loaderBatches, steps, k.value + 1), k.value)))
  }

  /** One epoch's pass extends the history, the accumulated batches and `global_step` from `e` epochs to `e + 1`. */
  lemma EpochStepProgress(s0: RunState, loaderBatches: seq<nat>, steps: nat,
                          accuracyOf: seq<Event> -> real, e: nat)
    requires |loaderBatches| == NumBuckets && steps >= 1
    ensures var u := EpochStep(CurriculumState(s0, loaderBatches, steps, accuracyOf, e), e, loaderBatches, steps, accuracyOf);
            var t := CurriculumState(s0, loaderBatches, steps, accuracyOf, e + 1);
            u.history == t.history && u.pending == t.pending && u.globalStep == t.globalStep
  {
  }

  /** One epoch's decision extends the best accuracy and the checkpoint from `e` epochs to `e + 1`. */
  lemma EpochStepDecision(s0: RunState, loaderBatches: seq<nat>, steps: nat,
                          accuracyOf: seq<Event> -> real, e: nat)
    requires |loaderBatches| == NumBuckets && steps >= 1
    ensures var u := EpochStep(CurriculumState(s0, loaderBatches, steps, accuracyOf, e), e, loaderBatches, steps, accuracyOf);
            var t := CurriculumState(s0, loaderBatches, steps, accuracyOf, e + 1);
            u.bestAccuracy == t.bestAccuracy && u.saved == t.saved
  {
    var before := EpochAccuracies(s0.history, loaderBatches, steps, accuracyOf, e);
    var h := EpochHistory(s0.history, loaderBatches, steps, e + 1);
    assert EpochAccuracies(s0.history, loaderBatches, steps, accuracyOf, e + 1) == before + [accuracyOf(h)];
    BestOfAppend(before, accuracyOf(h));
  }

  /** One epoch of the loop takes the run from its state after `e` epochs to its state after `e + 1`. */
  lemma EpochStepAdvances(s0: RunState, loaderBatches: seq<nat>, steps: nat,
                          accuracyOf: seq<Event> -> real, e: nat)
    requires |loaderBatches| == NumBuckets && steps >= 1
    ensures EpochStep(CurriculumState(s0, loaderBatches, steps, accuracyOf, e), e, loaderBatches, steps, accuracyOf)
            == CurriculumState(s0, loaderBatches, steps, accuracyOf, e + 1)
  {
    EpochStepProgress(s0, loaderBatches, steps, accuracyOf, e);
    EpochStepDecision(s0, loaderBatches, steps, accuracyOf, e);
  }

  /**
   * After at least one epoch with accuracies in [0, 1]: every epoch's accuracy
   * is in [0, 1] and at most the best; a checkpoint is on disk; it names the
   * last epoch attaining the best accuracy and holds the model as it was after
   * that epoch's pass.
   */
  lemma CurriculumOutcome(s0: RunState, loaderBatches: seq<nat>, steps: nat,
                          accuracyOf: seq<Event> -> real, e: nat)
    requires |loaderBatches| == NumBuckets && steps >= 1 && e > 0
    requires forall h :: 0.0 <= accuracyOf(h) <= 1.0
    ensures var s := CurriculumState(s0, loaderBatches, steps, accuracyOf, e);
            var accuracies := EpochAccuracies(s0.history, loaderBatches, steps, accuracyOf, e);
            (forall a <- accuracies :: 0.0 <= a <= s.bestAccuracy <= 1.0)
            && s.saved.Some? && s.saved.value.epoch < e
            && accuracies[s.saved.value.epoch] == s.bestAccuracy
            && (forall k | s.saved.value.epoch < k < e :: accuracies[k] < s.bestAccuracy)
            && s.saved.value.history == EpochHistory(s0.history, loaderBatches, steps, s.saved.value.epoch + 1)
  {
    var accuracies := EpochAccuracies(s0.history, loaderBatches, steps, accuracyOf, e);
    assert forall a <- accuracies :: 0.0 <= a <= 1.0;
    assert accuracies[0] in accuracies;
    SavedIsLastBest(accuracies);
    BestOfIsMax(accuracies);
  }

  /**
   * The mutable state of the run: the live model and optimizer (as the history
   * of calls made on them), the gradients accumulated since the last
   * `zero_grad`, `global_step`, `best_accuracy`, and model_best.pt.
   */
  class Trainer {
    const gradientAccumulationSteps: nat
    var history: seq<Event>
    var pending: nat
    var globalStep: nat
    var bestAccuracy: real
    var saved: Option<Checkpoint>

    ghost predicate Valid()
      reads this
    {
      gradientAccumulationSteps >= 1
    }

    /** The fields of the run as one value. */
    ghost function State(): RunState
      reads this
    {
      RunState(history, pending, globalStep, bestAccuracy, saved)
    }

    /** A fresh model and optimizer, `global_step = 0` (line 587), nothing saved yet. */
    constructor (config: Config)
      requires config.gradientAccumulationSteps >= 1
      ensures Valid() && gradientAccumulationSteps == config.gradientAccumulationSteps
      ensures history == [] && pending == 0 && globalStep == 0
      ensures bestAccuracy == 0.0 && saved == None
    {
      gradientAccumulationSteps := config.gradientAccumulationSteps;
      history := [];
      pending := 0;
      globalStep := 0;
      bestAccuracy := 0.0;
      saved := None;
    }

    /**
     * Lines 682-697: one pass over `numBatches` batches. `global_step` grows by
     * `numBatches / steps`; the gradients of the last `numBatches % steps`
     * batches are still accumulated afterwards, and when the pass is shorter
     * than `steps` they add to those left by the previous pass.
     */
    method TrainPass(numBatches: nat)
      requires Valid()
      modifies this
      ensures Valid()
      ensures history == old(history) + PassEvents(numBatches, gradientAccumulationSteps)
      ensures globalStep == old(globalStep) + numBatches / gradientAccumulationSteps
      ensures pending == if numBatches < gradientAccumulationSteps then old(pending) + numBatches
                         else numBatches % gradientAccumulationSteps
      ensures bestAccuracy == old(bestAccuracy) && saved == old(saved)
    {
      var steps := gradientAccumulationSteps;
      DivModUnique(0, steps, 0, 0);
      for step := 0 to numBatches
        invariant history == old(history) + PassEvents(step, steps)
        invariant globalStep == old(globalStep) + step / steps
        invariant pending == if step < steps then old(pending) + step else step % steps
        invariant bestAccuracy == old(bestAccuracy) && saved == old(saved)
      {
        DivModNext(step, steps);
        if step + 1 < steps {
          DivModUnique(step, steps, 0, step);
        }
        if step + 1 == steps {
          DivModUnique(step, steps, 0, step);
        }
        history := history + [Backward];
        pending := pending + 1;
        if (step + 1) % steps == 0 {
          history := history + [OptimizerStep];
          history := history + [ZeroGrad];
          pending := 0;
          globalStep := globalStep + 1;
        }
      }
    }

    /**
     * Lines 761-764: the checkpoint is written and the best accuracy raised
     * exactly when this epoch's accuracy is at least the best so far.
     */
    method Decide(epoch: nat, evalAccuracy: real)
      modifies this
      ensures bestAccuracy == if evalAccuracy >= old(bestAccuracy) then evalAccuracy else old(bestAccuracy)
      ensures saved == if evalAccuracy >= old(bestAccuracy) then Some(Checkpoint(history, epoch)) else old(saved)
      ensures history == old(history) && pending == old(pending) && globalStep == old(globalStep)
    {
      if evalAccuracy >= bestAccuracy {
        saved := Some(Checkpoint(history, epoch));
        bestAccuracy := evalAccuracy;
      }
    }

    /**
     * Lines 769-772: the model and optimizer are loaded from the checkpoint and
     * its epoch is read back. Accumulated gradients and `global_step` are not
     * part of the checkpoint and stay as they are.
     */
    method ReloadBest() returns (epoch: nat)
      requires saved.Some?
      modifies this
      ensures history == old(saved.value.history) && epoch == old(saved.value.epoch)
      ensures pending == old(pending) && globalStep == old(globalStep)
      ensures bestAccuracy == old(bestAccuracy) && saved == old(saved)
    {
      history := saved.value.history;
      epoch := saved.value.epoch;
    }

    /**
     * Lines 661-764, the body of the epoch loop: train one pass over the
     * scheduled bucket, evaluate the trained model on the dev set, and decide
     * on the checkpoint. An empty dev set is the ZeroDivisionError at line 739,
     * raised before the checkpoint decision.
     */
    method RunEpoch(epoch: nat, loaderBatches: seq<nat>, devLabels: seq<seq<int>>,
                    devLogits: seq<Event> -> seq<seq<seq<real>>>)
      returns (result: Result<real, EvalError>)
      requires Valid() && |loaderBatches| == NumBuckets
      requires forall h :: DevShaped(devLogits(h), devLabels)
      modifies this
      ensures Valid()
      ensures history == old(history) + PassEvents(loaderBatches[BucketForEpoch(epoch)], gradientAccumulationSteps)
      ensures globalStep == old(globalStep) + loaderBatches[BucketForEpoch(epoch)] / gradientAccumulationSteps
      ensures var n := loaderBatches[BucketForEpoch(epoch)];
              pending == if n < gradientAccumulationSteps then old(pending) + n else n % gradientAccumulationSteps
      ensures result.Err? <==> devLabels == []
      ensures result.Err? ==> bestAccuracy == old(bestAccuracy) && saved == old(saved)
      ensures result.Ok? ==>
                devLabels != []
                && result.value == DevAccuracy(devLogits, devLabels, history)
                && 0.0 <= result.value <= 1.0
                && bestAccuracy == (if result.value >= old(bestAccuracy) then result.value else old(bestAccuracy))
                && saved == (if result.value >= old(bestAccuracy) then Some(Checkpoint(history, epoch)) else old(saved))
    {
      TrainPass(loaderBatches[BucketForEpoch(epoch)]);
      var logits := devLogits(history);
      assert DevShaped(logits, devLabels);
      result := EvaluatePass(DevBatches(logits, devLabels));
      if result.Ok? {
        Decide(epoch, result.value);
      }
    }

    /**
     * One iteration of the epoch loop, started from the run's state after
     * `epoch` epochs: on success the run is in its state after `epoch + 1`
     * epochs, and the returned accuracy is that of the model after this pass.
     */
    method AdvanceEpoch(epoch: nat, loaderBatches: seq<nat>, devLabels: seq<seq<int>>,
                        devLogits: seq<Event> -> seq<seq<seq<real>>>, ghost s0: RunState)
      returns (result: Result<real, EvalError>)
      requires Valid() && |loaderBatches| == NumBuckets
      requires forall h :: DevShaped(devLogits(h), devLabels)
      requires State() == CurriculumState(s0, loaderBatches, gradientAccumulationSteps,
                                          DevAccuracyOf(devLogits, devLabels), epoch)
      modifies this
      ensures Valid()
      ensures result.Err? <==> devLabels == []
      ensures result.Err? ==>
                history == old(history) + PassEvents(loaderBatches[BucketForEpoch(epoch)], gradientAccumulationSteps)
                && globalStep == old(globalStep) + loaderBatches[BucketForEpoch(epoch)] / gradientAccumulationSteps
                && (var n := loaderBatches[BucketForEpoch(epoch)];
                    pending == if n < gradientAccumulationSteps then old(pending) + n else n % gradientAccumulationSteps)
                && bestAccuracy == old(bestAccuracy) && saved == old(saved)
      ensures result.Ok? ==>
                State() == CurriculumState(s0, loaderBatches, gradientAccumulationSteps,
                                           DevAccuracyOf(devLogits, devLabels), epoch + 1)
                && result.value == DevAccuracy(devLogits, devLabels,
                                               EpochHistory(s0.history, loaderBatches, gradientAccumulationSteps, epoch + 1))
    {
      EpochStepAdvances(s0, loaderBatches, gradientAccumulationSteps, DevAccuracyOf(devLogits, devLabels), epoch);
      result := RunEpoch(epoch, loaderBatches, devLabels, devLogits);
    }

    /**
     * Lines 659-764: `best_accuracy = 0`, then for each of the 13 epochs train
     * one pass over the scheduled bucket's loader, evaluate on the dev set and
     * decide on the checkpoint. The dev logits depend on the model, so they are
     * given as a function of its history; the dev labels are fixed. Returns the
     * per-epoch dev accuracies, or the ZeroDivisionError of an empty dev set,
     * which ends the run after the first pass. The live model is the one of the
     * last epoch; the checkpoint holds the model of the epoch it names.
     */
    method RunCurriculum(loaderBatches: seq<nat>, devLabels: seq<seq<int>>,
                         devLogits: seq<Event> -> seq<seq<seq<real>>>)
      returns (status: Result<seq<real>, EvalError>)
      requires Valid() && |loaderBatches| == NumBuckets
      requires forall h :: DevShaped(devLogits(h), devLabels)
      modifies this
      ensures Valid()
      ensures status.Err? <==> devLabels == []
      ensures status.Err? ==>
                history == EpochHistory(old(history), loaderBatches, gradientAccumulationSteps, 1)
                && pending == PendingAfter(old(pending), loaderBatches, gradientAccumulationSteps, 1)
                && globalStep == old(globalStep) + CurriculumSteps(loaderBatches, gradientAccumulationSteps, 1)
                && bestAccuracy == 0.0 && saved == old(saved)
      ensures status.Ok? ==>
                State() == CurriculumState(RunState(old(history), old(pending), old(globalStep), 0.0, old(saved)),
                                           loaderBatches, gradientAccumulationSteps,
                                           DevAccuracyOf(devLogits, devLabels), NumEpochs)
                && status.value == EpochAccuracies(old(history), loaderBatches, gradientAccumulationSteps,
                                                   DevAccuracyOf(devLogits, devLabels), NumEpochs)
      ensures status.Ok? ==>
                |status.value| == NumEpochs
                && (forall e | 0 <= e < NumEpochs ::
                      status.value[e] == DevAccuracy(devLogits, devLabels,
                                                     EpochHistory(old(history), loaderBatches, gradientAccumulationSteps, e + 1)))
                && history == EpochHistory(old(history), loaderBatches, gradientAccumulationSteps, NumEpochs)
                && pending == PendingAfter(old(pending), loaderBatches, gradientAccumulationSteps, NumEpochs)
                && globalStep == old(globalStep) + CurriculumSteps(loaderBatches, gradientAccumulationSteps, NumEpochs)
                && bestAccuracy == BestOf(status.value)
                && (forall a <- status.value :: 0.0 <= a <= bestAccuracy <= 1.0)
                && saved.Some? && saved.value.epoch < NumEpochs
                && status.value[saved.value.epoch] == bestAccuracy
                && (forall k | saved.value.epoch < k < NumEpochs :: status.value[k] < bestAccuracy)
                && saved.value.history
                   == EpochHistory(old(history), loaderBatches, gradientAccumulationSteps, saved.value.epoch + 1)
    {
      bestAccuracy := 0.0;
      ghost var s0 := State();
      ghost var accuracyOf := DevAccuracyOf(devLogits, devLabels);
      var steps := gradientAccumulationSteps;
      var accuracies: seq<real> := [];
      for epoch := 0 to NumEpochs
        invariant Valid() && steps == gradientAccumulationSteps
        invariant epoch > 0 ==> devLabels != []
        invariant State() == CurriculumState(s0, loaderBatches, steps, accuracyOf, epoch)
        invariant accuracies == EpochAccuracies(s0.history, loaderBatches, steps, accuracyOf, epoch)
      {
        var result := AdvanceEpoch(epoch, loaderBatches, devLabels, devLogits, s0);
        if result.Err? {
          return Err(result.error);
        }
        accuracies := accuracies + [result.value];
      }
      CurriculumOutcome(s0, loaderBatches, steps, accuracyOf, NumEpochs);
      status := Ok(accuracies);
    }
  }
}
