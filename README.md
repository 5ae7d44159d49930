# Curriculum fine-tuning for C3 multiple-choice reading comprehension, in Dafny

This project models the data path and the training bookkeeping of
`run_classifier.py`, a BERT fine-tuning script for 4-way multiple-choice
questions (the C3 corpus) that trains on six difficulty buckets in a
curriculum. The model and its proofs cover:

- **Record flattening.** Each question of a passage becomes one record,
  `[context, question, choice0..choice3, answer]`, with missing choices
  padded with `""`.
- **Example creation.** Each record yields four examples, one per choice,
  and all four share the label the answer scan leaves behind.
- **Greedy truncation.** The three token lists of an example are
  shortened in place, always popping from the longest list.
- **Feature assembly.** Builds `[CLS] context [SEP] question [SEP] choice [SEP]`,
  with ids, mask and segment ids zero-padded to `max_seq_length`, and
  groups the features by four.
- **Row building.** Each group of four features becomes one data-loader
  row.
- **Cumulative buckets.** Bucket k becomes its own groups followed by all
  of bucket k-1, through five in-place `extend`s.
- **Epoch schedule.** Epoch e trains on bucket `min(e // 2, 5)`.
- **Training loop.**
  - Rejects a gradient accumulation step count below one.
  - Counts optimizer steps under gradient accumulation.
  - Computes the per-epoch dev accuracy.
  - Keeps the best checkpoint with `>=`.
  - Reloads the best checkpoint at the end.

The files:

- `common.dfy`: `Option`, `Result`, and flattening a list of groups.
- `examples.dfy`: record flattening and `_create_examples`.
- `truncation.dfy`: a `TokenList` class (a Python list popped in place)
  and `_truncate_seq_tuple`.
- `features.dfy`: `convert_examples_to_features` and the row building of
  `feature2dataloader`.
- `buckets.dfy`: the bucket `extend`s on an array of six buckets.
- `schedule.dfy`: the epoch-to-bucket schedule.
- `metrics.dfy`: `np.argmax` and `accuracy`.
- `training.dfy`: the accumulation check, the accumulation trace,
  evaluation, and a `Trainer` class holding the mutable state of `main`.
  That state is the model and optimizer, `global_step`, `best_accuracy`
  and `model_best.pt`.

The tokenizer and the vocabulary are function parameters. So are the dev
logits, given as a function of the model's history of calls, because the
model is opaque. The model and optimizer themselves appear only as the
calls made on them: `Backward`, `OptimizerStep` and `ZeroGrad`. A
checkpoint stores that history together with the epoch.

Behaviour of the code that the model keeps:

- **Token order.** Line 220 builds `tokens_c + [SEP] + tokens_b`, and the
  caller passes the question as `tokens_c` and the choice as `tokens_b`. The
  layout is therefore `[CLS] context [SEP] question [SEP] choice [SEP]`.
- **Truncation ties.** Lines 294-299 break ties in favour of `tokens_a`,
  then `tokens_b`, then `tokens_c`. At the call site those are context,
  choice and question, in that order.
- **Short last group.** A trailing group of fewer than four features is
  kept; only an empty one is dropped (lines 276-277).
- **Unmatched answers.** No error is raised for an answer that matches no
  choice:
  - The scan at lines 184-186 has no `break`, so the last matching slot
    wins.
  - A record without a match reuses the previous record's label (line 188).
  - Only a first record without a match fails, with UnboundLocalError.
    This is a precondition here.
- **Small `max_seq_length`.** A value below 4 makes the truncation budget
  of line 218 negative, and `pop()` at line 295 then fails on an empty
  list. The model requires `maxSeqLength >= 4`.

## Model

| member | source | states |
|---|---|---|
| Examples.JoinLines | run_classifier.py:129 | `'\n'.join(lines)`: the context lines joined with a newline between consecutive lines |
| Examples.RecordOf | run_classifier.py:129-135 | a record is context, question, every choice in order, `""` in each empty slot up to four, then the answer last |
| Examples.FlattenQuestion | run_classifier.py:129-135 | the loop-built record of one question equals `RecordOf` |
| Examples.FlattenCorpus | run_classifier.py:127-135 | the nested loops produce the records of every passage's questions, in order |
| Examples.PassageRecords | run_classifier.py:128-135 | by definition, the records of the first `j` questions of a passage, in question order, each `RecordOf` the joined context and that question |
| Examples.CorpusRecords | run_classifier.py:127-135 | by definition, the records of a corpus, passage by passage |
| Examples.CorpusRecordsCount | run_classifier.py:127-135 | a corpus yields exactly one record per question |
| Examples.PassageRecordsCount | run_classifier.py:128-135 | a passage yields one record per question |
| Examples.PassageRecordsSeven | run_classifier.py:129-135 | with at most four choices every record has seven fields and field 6 is the answer |
| Examples.LastMatchBelow | run_classifier.py:184-186 | the result is a matching slot below `k` with no later matching slot below `k`; None exactly when no slot below `k` matches |
| Examples.LastMatch | run_classifier.py:184-186 | by definition, the last of the four choice slots whose text equals the answer field, or None |
| Examples.LabelAt | run_classifier.py:183-188 | `answer` after record `i` is that record's last matching slot, or else the value left by the previous records; a bound label is a slot index below 4 |
| Examples.LabelAtNone | run_classifier.py:183-188 | `answer` is unbound after record `i` exactly when no record up to `i` has a matching slot |
| Examples.LabelAtIsLatestMatch | run_classifier.py:183-188 | a bound `answer` is the last matching slot of the latest matching record at or before `i`, and no later record up to `i` matches |
| Examples.LabelBound | run_classifier.py:183-188 | once record 0 matches, `answer` is bound after every record |
| Examples.Decimal | run_classifier.py:191 | by definition, `str(n)`: the decimal digits of `n`, most significant first |
| Examples.Guid | run_classifier.py:191 | by definition, the guid `<set>-<i>-<k>` |
| Examples.RecordExamples | run_classifier.py:190-196 | by definition, the four examples of record `i`: guid, context, choice `k`, question and the shared label |
| Examples.ExpectedExamples | run_classifier.py:180-198 | by definition, the examples of the first `n` records in record order, each record labelled with `answer` as left after it |
| Examples.CreateExamples | run_classifier.py:180-198 | the loop's output equals `ExpectedExamples`: four examples per record, in record order |
| Examples.ExampleAt | run_classifier.py:190-196 | there are `4n` examples, and example `4i+k` has guid `<set>-<i>-<k>`, record `i`'s context as text_a, choice `k` as text_b, the question as text_c, and `answer` after record `i` as its label |
| Examples.ExamplesCount | run_classifier.py:183-196 | `n` records yield exactly `4n` examples |
| Truncation.TokenList.Pop | run_classifier.py:294-299 | `pop()` removes exactly the last token and returns it |
| Truncation.PopLongest | run_classifier.py:293-299 | one pass removes exactly one token, from the end of a longest list, preferring a, then b, then c |
| Truncation.Truncated | run_classifier.py:288-299 | each result is a prefix of its input, the total becomes `min(total, max_length)`, and input that fits is unchanged |
| Truncation.PopKeepsBalanced | run_classifier.py:293-299 | a pass keeps the lists prefixes of the originals and keeps the greedy balanced shape |
| Truncation.TruncatedFrom | run_classifier.py:288-299 | the loop run from any balanced state ends balanced |
| Truncation.TruncatedBalanced | run_classifier.py:288-299 | the greedy result has the balanced shape with respect to its input |
| Truncation.BalancedUnique | run_classifier.py:288-299 | two balanced prefix triples of the same total are equal |
| Truncation.TruncatedCharacterized | run_classifier.py:283-299 | a triple is the greedy result if and only if it is a balanced triple of prefixes with total `min(total, max_length)` |
| Truncation.TruncateSeqTuple | run_classifier.py:283-299 | the in-place loop over three distinct lists leaves exactly `Truncated` of the old contents |
| Features.Tokenized | run_classifier.py:212-218 | by definition, the three tokenised texts after greedy truncation to `max_seq_length - 4` tokens |
| Features.Layout | run_classifier.py:220-237 | by definition, `[CLS] a [SEP] c [SEP] b [SEP]`, the order of line 220 |
| Features.TokensToIds | run_classifier.py:239 | by definition, the vocabulary id of each token, in order |
| Features.FeatureOf | run_classifier.py:218-253 | the feature of one example: all three vectors have length `max_seq_length`, and the label is the example's |
| Features.FeatureOfLayout | run_classifier.py:218-253 | all three vectors have length `max_seq_length`; ids are the real-token ids then zeros; the mask is 1 exactly on real tokens; segment ids are 1 from the question through the last `[SEP]` and 0 elsewhere; the label is the example's |
| Features.RealTokenCount | run_classifier.py:218-241 | the real tokens are the truncated lists plus four specials, and number `min(untruncated + 4, max_seq_length)` |
| Features.FeatureUnique | run_classifier.py:218-253 | that layout determines the feature completely |
| Features.AssembleTokens | run_classifier.py:220-237 | the token-by-token loops build `[CLS] a [SEP] question [SEP] choice [SEP]`, with segment id 1 exactly from the question on |
| Features.ConvertExample | run_classifier.py:211-266 | tokenising, truncating in place, assembling, converting and padding one example yields `FeatureOf` |
| Features.ConvertExamplesToFeatures | run_classifier.py:201-279 | the flattened groups are the examples' features in order; each group has 1 to 4 features; all but the last have 4; a multiple of four gives only full groups |
| Features.PushFeature | run_classifier.py:267-274 | appending one feature keeps all groups but the last full and the last open, adds exactly that feature at the end of the flattened groups, and grows the count by one |
| Features.DropEmptyLast | run_classifier.py:276-277 | dropping an empty last group keeps every feature, leaves no empty group, and leaves only full groups when the feature count is a multiple of four |
| Features.ConcatFullGroups | run_classifier.py:267-277 | in full groups, feature `j` is member `j % 4` of group `j / 4` |
| Features.BuildRow | run_classifier.py:333-341 | the row of one group holds its four features' id, mask and segment vectors in order, labelled with the first feature's label |
| Features.BuildRows | run_classifier.py:328-341 | one row per group, in group order, each the row of its group |
| Features.RecordFeatures | run_classifier.py:180-279 | group `i` holds, in slot order, the features of record `i`'s four choices, each labelled with `answer` after record `i` |
| Buckets.Cumulative | run_classifier.py:630-634 | bucket `k` after the extends starts with its own groups |
| Buckets.ExtendBuckets | run_classifier.py:630-634 | after the five extends, bucket `k` is `raw_k ++ bucket_{k-1}` and bucket 0 is unchanged |
| Buckets.CumulativeSize | run_classifier.py:630-634 | bucket `k` has `|raw_0| + ... + |raw_k|` groups |
| Buckets.CumulativeSuffix | run_classifier.py:630-634 | an easier bucket is a suffix of every harder one |
| Buckets.CumulativeMembers | run_classifier.py:630-634 | a group is in bucket `k` if and only if it is new in some bucket `i <= k` |
| Buckets.LastBucketHoldsAll | run_classifier.py:630-634 | bucket 5 contains every group of every bucket |
| Schedule.BucketForEpoch | run_classifier.py:662-665 | the bucket lies in 0..5, and bucket `j < 5` is used only in epochs `2j` and `2j+1` |
| Schedule.BucketMonotone | run_classifier.py:662-665 | the bucket index never decreases from epoch to epoch |
| Schedule.EpochsOfBucket | run_classifier.py:661-665 | over the 13 epochs, bucket `k < 5` is used exactly in epochs `2k` and `2k+1`, and bucket 5 in epochs 10-12 |
| Metrics.Argmax | run_classifier.py:303 | the result holds the row's maximum and is its first position |
| Metrics.Accuracy | run_classifier.py:302-304 | the count of correct rows never exceeds the number of labels |
| Metrics.AccuracyAppend | run_classifier.py:731-736 | correct counts of consecutive batches add up |
| Metrics.AccuracyAll | run_classifier.py:302-304 | every row is counted if and only if every argmax equals its label |
| Metrics.AccuracyNone | run_classifier.py:302-304 | no row is counted if and only if no argmax equals its label |
| Training.CheckAccumulation | run_classifier.py:483-487 | a step count below one is an error carrying that count; otherwise the batch size is divided by it with floor division |
| Training.BatchEvents | run_classifier.py:690-697 | by definition, the calls of batch `step`: `backward`, then `optimizer.step()` and `zero_grad()` exactly when `(step + 1) % gas == 0` |
| Training.PassEvents | run_classifier.py:682-697 | by definition, the calls of a pass over `n` batches, batch by batch |
| Training.PassCount | run_classifier.py:690-697 | in a pass over `n` batches each batch adds one backward call, and the optimizer-step and zero-grad counts are `n / gas` |
| Training.PassCounts | run_classifier.py:682-697 | a pass over `n` batches calls backward `n` times and steps the optimizer and zeroes the gradients `n / gas` times each |
| Training.ZeroGradOnlyAfterStep | run_classifier.py:690-697 | gradients are zeroed exactly right after an optimizer step, and every step is followed by zeroing |
| Training.PassAccuracy | run_classifier.py:711-740 | the accuracy of one evaluation pass lies in [0, 1] |
| Training.DevAccuracy | run_classifier.py:710-740 | the dev accuracy of the model with a given history lies in [0, 1] |
| Training.AllLogits | run_classifier.py:726-727 | by definition, the logits of all dev batches concatenated in batch order |
| Training.AllLabels | run_classifier.py:728-729 | by definition, the labels of all dev batches concatenated in batch order |
| Training.DevBatches | run_classifier.py:715 | by definition, the dev batches pairing each batch's logits with its labels |
| Training.EvaluatePass | run_classifier.py:711-740 | an empty dev set is the division-by-zero error; otherwise the result is the accuracy count over all dev rows divided by the row count, equals `PassAccuracy`, and lies in [0, 1] |
| Training.BestOf | run_classifier.py:659-764 | the best accuracy after a sequence of epochs, starting from `best_accuracy = 0`, is never negative |
| Training.SavedEpochOf | run_classifier.py:761-764 | the epoch whose checkpoint is on disk, if any, is one of the epochs run |
| Training.BestOfAppend | run_classifier.py:761-764 | one more epoch becomes the best, and its checkpoint the one on disk, exactly when its accuracy is `>=` the best so far |
| Training.BestOfIsMax | run_classifier.py:659-764 | the best accuracy is the maximum of 0 and all epochs' accuracies |
| Training.BestOfGrows | run_classifier.py:761-764 | the best accuracy never decreases |
| Training.SavedIsLastBest | run_classifier.py:659-764 | once some epoch's accuracy is not negative a checkpoint is written, and the one kept is the last epoch attaining the best accuracy |
| Training.NoneSavedWhenAllNegative | run_classifier.py:659-764 | when every epoch's accuracy is negative, `>=` never holds against the initial 0, so no checkpoint is written and the best stays 0 |
| Training.EpochHistory | run_classifier.py:662-697 | the model's history after `e` epochs extends the history it started with, by the passes over the scheduled buckets |
| Training.PendingAfter | run_classifier.py:682-697 | by definition, the batches whose gradients are still accumulated after `e` epochs: a pass of `n < gas` batches adds to them, a longer one leaves `n % gas` |
| Training.CurriculumSteps | run_classifier.py:682-697 | by definition, the sum over the first `e` epochs of each pass's `n / gas` optimizer steps |
| Training.EpochHistorySteps | run_classifier.py:682-697 | the optimizer steps recorded in the model's history after `e` epochs are those of the start plus the sum of the passes' `n / gas` steps |
| Training.EpochAccuracies | run_classifier.py:662-740 | there is one accuracy per epoch, and epoch `i`'s is the dev accuracy of the model after the passes of epochs `0..i` |
| Training.EpochStep | run_classifier.py:661-764 | by definition, one epoch on the run's values: the pass over the scheduled bucket, the dev accuracy of the resulting model, and the `>=` decision |
| Training.CurriculumState | run_classifier.py:659-764 | by definition, the run's values after `e` epochs in closed form: `EpochHistory`, `PendingAfter`, `CurriculumSteps`, `BestOf` of the accuracies, and the checkpoint of `SavedEpochOf` |
| Training.EpochStepProgress | run_classifier.py:682-697 | one epoch's pass takes the history, the accumulated batches and `global_step` from their values after `e` epochs to those after `e + 1` |
| Training.EpochStepDecision | run_classifier.py:761-764 | one epoch's `>=` decision takes the best accuracy and the checkpoint from their values after `e` epochs to those after `e + 1` |
| Training.EpochStepAdvances | run_classifier.py:662-764 | one iteration of the epoch loop takes the run from its state after `e` epochs to its state after `e + 1` |
| Training.CurriculumOutcome | run_classifier.py:659-772 | after at least one epoch with accuracies in [0, 1], a checkpoint is on disk; it names the last epoch attaining the best accuracy, the best bounds every epoch's accuracy, and the checkpoint holds the model as it was after that epoch's pass |
| Training.Trainer.constructor | run_classifier.py:587 | a run starts with `global_step = 0` and no accumulated gradients; it assumes a fresh output directory, so nothing is saved yet |
| Training.Trainer.TrainPass | run_classifier.py:682-697 | one pass appends its backward/step/zero-grad calls; `global_step` grows by `n / gas`; the gradients of the last `n % gas` batches stay accumulated, added to the previous pass's when `n < gas` |
| Training.Trainer.Decide | run_classifier.py:761-764 | the checkpoint is written and the best raised exactly when this epoch's accuracy is `>=` the best so far |
| Training.Trainer.ReloadBest | run_classifier.py:769-772 | the model and optimizer become the checkpoint's and its epoch is returned; `global_step` is unchanged |
| Training.Trainer.RunEpoch | run_classifier.py:662-764 | one epoch trains on the scheduled bucket, evaluates the resulting model on the dev set and applies the `>=` decision; an empty dev set fails after the pass and leaves the best and the checkpoint unchanged |
| Training.Trainer.AdvanceEpoch | run_classifier.py:662-764 | from the run's state after `epoch` epochs, a successful iteration leaves the run's state after `epoch + 1` epochs and returns the accuracy of the model after this pass |
| Training.Trainer.RunCurriculum | run_classifier.py:659-764 | with `best_accuracy = 0`, 13 epochs each train on the scheduled bucket; the returned accuracies are, epoch by epoch, the dev accuracy of the model after that epoch's pass; the final history, accumulated batches and `global_step` are those of the 13 passes; the best is the maximum accuracy; the checkpoint names the last epoch attaining it and holds the model after that epoch's pass; an empty dev set fails after the first pass, with the best at 0 and the checkpoint unchanged |

## Left out

- JSON reading and `random.shuffle` (lines 124-126, 139-145): file I/O and randomness.
- `lower()` (lines 129-134 and 149-154): case folding is not modelled. Texts are taken as already lower-cased.
- The tokenizer's internals: `tokenize` is a parameter, and `convert_tokens_to_ids` is a per-token vocabulary lookup.
- Model forward and backward, `BERTAdam`, warm-up and `num_train_steps`: foreign code and floating point. Their effect is recorded only as `Backward`, `OptimizerStep` and `ZeroGrad` calls. Training.Trainer.TrainPass does not model the loss scaling by `1 / gas` at lines 688-689 or `tr_loss`, for the same reason.
- `DataLoader`, the samplers, batching and tensor construction: torch internals and randomness. The number of batches per bucket is a parameter of `RunCurriculum`. The dev batches are given already shaped, with at least one row each.
- `precision_recall_f1`, `F1` and the dev loss average: sklearn and float arithmetic. Accuracy values are reals.
- `torch.save` and `torch.load` (lines 763, 769-772): the file is modelled as the `saved` field. Results files and logging are left out.
- The final dev and test evaluations (line 776 onwards) repeat the evaluation pass already modelled, so they are not modelled again.
- Argument parsing, device setup and distributed training: plumbing.
- Examples.CreateExamples: requires that the first record has a matching slot; the source raises UnboundLocalError there instead.
- Features.ConvertExample: requires `maxSeqLength >= 4`; below that the source fails with IndexError.
- Features.ConvertExamplesToFeatures: requires `maxSeqLength >= 4` also for an empty example list, for which the source returns `[]` whatever `max_seq_length` is.
- Features.BuildRows: requires every group to have at least four features; a short trailing group makes the source fail with IndexError.
- Training.PassAccuracy: is taken as 0 on an empty pass or one with an ill-shaped batch. The source divides by zero on an empty pass, which Training.EvaluatePass models as an error; the shapes come from the data loader, which is not modelled.
- Training.Trainer.RunCurriculum: does not model the failures of an empty training loader, where `step` is unbound at line 706 and `tr_loss / nb_tr_steps` divides by zero at line 746. A pass of zero batches is a no-op here.
