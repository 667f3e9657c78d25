# Snippext baseline trainer: the decision layer of `baseline.py`

`snippext/baseline.py` fine-tunes a language-model backbone on a single task.
Almost all of it hands work to PyTorch, apex, tensorboardX and collaborators
that are not part of this model (`MultiTaskNet`, `SnippextDataset`,
`eval_on_task`). Underneath is a small, sequential layer that decides what
happens, and this project models it in Dafny and proves properties about it:

- **Loss router** (`LossRouter`, `Strings`). `train` picks the criterion for a
  batch by a substring test on the batch's first task name. The name contains
  `"tagging"` → cross-entropy that ignores label 0 (padding). Otherwise →
  plain cross-entropy. The task type declared in the configuration is never
  consulted. A classification task whose name contains the marker is
  therefore trained as tagging, and a tagging task without the marker is
  trained with the plain loss. Both cases are proved as examples.
- **Flatten shapes** (`Shapes`). `logits.view(-1, C)` and `y.view(-1)` are
  modelled as arithmetic on lists of dimensions.
- **One training epoch** (`Training`). `Train` is a loop over the batches in
  the order the loader yields them. It drives an `Optimizer` object and
  returns what the epoch observably does, as a trace of events:
  - the mode switch;
  - per batch: zero_grad, the routed loss, a backward that is scaled when
    `fp16`, and the step;
  - the sanity dump for batch 0;
  - a loss line for every batch index that is a multiple of 10.

  A trace is a list that grows at its end (`Trace = Empty | Snoc(front, last)`).
  Its events are selected by kind with `Filter`.
- **The run** (`Orchestration`). `InitializeAndTrain` loops over epochs
  1..n_epochs. Each epoch trains, prints the banner and evaluates. Then, only
  when `save_model` is set, it updates the watermarks `best_dev_f1` and
  `best_test_f1` and writes the `_dev.pt` / `_test.pt` checkpoints; the
  writer is closed at the end. The scores of `eval_on_task` are inputs, one
  pair per epoch, and so is each epoch's batch order.
- **Run tag and checkpoint paths** (`RunTags`). The tag
  `baseline_task_<task>_lm_<lm>_batch_size_<n>_run_id_<n>` and the two
  checkpoint files named after it.

Quirks of the code that the model keeps as written:

- The test watermark is compared with the test score but assigned the dev
  score (line 165). It is therefore not monotone: `TestWatermarkCanDecrease`
  gives two epochs in which it falls.
- The watermark starts at 0.0, so dev scores 0.5, 0.7, 0.6 write `_dev.pt`
  at epochs 1 and 2 and leave `best_dev_f1` = 0.7 (`ThreeEpochExample`).
- The run tag does not determine the task and backbone names when a name
  contains `_lm_` (`RunTagAmbiguousInNames`). It does determine the batch
  size and run id once the names are fixed (`RunTagIdentifiesNumbers`).

## Model

| member | source | states |
|---|---|---|
| LossRouter.SelectCriterionBySubstring | snippext/baseline.py:37-50 | the padding-ignoring criterion is chosen exactly when "tagging" occurs at some position of the task name, the plain one exactly when it occurs nowhere |
| LossRouter.ClassificationNameWithMarkerIsTagging | snippext/baseline.py:47-48 | example: the classification-style name "review_tagging_polarity" contains the marker and so gets the tagging criterion |
| LossRouter.TaggingNameWithoutMarkerIsPlain | snippext/baseline.py:47-50 | a tagging task whose name lacks the marker gets the plain criterion |
| LossRouter.ContributingPositions | snippext/baseline.py:37-38 | for labels that are class indices, the positions that take part in the loss are exactly those whose label the criterion does not ignore, in increasing order |
| LossRouter.PaddingIgnoredOnlyByTagging | snippext/baseline.py:37-57 | a marked name gives a loss to which no padding position contributes; an unmarked name gives a loss over every position |
| Strings.ContainsIffOccurs | snippext/baseline.py:47 | the substring test holds exactly when the marker occurs at some index |
| Shapes.FlattenLogits | snippext/baseline.py:55 | the view succeeds exactly when there is a nonzero last dimension; the result is two-dimensional, keeps the class axis and the element count |
| Shapes.FlattenLabels | snippext/baseline.py:56 | the labels become one vector holding every element |
| Shapes.FlattenedShapesAgree | snippext/baseline.py:55-57 | logits with one class axis after the label dimensions flatten to one row per label |
| Shapes.TaggingFlatten | snippext/baseline.py:55-56 | batch x seq x classes logits and batch x seq labels give batch*seq rows |
| Shapes.ClassificationFlatten | snippext/baseline.py:55-56 | batch x classes logits and batch labels give batch rows |
| Training.Optimizer.constructor | snippext/baseline.py:128 | a new optimizer has taken no step and holds no gradient |
| Training.Optimizer.ZeroGrad | snippext/baseline.py:53 | clears the accumulated gradients and leaves the step count unchanged |
| Training.Optimizer.Backward | snippext/baseline.py:60-64 | accumulates one more backward pass |
| Training.Optimizer.Step | snippext/baseline.py:65 | counts one more step and leaves the gradients as they are |
| Training.Train | snippext/baseline.py:40-86 | the returned trace is the epoch's event trace; the optimizer takes one step per batch; after a nonempty epoch exactly one backward pass is pending |
| Training.EpochUpdates | snippext/baseline.py:53-65 | the optimizer events are one zero_grad, backward, step round per batch, in that order; each backward is scaled exactly when fp16 |
| Training.EpochLossesInBatchOrder | snippext/baseline.py:44-57 | there is one loss per batch, in batch order, each with the criterion its batch's first task name routes to |
| Training.EpochSanityDump | snippext/baseline.py:67-82 | the sanity dump is printed exactly once, for batch index 0 with that batch's task, and not at all for an empty source |
| Training.EpochLossLines | snippext/baseline.py:84-85 | loss lines are printed for batches 0, 10, 20, ..., ceil(n/10) of them for n batches |
| Training.EmptyEpoch | snippext/baseline.py:40-41 | an empty source only switches the model to training mode |
| Orchestration.KeepBest | snippext/baseline.py:160-166 | one epoch's watermark update and checkpoint writes, with the test watermark taking the dev score |
| Orchestration.InitializeAndTrain | snippext/baseline.py:140-168 | the trace is epochs 1..n_epochs (none when n_epochs <= 0) followed by closing the writer; the final watermarks are those of the ledger; the step count is the total number of batches |
| Orchestration.RunPhases | snippext/baseline.py:142-158 | epochs run 1, 2, ..., n in order, each training before it prints the banner and evaluates |
| Orchestration.LedgerIdleWithoutSaveModel | snippext/baseline.py:141-160 | without save_model both watermarks stay at 0.0 |
| Orchestration.NoCheckpointWithoutSaveModel | snippext/baseline.py:160-166 | without save_model no checkpoint is written and the watermarks stay at 0.0 |
| Orchestration.RunSaves | snippext/baseline.py:160-166 | the checkpoint writes in the run trace are exactly those the watermarks decide, epoch by epoch |
| Orchestration.BestDevMonotone | snippext/baseline.py:161-162 | best_dev_f1 never decreases from one epoch to a later one |
| Orchestration.BestDevIsMaximum | snippext/baseline.py:141-162 | with save_model, best_dev_f1 is the maximum of 0.0 and the dev scores so far |
| Orchestration.AboveBestDevIff | snippext/baseline.py:161 | a score beats best_dev_f1 exactly when it beats 0.0 and every earlier dev score |
| Orchestration.DevCheckpointIff | snippext/baseline.py:160-163 | _dev.pt is written in epoch e exactly when save_model is set and the dev score beats the watermark before e; the watermark then equals that score |
| Orchestration.DevCheckpointOnNewRecord | snippext/baseline.py:160-163 | with save_model, _dev.pt is written in epoch e exactly when the dev score of e is above 0.0 and above every earlier dev score |
| Orchestration.SavesOccurs | snippext/baseline.py:160-166 | within one epoch each checkpoint file is written exactly when save_model is set and its score beats its watermark |
| Orchestration.TestCheckpointIff | snippext/baseline.py:164-166 | _test.pt is written in epoch e exactly when save_model is set and the test score beats the test watermark before e; that watermark then equals the dev score of e |
| Orchestration.TestWatermarkUpdate | snippext/baseline.py:164-165 | best_test_f1 changes exactly in the epochs whose test score beats it, and then takes that epoch's dev score |
| Orchestration.TestWatermarkCanDecrease | snippext/baseline.py:164-165 | two epochs in which the test watermark falls from 0.2 to 0.1 |
| Orchestration.ThreeEpochExample | snippext/baseline.py:160-163 | dev scores 0.5, 0.7, 0.6 write _dev.pt in epochs 1 and 2 and end with best_dev_f1 = 0.7 |
| RunTags.CheckpointPath | snippext/baseline.py:163-166 | a checkpoint path starts with the run tag and is strictly longer than it |
| RunTags.CheckpointPathInjective | snippext/baseline.py:163-166 | two checkpoint paths are equal exactly when their tags and kinds are |
| RunTags.RunTagIdentifiesNumbers | snippext/baseline.py:201-204 | for fixed task and backbone names, equal tags have equal batch sizes and run ids, and conversely |
| RunTags.RunTagAmbiguousInNames | snippext/baseline.py:201-204 | a name containing `_lm_` makes the tags of two different runs collide |
| Strings.DecimalRoundTrip | snippext/baseline.py:201-204 | `%d` formatting of an integer reads back as the same integer |
| Strings.DecimalInjective | snippext/baseline.py:201-204 | different integers are formatted differently |
| Strings.DecimalHasNoUnderscore | snippext/baseline.py:201-204 | a formatted integer holds no underscore, so it cannot blur the tag's field separators |

## Left out

- Tensors, autograd, the cross-entropy numerics, AdamW and apex `amp` loss scaling: these are library numerics and floating point. A loss is an event that names its task and criterion; a backward is an event that says whether it was scaled.
- `amp.initialize` and the move to the GPU (lines 127-133): the device is not modelled, so the `fp16` flag reaches the backward pass directly.
- `DataLoader` shuffling, its worker process and `SnippextDataset.pad`. The order of each epoch's batches is an input, and a batch keeps only its task names.
- `taskname[0]` on an empty list raises IndexError. The loader never yields an empty batch, so the model requires every batch to hold a task name (`WellFormed`) instead of modelling that error.
- The `MultiTaskNet` forward pass, `get_tokenizer` and `eval_on_task`. These are not part of this model. The two scores of each epoch are inputs.
- `os.makedirs` and the construction of the `SummaryWriter` (lines 136-138) are I/O and have no event. `torch.save`, `writer.close()` and the `print` calls are I/O too, and they appear as events in the trace. A sanity dump or loss line records only its batch index and task, not the printed values.
- LossRouter.ContributingPositions: labels are class indices (`nat`). `nn.CrossEntropyLoss()` also skips a target of -100 by default, and it raises an error on any other negative target. Neither behaviour is modelled.
- The scores of `eval_on_task` and the watermarks are Python floats. They are modelled as `real`, so NaN is left out. With NaN as a dev score, line 165 would copy NaN into `best_test_f1`, after which every `test_f1 > best_test_f1` is false and `_test.pt` is never written again.
- Shapes.FlattenLogits: the memory layout (contiguity) that `view` also demands is not modelled, only the dimension arithmetic.
- Argument parsing, JSON configuration loading, device selection and the apex ImportError in `__main__`. These are command-line and environment plumbing; the run tag takes its four fields as parameters.
