/**
 * The epoch loop of `initialize_and_train` (snippext/baseline.py:140-168):
 * train, evaluate, and, when checkpointing is on, keep the two best-score
 * watermarks and write the `_dev` and `_test` checkpoints.
 */
module Orchestration {
  import opened LossRouter
  import opened Training
  import opened RunTags

  /**
   * What the run receives from outside for one epoch: the order in which the
   * shuffling training loader yields the batches, and the two scores that
   * `eval_on_task` returns (treated as an oracle).
   */
  datatype EpochInput = EpochInput(batches: seq<Batch>, devF1: real, testF1: real)

  /** The best-score watermarks `best_dev_f1` and `best_test_f1`. */
  datatype Ledger = Ledger(bestDev: real, bestTest: real)

  /** `best_dev_f1 = best_test_f1 = 0.0` (line 141). */
  const InitialLedger: Ledger := Ledger(0.0, 0.0)

  /**
   * Lines 160-166 on the watermarks. The test watermark is compared with the
   * test score but, as the source has it, assigned the dev score.
   */
  function Record(l: Ledger, devF1: real, testF1: real, saveModel: bool): Ledger
  {
    if !saveModel then l
    else Ledger(if devF1 > l.bestDev then devF1 else l.bestDev,
                if testF1 > l.bestTest then devF1 else l.bestTest)
  }

  /** Lines 160-166 on the checkpoint files: the writes of epoch `epoch`. */
  function Saves(l: Ledger, epoch: int, devF1: real, testF1: real, saveModel: bool, tag: string): Trace
  {
    if !saveModel then Empty
    else
      Optional(Optional(Empty, devF1 > l.bestDev, SaveCheckpoint(CheckpointPath(tag, DevBest), epoch)),
               testF1 > l.bestTest, SaveCheckpoint(CheckpointPath(tag, TestBest), epoch))
  }

  /** The watermarks after the first `k` epochs. */
  function LedgerAfter(inputs: seq<EpochInput>, k: nat, saveModel: bool): Ledger
    requires k <= |inputs|
    decreases k
  {
    if k == 0 then InitialLedger
    else Record(LedgerAfter(inputs, k - 1, saveModel), inputs[k - 1].devF1, inputs[k - 1].testF1, saveModel)
  }

  predicate AllWellFormed(inputs: seq<EpochInput>, k: nat)
    requires k <= |inputs|
  {
    forall e :: 0 <= e < k ==> WellFormed(inputs[e].batches)
  }

  /** The events of epoch `e` (numbered from 1): train, the banner, eval_on_task, the checkpoint writes. */
  function EpochEvents(inputs: seq<EpochInput>, e: nat, fp16: bool, saveModel: bool, tag: string): Trace
    requires 1 <= e <= |inputs| && WellFormed(inputs[e - 1].batches)
  {
    var input := inputs[e - 1];
    Cat(Snoc(Snoc(EpochTrace(input.batches, fp16), EvalBanner(e)), Evaluated(e)),
        Saves(LedgerAfter(inputs, e - 1, saveModel), e, input.devF1, input.testF1, saveModel, tag))
  }

  /** The events of epochs 1..k. */
  function RunPrefix(inputs: seq<EpochInput>, k: nat, fp16: bool, saveModel: bool, tag: string): Trace
    requires k <= |inputs| && AllWellFormed(inputs, k)
    decreases k
  {
    if k == 0 then Empty
    else Cat(RunPrefix(inputs, k - 1, fp16, saveModel, tag), EpochEvents(inputs, k, fp16, saveModel, tag))
  }

  /** Number of batches in the first `k` epochs. */
  function TotalBatches(inputs: seq<EpochInput>, k: nat): nat
    requires k <= |inputs|
    decreases k
  {
    if k == 0 then 0 else TotalBatches(inputs, k - 1) + |inputs[k - 1].batches|
  }

  /** `range(1, n_epochs + 1)` has this many elements. */
  function EpochCount(nEpochs: int): nat
  {
    if nEpochs < 0 then 0 else nEpochs
  }

  /**
   * Lines 160-166 of one epoch: with `save_model`, raise each watermark its
   * score beats and write the matching checkpoint.
   */
  method KeepBest(bestDev: real, bestTest: real, epoch: int, devF1: real, testF1: real, saveModel: bool, runTag: string)
    returns (newDev: real, newTest: real, saves: Trace)
    ensures Ledger(newDev, newTest) == Record(Ledger(bestDev, bestTest), devF1, testF1, saveModel)
    ensures saves == Saves(Ledger(bestDev, bestTest), epoch, devF1, testF1, saveModel, runTag)
  {
    newDev, newTest := bestDev, bestTest;
    saves := Empty;
    if saveModel {
      if devF1 > newDev {
        newDev := devF1;
        saves := Snoc(saves, SaveCheckpoint(CheckpointPath(runTag, DevBest), epoch));
      }
      if testF1 > newTest {
        newTest := devF1;
        saves := Snoc(saves, SaveCheckpoint(CheckpointPath(runTag, TestBest), epoch));
      }
    }
  }

  /**
   * `initialize_and_train`: for epochs 1..n_epochs, one `train`, one
   * evaluation, then the watermark and checkpoint decisions; finally the
   * metric writer is closed. Returns the trace, the final watermarks and the
   * optimizer's step count.
   */
  method InitializeAndTrain(inputs: seq<EpochInput>, nEpochs: int, fp16: bool, saveModel: bool, runTag: string)
    returns (trace: Trace, ledger: Ledger, steps: nat)
    requires nEpochs <= |inputs|
    requires AllWellFormed(inputs, EpochCount(nEpochs))
    ensures trace == Snoc(RunPrefix(inputs, EpochCount(nEpochs), fp16, saveModel, runTag), WriterClosed)
    ensures ledger == LedgerAfter(inputs, EpochCount(nEpochs), saveModel)
    ensures steps == TotalBatches(inputs, EpochCount(nEpochs))
  {
    var opt := new Optimizer();
    trace := Empty;
    var bestDev, bestTest := 0.0, 0.0;
    var epoch := 1;
    while epoch <= nEpochs
      invariant 1 <= epoch <= EpochCount(nEpochs) + 1
      invariant trace == RunPrefix(inputs, epoch - 1, fp16, saveModel, runTag)
      invariant Ledger(bestDev, bestTest) == LedgerAfter(inputs, epoch - 1, saveModel)
      invariant opt.steps == TotalBatches(inputs, epoch - 1)
    {
      var input := inputs[epoch - 1];
      var events := Train(opt, input.batches, fp16);
      events := Snoc(events, EvalBanner(epoch));
      var devF1, testF1 := input.devF1, input.testF1;
      events := Snoc(events, Evaluated(epoch));
      var saves;
      bestDev, bestTest, saves := KeepBest(bestDev, bestTest, epoch, devF1, testF1, saveModel, runTag);
      assert Cat(events, saves) == EpochEvents(inputs, epoch, fp16, saveModel, runTag);
      trace := Cat(trace, Cat(events, saves));
      epoch := epoch + 1;
    }
    trace := Snoc(trace, WriterClosed);
    ledger := Ledger(bestDev, bestTest);
    steps := opt.steps;
  }

  // ---------------------------------------------------------------------
  // Properties of the ledger

  /** Without `save_model` the watermarks stay at 0.0. */
  lemma {:induction false} LedgerIdleWithoutSaveModel(inputs: seq<EpochInput>, k: nat)
    requires k <= |inputs|
    ensures LedgerAfter(inputs, k, false) == InitialLedger
    decreases k
  {
    if k > 0 {
      LedgerIdleWithoutSaveModel(inputs, k - 1);
    }
  }

  /** `best_dev_f1` never decreases from one epoch to a later one. */
  lemma {:induction false} BestDevMonotone(inputs: seq<EpochInput>, j: nat, k: nat, saveModel: bool)
    requires j <= k <= |inputs|
    ensures LedgerAfter(inputs, j, saveModel).bestDev <= LedgerAfter(inputs, k, saveModel).bestDev
    decreases k
  {
    if j < k {
      BestDevMonotone(inputs, j, k - 1, saveModel);
    }
  }

  /**
   * With `save_model`, `best_dev_f1` after `k` epochs is the maximum of 0.0 and
   * the first `k` dev scores: it bounds them all and is one of them unless it is
   * still 0.0.
   */
  lemma {:induction false} BestDevIsMaximum(inputs: seq<EpochInput>, k: nat)
    requires k <= |inputs|
    ensures var best := LedgerAfter(inputs, k, true).bestDev;
      best >= 0.0 &&
      (forall j :: 0 <= j < k ==> inputs[j].devF1 <= best) &&
      (best == 0.0 || exists j :: 0 <= j < k && inputs[j].devF1 == best)
    decreases k
  {
    if k > 0 {
      BestDevIsMaximum(inputs, k - 1);
      var prev := LedgerAfter(inputs, k - 1, true).bestDev;
      if prev != 0.0 && inputs[k - 1].devF1 <= prev {
        var j :| 0 <= j < k - 1 && inputs[j].devF1 == prev;
        assert 0 <= j < k && inputs[j].devF1 == LedgerAfter(inputs, k, true).bestDev;
      }
    }
  }

  /**
   * `best_test_f1` changes exactly in the epochs whose test score beats it, and
   * then takes that epoch's dev score.
   */
  lemma TestWatermarkUpdate(inputs: seq<EpochInput>, e: nat)
    requires 1 <= e <= |inputs|
    ensures var before := LedgerAfter(inputs, e - 1, true).bestTest;
      LedgerAfter(inputs, e, true).bestTest ==
        if inputs[e - 1].testF1 > before then inputs[e - 1].devF1 else before
  {
  }

  /** The test watermark can fall: it is assigned a dev score, which may be lower than the previous watermark. */
  lemma TestWatermarkCanDecrease()
    ensures var inputs := [EpochInput([], 0.2, 0.1), EpochInput([], 0.1, 0.3)];
      LedgerAfter(inputs, 1, true).bestTest == 0.2 &&
      LedgerAfter(inputs, 2, true).bestTest == 0.1
  {
    var inputs := [EpochInput([], 0.2, 0.1), EpochInput([], 0.1, 0.3)];
    assert LedgerAfter(inputs, 1, true) == Ledger(0.2, 0.2);
  }

  // ---------------------------------------------------------------------
  // Properties of the run trace

  /** An epoch's checkpoint writes are all SaveCheckpoint events. */
  lemma SavesAreSaves(l: Ledger, epoch: int, devF1: real, testF1: real, saveModel: bool, tag: string)
    ensures Filter(Saves(l, epoch, devF1, testF1, saveModel, tag), {SaveKind}) == Saves(l, epoch, devF1, testF1, saveModel, tag)
    ensures Filter(Saves(l, epoch, devF1, testF1, saveModel, tag), PhaseKinds) == Empty
  {
    var dev := SaveCheckpoint(CheckpointPath(tag, DevBest), epoch);
    var test := SaveCheckpoint(CheckpointPath(tag, TestBest), epoch);
    if saveModel {
      FilterOptional(Optional(Empty, devF1 > l.bestDev, dev), testF1 > l.bestTest, test, {SaveKind});
      FilterOptional(Empty, devF1 > l.bestDev, dev, {SaveKind});
      FilterOptional(Optional(Empty, devF1 > l.bestDev, dev), testF1 > l.bestTest, test, PhaseKinds);
      FilterOptional(Empty, devF1 > l.bestDev, dev, PhaseKinds);
    }
  }

  /** Filtering an epoch's events: its training epoch, the banner, the evaluation, then its checkpoint writes. */
  lemma FilterEpochShape(t: Trace, e: nat, saves: Trace, ks: set<Kind>)
    ensures Filter(Cat(Snoc(Snoc(t, EvalBanner(e)), Evaluated(e)), saves), ks) ==
      Cat(Optional(Optional(Filter(t, ks), BannerKind in ks, EvalBanner(e)), EvaluatedKind in ks, Evaluated(e)), Filter(saves, ks))
  {
    FilterCat(Snoc(Snoc(t, EvalBanner(e)), Evaluated(e)), saves, ks);
  }

  /** Every checkpoint write of an epoch is labelled with that epoch. */
  lemma SavesEpoch(l: Ledger, epoch: int, devF1: real, testF1: real, saveModel: bool, tag: string, path: string, e: int)
    ensures Occurs(Saves(l, epoch, devF1, testF1, saveModel, tag), SaveCheckpoint(path, e)) ==> e == epoch
  {
    var dev := Optional(Empty, devF1 > l.bestDev, SaveCheckpoint(CheckpointPath(tag, DevBest), epoch));
    assert !Occurs(Empty, SaveCheckpoint(path, e));
    assert Occurs(dev, SaveCheckpoint(path, e)) ==> e == epoch;
  }

  /** The `_dev` file is written in an epoch exactly when checkpointing is on and the dev score beats its watermark; likewise the `_test` file with the test score. */
  lemma SavesOccurs(l: Ledger, epoch: int, devF1: real, testF1: real, saveModel: bool, tag: string)
    ensures Occurs(Saves(l, epoch, devF1, testF1, saveModel, tag), SaveCheckpoint(CheckpointPath(tag, DevBest), epoch)) <==>
      saveModel && devF1 > l.bestDev
    ensures Occurs(Saves(l, epoch, devF1, testF1, saveModel, tag), SaveCheckpoint(CheckpointPath(tag, TestBest), epoch)) <==>
      saveModel && testF1 > l.bestTest
  {
    var dev := SaveCheckpoint(CheckpointPath(tag, DevBest), epoch);
    var test := SaveCheckpoint(CheckpointPath(tag, TestBest), epoch);
    CheckpointPathInjective(tag, DevBest, tag, TestBest);
    assert dev != test;
    assert !Occurs(Empty, dev) && !Occurs(Empty, test);
  }

  /** The checkpoint writes among one epoch's events are its Saves. */
  lemma EpochEventsSaves(inputs: seq<EpochInput>, e: nat, fp16: bool, saveModel: bool, tag: string)
    requires 1 <= e <= |inputs| && WellFormed(inputs[e - 1].batches)
    ensures var input := inputs[e - 1];
      Filter(EpochEvents(inputs, e, fp16, saveModel, tag), {SaveKind}) ==
        Saves(LedgerAfter(inputs, e - 1, saveModel), e, input.devF1, input.testF1, saveModel, tag)
  {
    var input := inputs[e - 1];
    FilterEpochShape(EpochTrace(input.batches, fp16), e,
      Saves(LedgerAfter(inputs, e - 1, saveModel), e, input.devF1, input.testF1, saveModel, tag), {SaveKind});
    PhaseKindsOutsideBatches();
    PrefixOtherKinds(input.batches, fp16, |input.batches|, {SaveKind});
    SavesAreSaves(LedgerAfter(inputs, e - 1, saveModel), e, input.devF1, input.testF1, saveModel, tag);
    CatEmpty(Saves(LedgerAfter(inputs, e - 1, saveModel), e, input.devF1, input.testF1, saveModel, tag));
  }

  /** The phase events of one epoch: train mode, banner, evaluation. */
  lemma EpochEventsPhases(inputs: seq<EpochInput>, e: nat, fp16: bool, saveModel: bool, tag: string)
    requires 1 <= e <= |inputs| && WellFormed(inputs[e - 1].batches)
    ensures Filter(EpochEvents(inputs, e, fp16, saveModel, tag), PhaseKinds) == PhaseTriple(e)
  {
    var input := inputs[e - 1];
    FilterEpochShape(EpochTrace(input.batches, fp16), e,
      Saves(LedgerAfter(inputs, e - 1, saveModel), e, input.devF1, input.testF1, saveModel, tag), PhaseKinds);
    PhaseKindsOutsideBatches();
    PrefixOtherKinds(input.batches, fp16, |input.batches|, PhaseKinds);
    SavesAreSaves(LedgerAfter(inputs, e - 1, saveModel), e, input.devF1, input.testF1, saveModel, tag);
  }

  lemma PhaseKindsOutsideBatches()
    ensures PhaseKinds * BatchKinds == {} && {SaveKind} * BatchKinds == {}
  {
    assert forall x :: x in PhaseKinds * BatchKinds ==> false;
  }

  /** The checkpoint writes of epochs 1..k. */
  function SaveLog(inputs: seq<EpochInput>, k: nat, saveModel: bool, tag: string): Trace
    requires k <= |inputs|
    decreases k
  {
    if k == 0 then Empty
    else
      Cat(SaveLog(inputs, k - 1, saveModel, tag),
          Saves(LedgerAfter(inputs, k - 1, saveModel), k, inputs[k - 1].devF1, inputs[k - 1].testF1, saveModel, tag))
  }

  /** The checkpoint writes in the trace are exactly those the ledger decides, epoch by epoch. */
  lemma {:induction false} RunSaves(inputs: seq<EpochInput>, k: nat, fp16: bool, saveModel: bool, tag: string)
    requires k <= |inputs| && AllWellFormed(inputs, k)
    ensures Filter(RunPrefix(inputs, k, fp16, saveModel, tag), {SaveKind}) == SaveLog(inputs, k, saveModel, tag)
    decreases k
  {
    if k > 0 {
      RunSaves(inputs, k - 1, fp16, saveModel, tag);
      FilterCat(RunPrefix(inputs, k - 1, fp16, saveModel, tag), EpochEvents(inputs, k, fp16, saveModel, tag), {SaveKind});
      EpochEventsSaves(inputs, k, fp16, saveModel, tag);
    }
  }

  /** Without `save_model` the run writes no checkpoint and the watermarks stay at 0.0. */
  lemma NoCheckpointWithoutSaveModel(inputs: seq<EpochInput>, k: nat, fp16: bool, tag: string)
    requires k <= |inputs| && AllWellFormed(inputs, k)
    ensures Filter(RunPrefix(inputs, k, fp16, false, tag), {SaveKind}) == Empty
    ensures LedgerAfter(inputs, k, false) == InitialLedger
  {
    RunSaves(inputs, k, fp16, false, tag);
    SaveLogIdle(inputs, k, tag);
    LedgerIdleWithoutSaveModel(inputs, k);
  }

  lemma {:induction false} SaveLogIdle(inputs: seq<EpochInput>, k: nat, tag: string)
    requires k <= |inputs|
    ensures SaveLog(inputs, k, false, tag) == Empty
    decreases k
  {
    if k > 0 {
      SaveLogIdle(inputs, k - 1, tag);
    }
  }

  /** A write recorded for epoch `e` of a log of epochs 1..k comes from epoch `e` itself. */
  lemma {:induction false} SaveLogOccurs(inputs: seq<EpochInput>, k: nat, saveModel: bool, tag: string, path: string, e: int)
    requires k <= |inputs|
    ensures Occurs(SaveLog(inputs, k, saveModel, tag), SaveCheckpoint(path, e)) <==>
      1 <= e <= k && Occurs(Saves(LedgerAfter(inputs, e - 1, saveModel), e, inputs[e - 1].devF1, inputs[e - 1].testF1, saveModel, tag),
                            SaveCheckpoint(path, e))
    decreases k
  {
    if k > 0 {
      SaveLogOccurs(inputs, k - 1, saveModel, tag, path, e);
      var here := Saves(LedgerAfter(inputs, k - 1, saveModel), k, inputs[k - 1].devF1, inputs[k - 1].testF1, saveModel, tag);
      OccursCat(SaveLog(inputs, k - 1, saveModel, tag), here, SaveCheckpoint(path, e));
      SavesEpoch(LedgerAfter(inputs, k - 1, saveModel), k, inputs[k - 1].devF1, inputs[k - 1].testF1, saveModel, tag, path, e);
    }
  }

  /**
   * With `save_model`, `_dev.pt` is written in epoch `e` exactly when that
   * epoch's dev score is strictly above the watermark before it; the
   * watermark then holds that score. Without `save_model` it is never written.
   */
  lemma DevCheckpointIff(inputs: seq<EpochInput>, k: nat, fp16: bool, saveModel: bool, tag: string, e: nat)
    requires k <= |inputs| && AllWellFormed(inputs, k)
    requires 1 <= e <= k
    ensures Occurs(RunPrefix(inputs, k, fp16, saveModel, tag), SaveCheckpoint(CheckpointPath(tag, DevBest), e)) <==>
      saveModel && inputs[e - 1].devF1 > LedgerAfter(inputs, e - 1, saveModel).bestDev
    ensures Occurs(RunPrefix(inputs, k, fp16, saveModel, tag), SaveCheckpoint(CheckpointPath(tag, DevBest), e)) ==>
      LedgerAfter(inputs, e, saveModel).bestDev == inputs[e - 1].devF1
  {
    var path := CheckpointPath(tag, DevBest);
    FilterOccurs(RunPrefix(inputs, k, fp16, saveModel, tag), {SaveKind}, SaveCheckpoint(path, e));
    RunSaves(inputs, k, fp16, saveModel, tag);
    SaveLogOccurs(inputs, k, saveModel, tag, path, e);
    SavesOccurs(LedgerAfter(inputs, e - 1, saveModel), e, inputs[e - 1].devF1, inputs[e - 1].testF1, saveModel, tag);
  }

  /**
   * With `save_model`, `_test.pt` is written in epoch `e` exactly when that
   * epoch's test score is strictly above the test watermark before it; the
   * test watermark then holds that epoch's dev score.
   */
  lemma TestCheckpointIff(inputs: seq<EpochInput>, k: nat, fp16: bool, saveModel: bool, tag: string, e: nat)
    requires k <= |inputs| && AllWellFormed(inputs, k)
    requires 1 <= e <= k
    ensures Occurs(RunPrefix(inputs, k, fp16, saveModel, tag), SaveCheckpoint(CheckpointPath(tag, TestBest), e)) <==>
      saveModel && inputs[e - 1].testF1 > LedgerAfter(inputs, e - 1, saveModel).bestTest
    ensures Occurs(RunPrefix(inputs, k, fp16, saveModel, tag), SaveCheckpoint(CheckpointPath(tag, TestBest), e)) ==>
      LedgerAfter(inputs, e, saveModel).bestTest == inputs[e - 1].devF1
  {
    var path := CheckpointPath(tag, TestBest);
    FilterOccurs(RunPrefix(inputs, k, fp16, saveModel, tag), {SaveKind}, SaveCheckpoint(path, e));
    RunSaves(inputs, k, fp16, saveModel, tag);
    SaveLogOccurs(inputs, k, saveModel, tag, path, e);
    SavesOccurs(LedgerAfter(inputs, e - 1, saveModel), e, inputs[e - 1].devF1, inputs[e - 1].testF1, saveModel, tag);
  }

  /**
   * With `save_model`, `_dev.pt` is written in epoch `e` exactly when the dev
   * score of `e` is a new record: above 0.0 and above every earlier dev score.
   */
  lemma DevCheckpointOnNewRecord(inputs: seq<EpochInput>, k: nat, fp16: bool, tag: string, e: nat)
    requires k <= |inputs| && AllWellFormed(inputs, k)
    requires 1 <= e <= k
    ensures Occurs(RunPrefix(inputs, k, fp16, true, tag), SaveCheckpoint(CheckpointPath(tag, DevBest), e)) <==>
      inputs[e - 1].devF1 > 0.0 && forall j :: 0 <= j < e - 1 ==> inputs[e - 1].devF1 > inputs[j].devF1
  {
    DevCheckpointIff(inputs, k, fp16, true, tag, e);
    AboveBestDevIff(inputs, e - 1, inputs[e - 1].devF1);
  }

  /** A score beats `best_dev_f1` after `k` epochs exactly when it beats 0.0 and each of the first `k` dev scores. */
  lemma AboveBestDevIff(inputs: seq<EpochInput>, k: nat, score: real)
    requires k <= |inputs|
    ensures score > LedgerAfter(inputs, k, true).bestDev <==>
      score > 0.0 && forall j :: 0 <= j < k ==> score > inputs[j].devF1
  {
    var best := LedgerAfter(inputs, k, true).bestDev;
    BestDevIsMaximum(inputs, k);
    if score > 0.0 && (forall j :: 0 <= j < k ==> score > inputs[j].devF1) && best != 0.0 {
      var j :| 0 <= j < k && inputs[j].devF1 == best;
      assert score > inputs[j].devF1;
    }
  }

  const PhaseKinds: set<Kind> := {TrainModeKind, BannerKind, EvaluatedKind}

  /** The phase events of epoch `e`: the mode switch, the banner, the evaluation. */
  function PhaseTriple(e: nat): Trace
  {
    Snoc(Snoc(Snoc(Empty, TrainMode), EvalBanner(e)), Evaluated(e))
  }

  /** Phases of epochs 1..k: one triple per epoch, in epoch order. */
  function Phases(k: nat): Trace
  {
    if k == 0 then Empty else Cat(Phases(k - 1), PhaseTriple(k))
  }

  /** Epochs run 1, 2, ..., k in order, and within each epoch training comes before evaluation. */
  lemma {:induction false} RunPhases(inputs: seq<EpochInput>, k: nat, fp16: bool, saveModel: bool, tag: string)
    requires k <= |inputs| && AllWellFormed(inputs, k)
    ensures Filter(RunPrefix(inputs, k, fp16, saveModel, tag), PhaseKinds) == Phases(k)
    decreases k
  {
    if k > 0 {
      RunPhases(inputs, k - 1, fp16, saveModel, tag);
      FilterCat(RunPrefix(inputs, k - 1, fp16, saveModel, tag), EpochEvents(inputs, k, fp16, saveModel, tag), PhaseKinds);
      EpochEventsPhases(inputs, k, fp16, saveModel, tag);
    }
  }

  /** The example of three epochs with dev scores 0.5, 0.7, 0.6 (and test scores never above 0.0). */
  lemma ThreeEpochExample(fp16: bool, tag: string)
    ensures var inputs := [EpochInput([], 0.5, 0.0), EpochInput([], 0.7, 0.0), EpochInput([], 0.6, 0.0)];
      Filter(RunPrefix(inputs, 3, fp16, true, tag), {SaveKind}) ==
        Snoc(Snoc(Empty, SaveCheckpoint(CheckpointPath(tag, DevBest), 1)), SaveCheckpoint(CheckpointPath(tag, DevBest), 2)) &&
      LedgerAfter(inputs, 3, true) == Ledger(0.7, 0.0)
  {
    var inputs := [EpochInput([], 0.5, 0.0), EpochInput([], 0.7, 0.0), EpochInput([], 0.6, 0.0)];
    var dev1 := SaveCheckpoint(CheckpointPath(tag, DevBest), 1);
    var dev2 := SaveCheckpoint(CheckpointPath(tag, DevBest), 2);
    RunSaves(inputs, 3, fp16, true, tag);
    assert LedgerAfter(inputs, 1, true) == Ledger(0.5, 0.0);
    assert LedgerAfter(inputs, 2, true) == Ledger(0.7, 0.0);
    assert Saves(LedgerAfter(inputs, 0, true), 1, 0.5, 0.0, true, tag) == Snoc(Empty, dev1);
    CatEmpty(Snoc(Empty, dev1));
    assert Saves(LedgerAfter(inputs, 1, true), 2, 0.7, 0.0, true, tag) == Snoc(Empty, dev2);
    assert SaveLog(inputs, 1, true, tag) == Snoc(Empty, dev1);
    assert Cat(Snoc(Empty, dev1), Snoc(Empty, dev2)) == Snoc(Snoc(Empty, dev1), dev2);
    assert Saves(LedgerAfter(inputs, 2, true), 3, 0.6, 0.0, true, tag) == Empty;
  }
}
