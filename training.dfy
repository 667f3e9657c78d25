/**
 * One training epoch, `train` in snippext/baseline.py:18-86. Tensors, the
 * forward pass and the loss values are abstracted away; what remains is the
 * order of optimizer calls and of the diagnostic lines, as a trace of events.
 */
module Training {
  import opened LossRouter

  /**
   * A padded batch as the data loader yields it. Only the per-example task
   * names take part in the decisions of `train`; the token, label and mask
   * tensors are not modelled.
   */
  datatype Batch = Batch(tasknames: seq<string>)

  /** The data loader never yields an empty batch, so `taskname[0]` exists. */
  predicate WellFormed(batches: seq<Batch>)
  {
    forall i :: 0 <= i < |batches| ==> batches[i].tasknames != []
  }

  /** `taskname = taskname[0]`: the task that the whole batch is routed by. */
  function TaskOf(b: Batch): string
    requires b.tasknames != []
  {
    b.tasknames[0]
  }

  /** What an epoch, and then a whole run, observably does, in order. */
  datatype Event =
    | TrainMode                                // model.train()
    | ZeroGrad                                 // optimizer.zero_grad()
    | Loss(task: string, criterion: Criterion) // forward pass and criterion(logits, y)
    | Backward(scaled: bool)                   // backward, through amp.scale_loss when scaled
    | OptimizerStep                            // optimizer.step()
    | SanityDump(step: nat, task: string)     // the "sanity check" block of prints
    | LossLine(step: nat, task: string)        // the "step: i, task: ..., loss: ..." line
    | EvalBanner(epoch: int)                   // the "eval at epoch=..." line
    | Evaluated(epoch: int)                    // eval_on_task for that epoch
    | SaveCheckpoint(path: string, epoch: int) // torch.save of the model state after that epoch
    | WriterClosed                             // writer.close()

  /** The constructor of an event, so that traces can be filtered by kind. */
  datatype Kind =
    | TrainModeKind | ZeroGradKind | LossKind | BackwardKind | StepKind | DumpKind | LossLineKind
    | BannerKind | EvaluatedKind | SaveKind | CloseKind

  function KindOf(e: Event): Kind
  {
    match e
    case TrainMode => TrainModeKind
    case ZeroGrad => ZeroGradKind
    case Loss(_, _) => LossKind
    case Backward(_) => BackwardKind
    case OptimizerStep => StepKind
    case SanityDump(_, _) => DumpKind
    case LossLine(_, _) => LossLineKind
    case EvalBanner(_) => BannerKind
    case Evaluated(_) => EvaluatedKind
    case SaveCheckpoint(_, _) => SaveKind
    case WriterClosed => CloseKind
  }

  /** The optimizer-facing events of a training step. */
  const UpdateKinds: set<Kind> := {ZeroGradKind, BackwardKind, StepKind}
  /** Every kind of event a batch can produce. */
  const BatchKinds: set<Kind> := {ZeroGradKind, LossKind, BackwardKind, StepKind, DumpKind, LossLineKind}

  /**
   * A log of events in the order they happen. It grows at its end, so it is
   * built by appending one event at a time to what came before.
   */
  datatype Trace = Empty | Snoc(front: Trace, last: Event)

  function Length(t: Trace): nat
  {
    match t
    case Empty => 0
    case Snoc(f, _) => Length(f) + 1
  }

  /** The event at position `k`, counted from the first one (from 0). */
  function At(t: Trace, k: nat): Event
    requires k < Length(t)
  {
    match t
    case Snoc(f, e) => if k == Length(f) then e else At(f, k)
  }

  /** Whether `e` occurs somewhere in `t`. */
  predicate Occurs(t: Trace, e: Event)
  {
    match t
    case Empty => false
    case Snoc(f, x) => x == e || Occurs(f, e)
  }

  /** `a` followed by `b`. */
  function Cat(a: Trace, b: Trace): Trace
  {
    match b
    case Empty => a
    case Snoc(f, e) => Snoc(Cat(a, f), e)
  }

  lemma {:induction false} CatEmpty(t: Trace)
    ensures Cat(Empty, t) == t
  {
    match t
    case Empty =>
    case Snoc(f, _) =>
      CatEmpty(f);
  }

  lemma {:induction false} OccursCat(a: Trace, b: Trace, e: Event)
    ensures Occurs(Cat(a, b), e) <==> Occurs(a, e) || Occurs(b, e)
  {
    match b
    case Empty =>
    case Snoc(f, _) =>
      OccursCat(a, f, e);
  }

  /** `t`, followed by `e` when `present`. */
  function Optional(t: Trace, present: bool, e: Event): Trace
  {
    if present then Snoc(t, e) else t
  }

  /** The events of `t` whose kind is in `ks`, in their order in `t`. */
  function Filter(t: Trace, ks: set<Kind>): Trace
  {
    match t
    case Empty => Empty
    case Snoc(f, e) => Optional(Filter(f, ks), KindOf(e) in ks, e)
  }

  /** Filtering distributes over concatenation. */
  lemma {:induction false} FilterCat(a: Trace, b: Trace, ks: set<Kind>)
    ensures Filter(Cat(a, b), ks) == Cat(Filter(a, ks), Filter(b, ks))
  {
    match b
    case Empty =>
    case Snoc(f, e) =>
      FilterCat(a, f, ks);
  }

  lemma FilterOptional(t: Trace, present: bool, e: Event, ks: set<Kind>)
    ensures Filter(Optional(t, present, e), ks) == Optional(Filter(t, ks), present && KindOf(e) in ks, e)
  {
  }

  /** An event of a kept kind occurs in `t` exactly when it occurs in `Filter(t, ks)`. */
  lemma {:induction false} FilterOccurs(t: Trace, ks: set<Kind>, e: Event)
    requires KindOf(e) in ks
    ensures Occurs(t, e) <==> Occurs(Filter(t, ks), e)
  {
    match t
    case Empty =>
    case Snoc(f, x) =>
      FilterOccurs(f, ks, e);
  }

  /** The first four events of every batch: zero_grad, the routed loss, backward, step. */
  function Core(task: string, fp16: bool): Trace
  {
    Snoc(Snoc(Snoc(Snoc(Empty, ZeroGrad), Loss(task, SelectCriterion(task))), Backward(fp16)), OptimizerStep)
  }

  /** The events of batch number `i` (from 0) of an epoch: lines 43-85. */
  function BatchEvents(b: Batch, i: nat, fp16: bool): Trace
    requires b.tasknames != []
  {
    var task := TaskOf(b);
    Optional(Optional(Core(task, fp16), i == 0, SanityDump(i, task)), i % 10 == 0, LossLine(i, task))
  }

  /** The events of an epoch up to and including batch `n - 1`: the mode switch, then each batch. */
  function EpochPrefix(batches: seq<Batch>, fp16: bool, n: nat): Trace
    requires n <= |batches| && WellFormed(batches)
  {
    if n == 0 then Snoc(Empty, TrainMode)
    else Cat(EpochPrefix(batches, fp16, n - 1), BatchEvents(batches[n - 1], n - 1, fp16))
  }

  /** The events of a whole epoch over `batches`, in the order the loader yields them. */
  function EpochTrace(batches: seq<Batch>, fp16: bool): Trace
    requires WellFormed(batches)
  {
    EpochPrefix(batches, fp16, |batches|)
  }

  /** One round of zero_grad, backward, step. */
  function Round(fp16: bool): Trace
  {
    Snoc(Snoc(Snoc(Empty, ZeroGrad), Backward(fp16)), OptimizerStep)
  }

  /** `n` rounds of zero_grad, backward, step. */
  function UpdateRounds(n: nat, fp16: bool): Trace
  {
    if n == 0 then Empty else Cat(UpdateRounds(n - 1, fp16), Round(fp16))
  }

  /** Filtering one batch: the four core events, then the optional dump and loss line. */
  lemma BatchEventsFilter(b: Batch, i: nat, fp16: bool, ks: set<Kind>)
    requires b.tasknames != []
    ensures var task := TaskOf(b);
      Filter(BatchEvents(b, i, fp16), ks) ==
        Optional(Optional(Filter(Core(task, fp16), ks), i == 0 && DumpKind in ks, SanityDump(i, task)),
                 i % 10 == 0 && LossLineKind in ks, LossLine(i, task))
  {
    var task := TaskOf(b);
    FilterOptional(Optional(Core(task, fp16), i == 0, SanityDump(i, task)), i % 10 == 0, LossLine(i, task), ks);
    FilterOptional(Core(task, fp16), i == 0, SanityDump(i, task), ks);
  }

  /** A batch contributes one zero_grad, backward and step, in that order. */
  lemma BatchUpdates(b: Batch, i: nat, fp16: bool)
    requires b.tasknames != []
    ensures Filter(BatchEvents(b, i, fp16), UpdateKinds) == Round(fp16)
  {
    BatchEventsFilter(b, i, fp16, UpdateKinds);
    assert Filter(Snoc(Snoc(Empty, ZeroGrad), Loss(TaskOf(b), SelectCriterion(TaskOf(b)))), UpdateKinds) == Snoc(Empty, ZeroGrad);
  }

  /** A batch contributes one loss, routed by its task name. */
  lemma BatchLoss(b: Batch, i: nat, fp16: bool)
    requires b.tasknames != []
    ensures Filter(BatchEvents(b, i, fp16), {LossKind}) == Snoc(Empty, Loss(TaskOf(b), SelectCriterion(TaskOf(b))))
  {
    BatchEventsFilter(b, i, fp16, {LossKind});
    assert Filter(Snoc(Snoc(Empty, ZeroGrad), Loss(TaskOf(b), SelectCriterion(TaskOf(b)))), {LossKind}) ==
      Snoc(Empty, Loss(TaskOf(b), SelectCriterion(TaskOf(b))));
  }

  /** Batch `i` prints the sanity dump exactly when `i == 0`. */
  lemma BatchDump(b: Batch, i: nat, fp16: bool)
    requires b.tasknames != []
    ensures Filter(BatchEvents(b, i, fp16), {DumpKind}) == Optional(Empty, i == 0, SanityDump(i, TaskOf(b)))
  {
    BatchEventsFilter(b, i, fp16, {DumpKind});
    assert Filter(Snoc(Snoc(Empty, ZeroGrad), Loss(TaskOf(b), SelectCriterion(TaskOf(b)))), {DumpKind}) == Empty;
  }

  /** Batch `i` prints a loss line exactly when `i % 10 == 0`. */
  lemma BatchLossLine(b: Batch, i: nat, fp16: bool)
    requires b.tasknames != []
    ensures Filter(BatchEvents(b, i, fp16), {LossLineKind}) == Optional(Empty, i % 10 == 0, LossLine(i, TaskOf(b)))
  {
    BatchEventsFilter(b, i, fp16, {LossLineKind});
    assert Filter(Snoc(Snoc(Empty, ZeroGrad), Loss(TaskOf(b), SelectCriterion(TaskOf(b)))), {LossLineKind}) == Empty;
  }

  /** A batch produces no event of a kind outside BatchKinds. */
  lemma BatchOtherKinds(b: Batch, i: nat, fp16: bool, ks: set<Kind>)
    requires b.tasknames != []
    requires ks * BatchKinds == {}
    ensures Filter(BatchEvents(b, i, fp16), ks) == Empty
  {
    forall x | x in BatchKinds ensures x !in ks {
      assert x in ks ==> x in ks * BatchKinds;
    }
    assert ZeroGradKind !in ks && LossKind !in ks && BackwardKind !in ks;
    assert StepKind !in ks && DumpKind !in ks && LossLineKind !in ks;
    BatchEventsFilter(b, i, fp16, ks);
    assert Filter(Snoc(Empty, ZeroGrad), ks) == Empty;
    assert Filter(Snoc(Snoc(Empty, ZeroGrad), Loss(TaskOf(b), SelectCriterion(TaskOf(b)))), ks) == Empty;
  }

  lemma {:induction false} PrefixUpdates(batches: seq<Batch>, fp16: bool, n: nat)
    requires n <= |batches| && WellFormed(batches)
    ensures Filter(EpochPrefix(batches, fp16, n), UpdateKinds) == UpdateRounds(n, fp16)
    decreases n
  {
    if n > 0 {
      PrefixUpdates(batches, fp16, n - 1);
      FilterCat(EpochPrefix(batches, fp16, n - 1), BatchEvents(batches[n - 1], n - 1, fp16), UpdateKinds);
      BatchUpdates(batches[n - 1], n - 1, fp16);
    }
  }

  /** `l` holds the losses of the first `n` batches, in batch order, each routed by its batch's task name. */
  predicate LossesOf(l: Trace, batches: seq<Batch>, n: nat)
    requires n <= |batches| && WellFormed(batches)
  {
    Length(l) == n && forall k :: 0 <= k < n ==> At(l, k) == Loss(TaskOf(batches[k]), SelectCriterion(TaskOf(batches[k])))
  }

  lemma {:induction false} PrefixLosses(batches: seq<Batch>, fp16: bool, n: nat)
    requires n <= |batches| && WellFormed(batches)
    ensures LossesOf(Filter(EpochPrefix(batches, fp16, n), {LossKind}), batches, n)
    decreases n
  {
    if n > 0 {
      var prev := Filter(EpochPrefix(batches, fp16, n - 1), {LossKind});
      PrefixLosses(batches, fp16, n - 1);
      FilterCat(EpochPrefix(batches, fp16, n - 1), BatchEvents(batches[n - 1], n - 1, fp16), {LossKind});
      BatchLoss(batches[n - 1], n - 1, fp16);
      assert Filter(EpochPrefix(batches, fp16, n), {LossKind}) ==
        Snoc(prev, Loss(TaskOf(batches[n - 1]), SelectCriterion(TaskOf(batches[n - 1]))));
    }
  }

  lemma {:induction false} PrefixDumps(batches: seq<Batch>, fp16: bool, n: nat)
    requires n <= |batches| && WellFormed(batches)
    ensures Filter(EpochPrefix(batches, fp16, n), {DumpKind}) ==
      if n == 0 then Empty else Snoc(Empty, SanityDump(0, TaskOf(batches[0])))
    decreases n
  {
    if n > 0 {
      PrefixDumps(batches, fp16, n - 1);
      FilterCat(EpochPrefix(batches, fp16, n - 1), BatchEvents(batches[n - 1], n - 1, fp16), {DumpKind});
      BatchDump(batches[n - 1], n - 1, fp16);
    }
  }

  /** `l` is the loss lines of the first `n` batches: one for each index that is a multiple of 10. */
  predicate LossLinesOf(l: Trace, batches: seq<Batch>, n: nat)
    requires n <= |batches| && WellFormed(batches)
  {
    Length(l) == (n + 9) / 10 &&
    forall k :: 0 <= k < Length(l) ==> 10 * k < n && At(l, k) == LossLine(10 * k, TaskOf(batches[10 * k]))
  }

  /** How the number of loss lines grows with one more batch. */
  lemma LossLineCountStep(n: nat)
    requires n > 0
    ensures (n - 1) % 10 == 0 ==> (n + 9) / 10 == (n + 8) / 10 + 1 && 10 * ((n + 8) / 10) == n - 1
    ensures (n - 1) % 10 != 0 ==> (n + 9) / 10 == (n + 8) / 10
  {
  }

  lemma LossLinesExtend(l: Trace, batches: seq<Batch>, n: nat)
    requires 0 < n <= |batches| && WellFormed(batches)
    requires LossLinesOf(l, batches, n - 1)
    ensures LossLinesOf(Optional(l, (n - 1) % 10 == 0, LossLine(n - 1, TaskOf(batches[n - 1]))), batches, n)
  {
    LossLineCountStep(n);
  }

  lemma {:induction false} PrefixLossLines(batches: seq<Batch>, fp16: bool, n: nat)
    requires n <= |batches| && WellFormed(batches)
    ensures LossLinesOf(Filter(EpochPrefix(batches, fp16, n), {LossLineKind}), batches, n)
    decreases n
  {
    if n > 0 {
      PrefixLossLines(batches, fp16, n - 1);
      FilterCat(EpochPrefix(batches, fp16, n - 1), BatchEvents(batches[n - 1], n - 1, fp16), {LossLineKind});
      BatchLossLine(batches[n - 1], n - 1, fp16);
      LossLinesExtend(Filter(EpochPrefix(batches, fp16, n - 1), {LossLineKind}), batches, n);
    }
  }

  /** Apart from the opening mode switch, an epoch produces only per-batch events. */
  lemma {:induction false} PrefixOtherKinds(batches: seq<Batch>, fp16: bool, n: nat, ks: set<Kind>)
    requires n <= |batches| && WellFormed(batches)
    requires ks * BatchKinds == {}
    ensures Filter(EpochPrefix(batches, fp16, n), ks) == Optional(Empty, TrainModeKind in ks, TrainMode)
    decreases n
  {
    if n > 0 {
      PrefixOtherKinds(batches, fp16, n - 1, ks);
      FilterCat(EpochPrefix(batches, fp16, n - 1), BatchEvents(batches[n - 1], n - 1, fp16), ks);
      BatchOtherKinds(batches[n - 1], n - 1, fp16, ks);
    }
  }

  /** The step counter and gradient buffer of the optimizer, as `train` changes them. */
  class Optimizer {
    /** Number of optimizer.step() calls so far. */
    var steps: nat
    /** Backward passes whose gradients have accumulated since the last zero_grad. */
    var pending: nat

    constructor ()
      ensures steps == 0 && pending == 0
    {
      steps := 0;
      pending := 0;
    }

    method ZeroGrad()
      modifies this
      ensures steps == old(steps) && pending == 0
    {
      pending := 0;
    }

    method Backward()
      modifies this
      ensures steps == old(steps) && pending == old(pending) + 1
    {
      pending := pending + 1;
    }

    method Step()
      modifies this
      ensures steps == old(steps) + 1 && pending == old(pending)
    {
      steps := steps + 1;
    }
  }

  /**
   * One epoch of `train`: for every batch, in order, zero the gradients, run
   * the routed loss, back-propagate (scaled when `fp16`) and step; afterwards
   * every step applied the gradients of exactly one backward pass.
   */
  method Train(opt: Optimizer, batches: seq<Batch>, fp16: bool) returns (trace: Trace)
    requires WellFormed(batches)
    modifies opt
    ensures trace == EpochTrace(batches, fp16)
    ensures opt.steps == old(opt.steps) + |batches|
    ensures opt.pending == if batches == [] then old(opt.pending) else 1
  {
    trace := Snoc(Empty, TrainMode);
    var i := 0;
    while i < |batches|
      invariant 0 <= i <= |batches|
      invariant trace == EpochPrefix(batches, fp16, i)
      invariant opt.steps == old(opt.steps) + i
      invariant opt.pending == if i == 0 then old(opt.pending) else 1
    {
      var taskname := batches[i].tasknames[0];
      var criterion := SelectCriterion(taskname);
      opt.ZeroGrad();
      var events := Snoc(Snoc(Empty, ZeroGrad), Loss(taskname, criterion));
      opt.Backward();
      events := Snoc(events, Backward(fp16));
      opt.Step();
      events := Snoc(events, OptimizerStep);
      if i == 0 {
        events := Snoc(events, SanityDump(i, taskname));
      }
      if i % 10 == 0 {
        events := Snoc(events, LossLine(i, taskname));
      }
      trace := Cat(trace, events);
      i := i + 1;
    }
  }

  /** Each batch gets exactly one zero_grad, backward and step, in that order; the backward is scaled exactly when `fp16`. */
  lemma EpochUpdates(batches: seq<Batch>, fp16: bool)
    requires WellFormed(batches)
    ensures Filter(EpochTrace(batches, fp16), UpdateKinds) == UpdateRounds(|batches|, fp16)
  {
    PrefixUpdates(batches, fp16, |batches|);
  }

  /** The loss of batch `k` is computed `k`-th, with the criterion its task name routes to. */
  lemma EpochLossesInBatchOrder(batches: seq<Batch>, fp16: bool)
    requires WellFormed(batches)
    ensures var l := Filter(EpochTrace(batches, fp16), {LossKind});
      Length(l) == |batches| &&
      forall k :: 0 <= k < |batches| ==> At(l, k) == Loss(TaskOf(batches[k]), SelectCriterion(TaskOf(batches[k])))
  {
    PrefixLosses(batches, fp16, |batches|);
  }

  /** The sanity dump is printed once, for batch 0, and never for an empty source. */
  lemma EpochSanityDump(batches: seq<Batch>, fp16: bool)
    requires WellFormed(batches)
    ensures Filter(EpochTrace(batches, fp16), {DumpKind}) ==
      if batches == [] then Empty else Snoc(Empty, SanityDump(0, TaskOf(batches[0])))
  {
    PrefixDumps(batches, fp16, |batches|);
  }

  /** Loss lines are printed for batches 0, 10, 20, ...: ceil(n / 10) of them for n batches. */
  lemma EpochLossLines(batches: seq<Batch>, fp16: bool)
    requires WellFormed(batches)
    ensures var l := Filter(EpochTrace(batches, fp16), {LossLineKind});
      Length(l) == (|batches| + 9) / 10 &&
      forall k :: 0 <= k < Length(l) ==> 10 * k < |batches| && At(l, k) == LossLine(10 * k, TaskOf(batches[10 * k]))
  {
    PrefixLossLines(batches, fp16, |batches|);
  }

  /** An empty batch source: the model is put in training mode and nothing else happens. */
  lemma EmptyEpoch(fp16: bool)
    ensures EpochTrace([], fp16) == Snoc(Empty, TrainMode)
  {
  }
}
