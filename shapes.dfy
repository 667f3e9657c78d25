/**
 * The reshaping in `train` before the loss is computed
 * (snippext/baseline.py:55-56), as arithmetic on dimension lists:
 * `logits.view(-1, logits.shape[-1])` and `y.view(-1)`.
 */
module Shapes {
  import opened Wrappers

  /** Number of elements of a tensor with the given dimensions (1 for a 0-dimensional tensor). */
  function Product(dims: seq<nat>): nat
    decreases |dims|
  {
    if dims == [] then 1 else Product(dims[..|dims| - 1]) * dims[|dims| - 1]
  }

  /**
   * `logits.view(-1, logits.shape[-1])`. It fails on a 0-dimensional tensor
   * (there is no last dimension) and when the last dimension is 0 (the size
   * inferred for -1 is then ambiguous); otherwise every leading dimension is
   * folded into one.
   */
  function FlattenLogits(shape: seq<nat>): (r: Option<seq<nat>>)
    ensures r.Some? <==> |shape| > 0 && shape[|shape| - 1] > 0
    ensures r.Some? ==> |r.value| == 2 && r.value[1] == shape[|shape| - 1]
    ensures r.Some? ==> Product(r.value) == Product(shape)
  {
    if |shape| == 0 || shape[|shape| - 1] == 0 then None
    else
      var c := shape[|shape| - 1];
      var rows := Product(shape[..|shape| - 1]);
      assert [rows, c][..1] == [rows] && [rows][..0] == [];
      assert Product([rows]) == rows;
      Some([rows, c])
  }

  /** `y.view(-1)`: a vector holding every element of the label tensor. */
  function FlattenLabels(shape: seq<nat>): (r: seq<nat>)
    ensures |r| == 1 && Product(r) == Product(shape)
  {
    var n := Product(shape);
    assert [n][..0] == [];
    [n]
  }

  /**
   * When the logits carry one class axis of size `classes` after the label
   * dimensions, the two flattened tensors line up: one logits row per label,
   * as the criterion call needs.
   */
  lemma FlattenedShapesAgree(labelShape: seq<nat>, classes: nat)
    requires classes > 0
    ensures FlattenLogits(labelShape + [classes]) == Some([Product(labelShape), classes])
    ensures FlattenLabels(labelShape) == [Product(labelShape)]
  {
    assert (labelShape + [classes])[..|labelShape|] == labelShape;
  }

  /** Tagging: `batch x seq x classes` logits against `batch x seq` labels: `batch*seq` rows. */
  lemma TaggingFlatten(batch: nat, seqLen: nat, classes: nat)
    requires classes > 0
    ensures FlattenLogits([batch, seqLen, classes]) == Some([batch * seqLen, classes])
    ensures FlattenLabels([batch, seqLen]) == [batch * seqLen]
  {
    FlattenedShapesAgree([batch, seqLen], classes);
    assert [batch, seqLen][..1] == [batch];
    assert [batch][..0] == [];
    assert Product([batch]) == batch;
    assert [batch, seqLen] + [classes] == [batch, seqLen, classes];
  }

  /** Classification: `batch x classes` logits against `batch` labels: `batch` rows. */
  lemma ClassificationFlatten(batch: nat, classes: nat)
    requires classes > 0
    ensures FlattenLogits([batch, classes]) == Some([batch, classes])
    ensures FlattenLabels([batch]) == [batch]
  {
    FlattenedShapesAgree([batch], classes);
    assert [batch][..0] == [];
    assert [batch] + [classes] == [batch, classes];
  }
}
