/**
 * The loss router of `train` (snippext/baseline.py:37-50): the criterion for a
 * batch is chosen by a substring test on the batch's first task name and on
 * nothing else; the task type declared in the configuration is never consulted.
 */
module LossRouter {
  import Strings

  /** The marker whose presence in a task name makes it a tagging task. */
  const TaggingMarker: string := "tagging"

  /** The label index the tagging loss ignores (the padding label). */
  const PaddingLabel: int := 0

  /** The two cross-entropy criteria `train` builds before its loop. */
  datatype Criterion =
    | CrossEntropy                          // nn.CrossEntropyLoss()
    | CrossEntropyIgnoring(ignoreIndex: int) // nn.CrossEntropyLoss(ignore_index=...)

  /** The criterion used for a batch whose first task name is `taskname`. */
  function SelectCriterion(taskname: string): Criterion
  {
    if Strings.Contains(taskname, TaggingMarker) then CrossEntropyIgnoring(PaddingLabel) else CrossEntropy
  }

  /**
   * The padding-ignoring criterion is chosen exactly when the marker occurs
   * somewhere in the name, and the plain one exactly when it occurs nowhere.
   */
  lemma SelectCriterionBySubstring(taskname: string)
    ensures SelectCriterion(taskname) == CrossEntropyIgnoring(PaddingLabel) <==>
      exists i :: Strings.OccursAt(taskname, TaggingMarker, i)
    ensures SelectCriterion(taskname) == CrossEntropy <==>
      !exists i :: Strings.OccursAt(taskname, TaggingMarker, i)
  {
    Strings.ContainsIffOccurs(taskname, TaggingMarker);
  }

  /** Whether a label position with value `y` takes part in the loss under `c`. */
  predicate Contributes(c: Criterion, y: int)
  {
    match c
    case CrossEntropy => true
    case CrossEntropyIgnoring(k) => y != k
  }

  /**
   * The label positions, in order, that contribute to the loss (and so to the
   * gradient). Labels are class indices, so they are never negative.
   */
  function ContributingPositions(c: Criterion, labels: seq<nat>): (r: seq<nat>)
    ensures forall k :: 0 <= k < |r| ==> r[k] < |labels| && Contributes(c, labels[r[k]])
    ensures forall i :: 0 <= i < |labels| && Contributes(c, labels[i]) ==> i in r
    ensures forall k, m :: 0 <= k < m < |r| ==> r[k] < r[m]
    decreases |labels|
  {
    if labels == [] then []
    else
      var front := ContributingPositions(c, labels[..|labels| - 1]);
      assert forall k :: 0 <= k < |front| ==> labels[front[k]] == labels[..|labels| - 1][front[k]];
      if Contributes(c, labels[|labels| - 1]) then front + [|labels| - 1] else front
  }

  /** Under the tagging criterion no padding position contributes; under the plain one every position does. */
  lemma PaddingIgnoredOnlyByTagging(taskname: string, labels: seq<nat>)
    ensures var r := ContributingPositions(SelectCriterion(taskname), labels);
      (Strings.Contains(taskname, TaggingMarker) ==>
         forall k :: 0 <= k < |r| ==> labels[r[k]] != PaddingLabel) &&
      (!Strings.Contains(taskname, TaggingMarker) ==>
         forall i :: 0 <= i < |labels| ==> i in r)
  {
    Strings.ContainsIffOccurs(taskname, TaggingMarker);
  }

  /**
   * A classification task whose name happens to contain the marker is routed to
   * the tagging criterion (the name used here is illustrative).
   */
  lemma ClassificationNameWithMarkerIsTagging()
    ensures SelectCriterion("review_tagging_polarity") == CrossEntropyIgnoring(0)
  {
    assert Strings.OccursAt("review_tagging_polarity", TaggingMarker, 7);
    Strings.ContainsIffOccurs("review_tagging_polarity", TaggingMarker);
  }

  /** A tagging task whose name lacks the marker gets the plain criterion. */
  lemma TaggingNameWithoutMarkerIsPlain()
    ensures SelectCriterion("hotel_ner") == CrossEntropy
  {
    var name := "hotel_ner";
    assert name[0] != 't' && name[1..][0] != 't' && name[2..][1] != 'a';
    assert !Strings.Contains(name[2..], TaggingMarker);
    assert !Strings.Contains(name, TaggingMarker);
  }
}
