/**
 * The run tag built in the `__main__` block (snippext/baseline.py:201-204) and
 * the checkpoint paths derived from it in `initialize_and_train`
 * (snippext/baseline.py:163, 166).
 */
module RunTags {
  import opened Strings

  /** `'baseline_task_%s_lm_%s_batch_size_%d_run_id_%d' % (task, lm, batch_size, run_id)`. */
  function RunTag(task: string, lm: string, batchSize: int, runId: int): string
  {
    "baseline_task_" + task + "_lm_" + lm + "_batch_size_" + DecimalString(batchSize) + "_run_id_" + DecimalString(runId)
  }

  /** The two checkpoints a run can write. */
  datatype CheckpointKind = DevBest | TestBest

  function Suffix(kind: CheckpointKind): string
  {
    match kind
    case DevBest => "_dev.pt"
    case TestBest => "_test.pt"
  }

  /** `run_tag + '_dev.pt'` or `run_tag + '_test.pt'`: the file is named inside the run's namespace. */
  function CheckpointPath(tag: string, kind: CheckpointKind): (p: string)
    ensures |tag| < |p| && p[..|tag|] == tag
  {
    tag + Suffix(kind)
  }

  /** No two (tag, kind) pairs share a checkpoint file: the two checkpoints of a run, and the checkpoints of different runs, never overwrite each other. */
  lemma CheckpointPathInjective(tag1: string, kind1: CheckpointKind, tag2: string, kind2: CheckpointKind)
    ensures CheckpointPath(tag1, kind1) == CheckpointPath(tag2, kind2) <==> tag1 == tag2 && kind1 == kind2
  {
    var p1, p2 := CheckpointPath(tag1, kind1), CheckpointPath(tag2, kind2);
    if p1 == p2 {
      if kind1 == kind2 {
        assert tag1 == p1[..|tag1|];
      } else {
        // The suffixes differ in their seventh character from the end.
        IndexInConcat(tag1, Suffix(kind1), |p1| - 7);
        IndexInConcat(tag2, Suffix(kind2), |p2| - 7);
        assert false;
      }
    }
  }

  lemma IndexInConcat(a: string, b: string, i: int)
    ensures 0 <= i < |a| ==> (a + b)[i] == a[i]
    ensures |a| <= i < |a| + |b| ==> (a + b)[i] == b[i - |a|]
  {
  }

  /** When the first underscores of two strings come after underscore-free prefixes, equal strings have equal prefixes. */
  lemma SplitAtUnderscore(a: string, x: string, b: string, y: string)
    requires forall k :: 0 <= k < |a| ==> a[k] != '_'
    requires forall k :: 0 <= k < |b| ==> b[k] != '_'
    requires |x| > 0 && x[0] == '_' && |y| > 0 && y[0] == '_'
    requires a + x == b + y
    ensures a == b && x == y
  {
    if |a| < |b| {
      IndexInConcat(a, x, |a|);
      IndexInConcat(b, y, |a|);
      assert false;
    } else if |b| < |a| {
      IndexInConcat(a, x, |b|);
      IndexInConcat(b, y, |b|);
      assert false;
    } else {
      assert a == (a + x)[..|a|] && b == (b + y)[..|b|];
      assert x == (a + x)[|a|..] && y == (b + y)[|b|..];
    }
  }

  /** The part of the tag that precedes the batch size. */
  function TagHead(task: string, lm: string): string
  {
    "baseline_task_" + task + "_lm_" + lm + "_batch_size_"
  }

  lemma RunTagShape(task: string, lm: string, batchSize: int, runId: int)
    ensures RunTag(task, lm, batchSize, runId) ==
      TagHead(task, lm) + (DecimalString(batchSize) + ("_run_id_" + DecimalString(runId)))
  {
  }

  /** Equal strings with a common prefix have equal remainders. */
  lemma PrefixCancel(p: string, x: string, y: string)
    requires p + x == p + y
    ensures x == y
  {
    assert x == (p + x)[|p|..];
    assert y == (p + y)[|p|..];
  }

  /** For a fixed task and backbone, the tag determines the batch size and the run id. */
  lemma RunTagIdentifiesNumbers(task: string, lm: string, batchSize1: int, runId1: int, batchSize2: int, runId2: int)
    ensures RunTag(task, lm, batchSize1, runId1) == RunTag(task, lm, batchSize2, runId2)
        <==> batchSize1 == batchSize2 && runId1 == runId2
  {
    if RunTag(task, lm, batchSize1, runId1) == RunTag(task, lm, batchSize2, runId2) {
      var d1, d2 := DecimalString(batchSize1), DecimalString(batchSize2);
      var r1, r2 := DecimalString(runId1), DecimalString(runId2);
      RunTagShape(task, lm, batchSize1, runId1);
      RunTagShape(task, lm, batchSize2, runId2);
      PrefixCancel(TagHead(task, lm), d1 + ("_run_id_" + r1), d2 + ("_run_id_" + r2));
      DecimalHasNoUnderscore(batchSize1);
      DecimalHasNoUnderscore(batchSize2);
      SplitAtUnderscore(d1, "_run_id_" + r1, d2, "_run_id_" + r2);
      PrefixCancel("_run_id_", r1, r2);
      DecimalInjective(batchSize1, batchSize2);
      DecimalInjective(runId1, runId2);
    }
  }

  /** The tag does not determine the task and backbone names: `_lm_` inside a name makes two runs collide. */
  lemma RunTagAmbiguousInNames()
    ensures RunTag("a_lm_b", "c", 32, 0) == RunTag("a", "b_lm_c", 32, 0)
  {
    assert "baseline_task_" + "a_lm_b" + "_lm_" + "c" == "baseline_task_" + "a" + "_lm_" + "b_lm_c";
  }
}
