/**
 * The primary predictor's feedback steps (predictor.py, class
 * `Predictor`): resolving a prediction against the observed price, and
 * classifying the newest batch of resolved predictions as extreme or not.
 * The price feed and the clock are parameters; the language model that
 * writes a learning for an extreme prediction is the function `learn`.
 */
module Predictor {
  import opened Wrappers
  import opened Records
  import opened Queries
  import opened Sorting
  import opened Resolve
  import Store

  /** `resolve_prediction`: a zero entry price raises before anything is written. */
  method ResolvePrediction(db: Store.Database, pred: Prediction, actualPrice: real, now: Timestamp)
    returns (r: Option<Prediction>)
    requires db.Valid()
    modifies db
    ensures db.Valid()
    ensures pred.currentPrice == 0.0 ==> r.None? && db.predictions == old(db.predictions)
    ensures pred.currentPrice != 0.0 ==>
      r == Some(pred.(resolution := Some(ResolutionOf(pred, actualPrice, now))))
      && db.predictions == Store.Updated(old(db.predictions), r.value)
    ensures db.verifierPredictions == old(db.verifierPredictions)
    ensures db.metaLearnings == old(db.metaLearnings) && db.consensusOutcomes == old(db.consensusOutcomes)
  {
    if pred.currentPrice == 0.0 {
      return None;
    }
    var resolved := pred.(resolution := Some(ResolutionOf(pred, actualPrice, now)));
    db.UpdateResolution(resolved);
    r := Some(resolved);
  }

  /** `int(n * (1 - EXTREME_PERCENTILE / 100))`: where the high-error threshold sits in the sorted errors. */
  function ThresholdIndex(n: nat): (i: nat)
    ensures n > 0 ==> i < n
  {
    n * (100 - EXTREME_PERCENTILE) / 100
  }

  /** For the batch size in use the threshold is the 19th smallest of 20 errors. */
  lemma ThresholdIndexOfBatch()
    ensures ThresholdIndex(BATCH_SIZE) == 18
    ensures BATCH_SIZE - ThresholdIndex(BATCH_SIZE) == 2
  {
  }

  predicate AllResolved(batch: seq<Prediction>) {
    forall p :: p in batch ==> p.resolution.Some?
  }

  function Errors(batch: seq<Prediction>): seq<real>
    requires AllResolved(batch)
  {
    seq(|batch|, i requires 0 <= i < |batch| => batch[i].resolution.value.targetErrorPct)
  }

  /** `sorted(target_errors)[ThresholdIndex(len(batch))]`. */
  function ErrorThreshold(batch: seq<Prediction>): real
    requires |batch| > 0 && AllResolved(batch)
  {
    SortAsc(Errors(batch))[ThresholdIndex(|batch|)]
  }

  /**
   * The four extreme rules, tried in order. A row is extreme exactly when
   * one of them holds; an accuracy verdict is only ever given to a
   * prediction whose confidence was not itself an outlier.
   */
  function PrimaryRule(confidence: int, res: Resolution, threshold: real): (r: Option<PrimaryReason>)
    ensures r.Some? <==>
      (!res.directionCorrect && confidence >= 75) || (res.directionCorrect && confidence <= 35)
      || res.targetErrorPct <= 0.05 || res.targetErrorPct >= threshold
    ensures r.Some? && (r.value.ExceptionalAccuracy? || r.value.LargeTargetMiss?) ==>
      r.value.errorPct == res.targetErrorPct
      && (if res.directionCorrect then confidence > 35 else confidence < 75)
    ensures r.Some? && r.value.LargeTargetMiss? ==> 0.05 < res.targetErrorPct && threshold <= res.targetErrorPct
    ensures r.Some? && r.value.ExceptionalAccuracy? ==> res.targetErrorPct <= 0.05
    ensures !res.directionCorrect && confidence >= 75 ==> r == Some(HighConfidenceWrong(confidence))
    ensures res.directionCorrect && confidence <= 35 ==> r == Some(LowConfidenceCorrect(confidence))
  {
    if !res.directionCorrect && confidence >= 75 then Some(HighConfidenceWrong(confidence))
    else if res.directionCorrect && confidence <= 35 then Some(LowConfidenceCorrect(confidence))
    else if res.targetErrorPct <= 0.05 then Some(ExceptionalAccuracy(res.targetErrorPct))
    else if res.targetErrorPct >= threshold then Some(LargeTargetMiss(res.targetErrorPct))
    else None
  }

  /** The worked example: an 80% UP call that fell is flagged for its confidence, whatever the batch threshold. */
  lemma ExampleConfidentMissFlagged(threshold: real)
    ensures var p := Prediction(1, 0, 50000.0, "UP", 50500.0, 80, "", None, None, None, None, None);
      PrimaryRule(80, ResolutionOf(p, 49900.0, 1), threshold) == Some(HighConfidenceWrong(80))
  {
    ExampleWrongUp();
  }

  /**
   * The row `analyze_batch_for_extremes` writes back for `p`: the flag is
   * always set; the reason and the learning only for an extreme row, whose
   * learning is asked for after the flag and reason are set.
   */
  function Classified(p: Prediction, threshold: real, learn: Prediction -> string): (c: Prediction)
    requires p.resolution.Some?
    ensures c.(isExtreme := p.isExtreme, extremeReason := p.extremeReason,
               learningExtracted := p.learningExtracted) == p
    ensures c.isExtreme == Some(PrimaryRule(p.confidence, p.resolution.value, threshold).Some?)
    ensures c.isExtreme == Some(true) ==>
      c.extremeReason == PrimaryRule(p.confidence, p.resolution.value, threshold) && c.learningExtracted.Some?
    ensures c.isExtreme == Some(false) ==>
      c.extremeReason == p.extremeReason && c.learningExtracted == p.learningExtracted
  {
    var reason := PrimaryRule(p.confidence, p.resolution.value, threshold);
    if reason.Some? then
      var flagged := p.(isExtreme := Some(true), extremeReason := reason);
      flagged.(learningExtracted := Some(learn(flagged)))
    else
      p.(isExtreme := Some(false))
  }

  function ClassifyWith(batch: seq<Prediction>, threshold: real, learn: Prediction -> string): (cs: seq<Prediction>)
    requires AllResolved(batch)
    ensures |cs| == |batch|
  {
    seq(|batch|, i requires 0 <= i < |batch| => Classified(batch[i], threshold, learn))
  }

  /** Every row of the batch, classified against the batch's own threshold. */
  function ClassifyBatch(batch: seq<Prediction>, learn: Prediction -> string): seq<Prediction>
    requires |batch| > 0 && AllResolved(batch)
  {
    ClassifyWith(batch, ErrorThreshold(batch), learn)
  }

  predicate IsFlagged(p: Prediction) { p.isExtreme == Some(true) }

  /**
   * `analyze_batch_for_extremes`: a batch shorter than BATCH_SIZE changes
   * nothing; otherwise every row of the batch is written back classified,
   * and the extreme ones are returned in batch order.
   */
  method AnalyzeBatchForExtremes(db: Store.Database, learn: Prediction -> string)
    returns (extremes: seq<Prediction>)
    requires db.Valid()
    modifies db
    ensures db.Valid()
    ensures var batch := old(db.GetRecentForBatchAnalysis(BATCH_SIZE));
      |batch| < BATCH_SIZE ==> extremes == [] && db.predictions == old(db.predictions)
    ensures var batch := old(db.GetRecentForBatchAnalysis(BATCH_SIZE));
      |batch| >= BATCH_SIZE ==>
        extremes == Filter(ClassifyBatch(batch, learn), IsFlagged)
        && db.predictions == Store.ApplyUpdates(old(db.predictions), ClassifyBatch(batch, learn))
    ensures db.verifierPredictions == old(db.verifierPredictions)
    ensures db.metaLearnings == old(db.metaLearnings) && db.consensusOutcomes == old(db.consensusOutcomes)
  {
    var batch := db.GetRecentForBatchAnalysis(BATCH_SIZE);
    if |batch| < BATCH_SIZE {
      return [];
    }
    var threshold := ErrorThreshold(batch);
    extremes := WriteBack(db, batch, threshold, learn);
  }

  /**
   * The loop of `analyze_batch_for_extremes`: each row of the batch, in
   * order, is classified, written back, and kept when it is extreme.
   */
  method WriteBack(db: Store.Database, batch: seq<Prediction>, threshold: real, learn: Prediction -> string)
    returns (extremes: seq<Prediction>)
    requires db.Valid() && AllResolved(batch)
    modifies db`predictions
    ensures db.Valid()
    ensures extremes == Filter(ClassifyWith(batch, threshold, learn), IsFlagged)
    ensures db.predictions == Store.ApplyUpdates(old(db.predictions), ClassifyWith(batch, threshold, learn))
    ensures db.verifierPredictions == old(db.verifierPredictions)
    ensures db.metaLearnings == old(db.metaLearnings) && db.consensusOutcomes == old(db.consensusOutcomes)
  {
    ghost var t0 := db.predictions;
    ghost var cs := ClassifyWith(batch, threshold, learn);
    extremes := [];
    var i := 0;
    while i < |batch|
      invariant 0 <= i <= |batch|
      invariant db.Valid()
      invariant db.predictions == Store.ApplyUpdates(t0, cs[..i])
      invariant extremes == Filter(cs[..i], IsFlagged)
    {
      extremes := WriteBackRow(db, batch, threshold, learn, i, extremes, t0, cs);
      i := i + 1;
    }
    assert cs[..|batch|] == cs;
  }

  /** One pass of that loop: row `i` classified, written back, and kept when it is extreme. */
  method WriteBackRow(db: Store.Database, batch: seq<Prediction>, threshold: real, learn: Prediction -> string,
                      i: nat, extremes: seq<Prediction>,
                      ghost t0: seq<Prediction>, ghost cs: seq<Prediction>)
    returns (extremes': seq<Prediction>)
    requires db.Valid() && AllResolved(batch) && i < |batch| && cs == ClassifyWith(batch, threshold, learn)
    requires db.predictions == Store.ApplyUpdates(t0, cs[..i])
    requires extremes == Filter(cs[..i], IsFlagged)
    modifies db`predictions
    ensures db.Valid()
    ensures db.predictions == Store.ApplyUpdates(t0, cs[..i + 1])
    ensures extremes' == Filter(cs[..i + 1], IsFlagged)
  {
    var pred, extreme := ClassifyRow(batch[i], threshold, learn);
    extremes' := extremes;
    if extreme {
      extremes' := extremes' + [pred];
    }
    PrefixStep(t0, cs, i);
    db.UpdateResolution(pred);
  }

  /** The body of that loop for one row: its classified form, and whether it is extreme. */
  method ClassifyRow(p: Prediction, threshold: real, learn: Prediction -> string)
    returns (pred: Prediction, extreme: bool)
    requires p.resolution.Some?
    ensures pred == Classified(p, threshold, learn)
    ensures extreme <==> IsFlagged(pred)
    ensures extreme <==> PrimaryRule(p.confidence, p.resolution.value, threshold).Some?
  {
    pred := p;
    var reason := PrimaryRule(pred.confidence, pred.resolution.value, threshold);
    if reason.Some? {
      pred := pred.(isExtreme := Some(true), extremeReason := reason);
      pred := pred.(learningExtracted := Some(learn(pred)));
      extreme := true;
    } else {
      pred := pred.(isExtreme := Some(false));
      extreme := false;
    }
  }

  /** Extending the processed prefix by one row: one more update, one more candidate extreme. */
  lemma PrefixStep(t: seq<Prediction>, cs: seq<Prediction>, i: nat)
    requires i < |cs|
    ensures Store.ApplyUpdates(t, cs[..i + 1]) == Store.Updated(Store.ApplyUpdates(t, cs[..i]), cs[i])
    ensures Filter(cs[..i + 1], IsFlagged) == Filter(cs[..i], IsFlagged) + (if IsFlagged(cs[i]) then [cs[i]] else [])
  {
    assert cs[..i + 1][..i] == cs[..i];
  }

  /**
   * A full batch always yields extremes: every row whose error reaches the
   * threshold is extreme, and by the choice of the threshold at least
   * `n - ThresholdIndex(n)` rows do (2 of the 20 in a batch).
   */
  lemma FullBatchHasExtremes(batch: seq<Prediction>, learn: Prediction -> string)
    requires |batch| > 0 && AllResolved(batch)
    ensures |Filter(ClassifyBatch(batch, learn), IsFlagged)| >= |batch| - ThresholdIndex(|batch|)
  {
    var threshold := ErrorThreshold(batch);
    FlaggedAtLeastCount(batch, threshold, learn);
    SortedIndexBound(Errors(batch), ThresholdIndex(|batch|));
  }

  lemma {:induction false} FlaggedAtLeastCount(batch: seq<Prediction>, threshold: real, learn: Prediction -> string)
    requires AllResolved(batch)
    ensures |Filter(ClassifyWith(batch, threshold, learn), IsFlagged)| >= CountAtLeast(Errors(batch), threshold)
    decreases |batch|
  {
    if batch != [] {
      var n := |batch| - 1;
      var init := batch[..n];
      assert AllResolved(init) by {
        forall p | p in init ensures p.resolution.Some? { assert p in batch; }
      }
      FlaggedAtLeastCount(init, threshold, learn);
      var cs := ClassifyWith(batch, threshold, learn);
      assert cs[..n] == ClassifyWith(init, threshold, learn);
      assert Errors(batch) == Errors(init) + [batch[n].resolution.value.targetErrorPct];
      CountSnoc(Errors(init), batch[n].resolution.value.targetErrorPct, threshold);
    }
  }

  /**
   * One analysis settles its batch: each batch row is replaced by its
   * classified form, every other row is untouched, and no row of the batch
   * is ever selected for analysis again.
   */
  lemma ClassificationSettles(t: seq<Prediction>, batch: seq<Prediction>, threshold: real, learn: Prediction -> string)
    requires Store.PredictionIds(t)
    requires forall p :: p in batch ==> p in t && Store.IsPending(p)
    ensures AllResolved(batch)
    ensures var u := Store.ApplyUpdates(t, ClassifyWith(batch, threshold, learn));
      |u| == |t|
      && (forall j :: 0 <= j < |t| ==> u[j] == if t[j] in batch then Classified(t[j], threshold, learn) else t[j])
      && (forall j :: 0 <= j < |t| && Store.IsPending(u[j]) ==> Store.IsPending(t[j]) && t[j] !in batch)
  {
    var cs := ClassifyWith(batch, threshold, learn);
    var u := Store.ApplyUpdates(t, cs);
    forall j | 0 <= j < |t|
      ensures u[j] == if t[j] in batch then Classified(t[j], threshold, learn) else t[j]
    {
      SettledAt(t, batch, threshold, learn, cs, j);
    }
  }

  /** The classified rows of a batch drawn from a table with unique ids have unique ids. */
  lemma ClassifiedIdsUnique(t: seq<Prediction>, batch: seq<Prediction>, threshold: real, learn: Prediction -> string, cs: seq<Prediction>)
    requires Store.PredictionIds(t)
    requires forall v :: v in batch ==> v in t && Store.IsPending(v)
    requires AllResolved(batch)
    requires cs == ClassifyWith(batch, threshold, learn)
    ensures forall a, b :: 0 <= a < |cs| && 0 <= b < |cs| && cs[a].id == cs[b].id ==> cs[a] == cs[b]
  {
    forall a, b | 0 <= a < |cs| && 0 <= b < |cs| && cs[a].id == cs[b].id ensures cs[a] == cs[b] {
      assert batch[a] in batch && batch[b] in batch;
      Store.SameIdSameRow(t, batch[a], batch[b]);
    }
  }

  /** One row of the table after the batch is written back. */
  lemma SettledAt(t: seq<Prediction>, batch: seq<Prediction>, threshold: real, learn: Prediction -> string, cs: seq<Prediction>, j: nat)
    requires Store.PredictionIds(t)
    requires forall v :: v in batch ==> v in t && Store.IsPending(v)
    requires AllResolved(batch)
    requires cs == ClassifyWith(batch, threshold, learn)
    requires 0 <= j < |t|
    ensures Store.ApplyUpdates(t, cs)[j] == if t[j] in batch then Classified(t[j], threshold, learn) else t[j]
  {
    ClassifiedIdsUnique(t, batch, threshold, learn, cs);
    Store.ApplyUpdatesAt(t, cs, j);
    if t[j] in batch {
      var k :| 0 <= k < |batch| && batch[k] == t[j];
      assert cs[k].id == t[j].id;
    } else {
      forall k | 0 <= k < |cs| ensures cs[k].id != t[j].id {
        assert batch[k] in batch;
      }
    }
  }

}
