/**
 * The second-opinion model's bookkeeping (predictor.py, class `Verifier`):
 * resolving a verification once the primary prediction is resolved, and
 * classifying the newest batch of resolved verifications. The learning the
 * language model writes for an extreme verification is the function `learn`.
 */
module Verifier {
  import opened Wrappers
  import opened Records
  import opened Queries
  import Store

  /** The verifier was right exactly when it agreed with a right call or disagreed with a wrong one. */
  function GptWasCorrect(agrees: bool, claudeWasCorrect: bool): (r: bool)
    ensures r <==> (agrees <==> claudeWasCorrect)
  {
    if agrees then claudeWasCorrect else !claudeWasCorrect
  }

  /** `resolve_verification`, with the clock read by the caller. */
  method ResolveVerification(db: Store.Database, v: VerifierPrediction, claudeWasCorrect: bool, now: Timestamp)
    returns (r: VerifierPrediction)
    requires db.Valid()
    modifies db
    ensures db.Valid()
    ensures r == v.(resolvedAt := Some(now), gptWasCorrect := Some(GptWasCorrect(v.agreesWithClaude, claudeWasCorrect)))
    ensures db.verifierPredictions == Store.UpdatedVerifier(old(db.verifierPredictions), r)
    ensures db.predictions == old(db.predictions)
    ensures db.metaLearnings == old(db.metaLearnings) && db.consensusOutcomes == old(db.consensusOutcomes)
  {
    r := v.(resolvedAt := Some(now));
    if v.agreesWithClaude {
      r := r.(gptWasCorrect := Some(claudeWasCorrect));
    } else {
      r := r.(gptWasCorrect := Some(!claudeWasCorrect));
    }
    db.UpdateVerifierResolution(r);
  }

  /**
   * The four verifier rules, tried in order. A verification that agreed
   * is extreme only when it was wrong with a confidence of at most 20 or at
   * least 80; every disagreement is extreme.
   */
  function VerifierRule(v: VerifierPrediction): (r: Option<VerifierReason>)
    ensures r.None? <==> v.agreesWithClaude && (!v.Wrong() || 20 < v.confidenceClaudeCorrect < 80)
    ensures r == Some(CaughtClaudeError) ==> !v.agreesWithClaude && !v.Wrong()
    ensures r == Some(FalseAlarm) ==>
      !v.agreesWithClaude && v.Wrong() && 20 < v.confidenceClaudeCorrect < 80
    ensures r.Some? && (r.value.VerifierHighConfidenceWrong? || r.value.VerifierLowConfidenceWrong?) ==>
      v.Wrong() && r.value.confidence == v.confidenceClaudeCorrect
    ensures v.Wrong() && v.confidenceClaudeCorrect >= 80 ==>
      r == Some(VerifierHighConfidenceWrong(v.confidenceClaudeCorrect))
    ensures v.Wrong() && v.confidenceClaudeCorrect <= 20 ==>
      r == Some(VerifierLowConfidenceWrong(v.confidenceClaudeCorrect))
  {
    if v.Wrong() && v.confidenceClaudeCorrect >= 80 then Some(VerifierHighConfidenceWrong(v.confidenceClaudeCorrect))
    else if v.Wrong() && v.confidenceClaudeCorrect <= 20 then Some(VerifierLowConfidenceWrong(v.confidenceClaudeCorrect))
    else if !v.Wrong() && !v.agreesWithClaude then Some(CaughtClaudeError)
    else if v.Wrong() && !v.agreesWithClaude then Some(FalseAlarm)
    else None
  }

  /**
   * On a verification resolved against the primary's outcome, a caught
   * error is a disagreement with a wrong call and a false alarm is a
   * disagreement with a right call made with middling confidence.
   */
  lemma ResolvedRuleOutcome(v: VerifierPrediction, claudeWasCorrect: bool, now: Timestamp)
    ensures var w := v.(resolvedAt := Some(now),
                        gptWasCorrect := Some(GptWasCorrect(v.agreesWithClaude, claudeWasCorrect)));
      (VerifierRule(w) == Some(CaughtClaudeError) <==> !v.agreesWithClaude && !claudeWasCorrect)
      && (VerifierRule(w) == Some(FalseAlarm) <==>
            !v.agreesWithClaude && claudeWasCorrect && 20 < v.confidenceClaudeCorrect < 80)
  {
  }

  /** The row the verifier classifier writes back for `v`. */
  function ClassifiedVerifier(v: VerifierPrediction, learn: VerifierPrediction -> string): (c: VerifierPrediction)
    ensures c.(isExtreme := v.isExtreme, extremeReason := v.extremeReason,
               learningExtracted := v.learningExtracted) == v
    ensures c.isExtreme == Some(VerifierRule(v).Some?)
    ensures c.isExtreme == Some(true) ==> c.extremeReason == VerifierRule(v) && c.learningExtracted.Some?
    ensures c.isExtreme == Some(false) ==>
      c.extremeReason == v.extremeReason && c.learningExtracted == v.learningExtracted
  {
    var reason := VerifierRule(v);
    if reason.Some? then
      var flagged := v.(isExtreme := Some(true), extremeReason := reason);
      flagged.(learningExtracted := Some(learn(flagged)))
    else
      v.(isExtreme := Some(false))
  }

  function ClassifyVerifierBatch(batch: seq<VerifierPrediction>, learn: VerifierPrediction -> string)
    : (cs: seq<VerifierPrediction>)
    ensures |cs| == |batch|
  {
    seq(|batch|, i requires 0 <= i < |batch| => ClassifiedVerifier(batch[i], learn))
  }

  predicate IsFlagged(v: VerifierPrediction) { v.isExtreme == Some(true) }

  lemma PrefixStep(t: seq<VerifierPrediction>, cs: seq<VerifierPrediction>, i: nat)
    requires i < |cs|
    ensures Store.ApplyVerifierUpdates(t, cs[..i + 1]) == Store.UpdatedVerifier(Store.ApplyVerifierUpdates(t, cs[..i]), cs[i])
    ensures Filter(cs[..i + 1], IsFlagged) == Filter(cs[..i], IsFlagged) + (if IsFlagged(cs[i]) then [cs[i]] else [])
  {
    assert cs[..i + 1][..i] == cs[..i];
  }

  /**
   * The verifier's `analyze_batch_for_extremes`: fewer than
   * VERIFIER_BATCH_SIZE resolved, unclassified verifications change
   * nothing; otherwise each is written back classified and the extreme
   * ones are returned in batch order.
   */
  method AnalyzeBatchForExtremes(db: Store.Database, learn: VerifierPrediction -> string)
    returns (extremes: seq<VerifierPrediction>)
    requires db.Valid()
    modifies db
    ensures db.Valid()
    ensures var batch := old(db.GetVerifierRecentForBatch(VERIFIER_BATCH_SIZE));
      |batch| < VERIFIER_BATCH_SIZE ==> extremes == [] && db.verifierPredictions == old(db.verifierPredictions)
    ensures var batch := old(db.GetVerifierRecentForBatch(VERIFIER_BATCH_SIZE));
      |batch| >= VERIFIER_BATCH_SIZE ==>
        extremes == Filter(ClassifyVerifierBatch(batch, learn), IsFlagged)
        && db.verifierPredictions == Store.ApplyVerifierUpdates(old(db.verifierPredictions), ClassifyVerifierBatch(batch, learn))
    ensures db.predictions == old(db.predictions)
    ensures db.metaLearnings == old(db.metaLearnings) && db.consensusOutcomes == old(db.consensusOutcomes)
  {
    var batch := db.GetVerifierRecentForBatch(VERIFIER_BATCH_SIZE);
    if |batch| < VERIFIER_BATCH_SIZE {
      return [];
    }
    extremes := WriteBack(db, batch, learn);
  }

  /**
   * The loop of the verifier's `analyze_batch_for_extremes`: each
   * verification of the batch, in order, is classified, written back, and
   * kept when it is extreme.
   */
  method WriteBack(db: Store.Database, batch: seq<VerifierPrediction>, learn: VerifierPrediction -> string)
    returns (extremes: seq<VerifierPrediction>)
    requires db.Valid()
    modifies db`verifierPredictions
    ensures db.Valid()
    ensures extremes == Filter(ClassifyVerifierBatch(batch, learn), IsFlagged)
    ensures db.verifierPredictions == Store.ApplyVerifierUpdates(old(db.verifierPredictions), ClassifyVerifierBatch(batch, learn))
    ensures db.predictions == old(db.predictions)
    ensures db.metaLearnings == old(db.metaLearnings) && db.consensusOutcomes == old(db.consensusOutcomes)
  {
    ghost var t0 := db.verifierPredictions;
    ghost var cs := ClassifyVerifierBatch(batch, learn);
    extremes := [];
    var i := 0;
    while i < |batch|
      invariant 0 <= i <= |batch|
      invariant db.Valid()
      invariant db.verifierPredictions == Store.ApplyVerifierUpdates(t0, cs[..i])
      invariant extremes == Filter(cs[..i], IsFlagged)
    {
      extremes := WriteBackRow(db, batch, learn, i, extremes, t0, cs);
      i := i + 1;
    }
    assert cs[..|batch|] == cs;
  }

  /** One pass of that loop: row `i` classified, written back, and kept when it is extreme. */
  method WriteBackRow(db: Store.Database, batch: seq<VerifierPrediction>, learn: VerifierPrediction -> string,
                      i: nat, extremes: seq<VerifierPrediction>,
                      ghost t0: seq<VerifierPrediction>, ghost cs: seq<VerifierPrediction>)
    returns (extremes': seq<VerifierPrediction>)
    requires db.Valid() && i < |batch| && cs == ClassifyVerifierBatch(batch, learn)
    requires db.verifierPredictions == Store.ApplyVerifierUpdates(t0, cs[..i])
    requires extremes == Filter(cs[..i], IsFlagged)
    modifies db`verifierPredictions
    ensures db.Valid()
    ensures db.verifierPredictions == Store.ApplyVerifierUpdates(t0, cs[..i + 1])
    ensures extremes' == Filter(cs[..i + 1], IsFlagged)
  {
    var v, extreme := ClassifyRow(batch[i], learn);
    extremes' := extremes;
    if extreme {
      extremes' := extremes' + [v];
    }
    PrefixStep(t0, cs, i);
    db.UpdateVerifierResolution(v);
  }

  /** The body of that loop for one verification: its classified form, and whether it is extreme. */
  method ClassifyRow(row: VerifierPrediction, learn: VerifierPrediction -> string)
    returns (v: VerifierPrediction, extreme: bool)
    ensures v == ClassifiedVerifier(row, learn)
    ensures extreme <==> IsFlagged(v)
  {
    v := row;
    var reason := VerifierRule(v);
    if reason.Some? {
      v := v.(isExtreme := Some(true), extremeReason := reason);
      v := v.(learningExtracted := Some(learn(v)));
      extreme := true;
    } else {
      v := v.(isExtreme := Some(false));
      extreme := false;
    }
  }

  /**
   * One analysis settles its batch: each verification in it is replaced by
   * its classified form, the others are untouched, and none of the batch
   * is selected again.
   */
  lemma ClassificationSettles(t: seq<VerifierPrediction>, batch: seq<VerifierPrediction>, learn: VerifierPrediction -> string)
    requires Store.VerifierIds(t)
    requires forall v :: v in batch ==> v in t && Store.IsVerifierPending(v)
    ensures var u := Store.ApplyVerifierUpdates(t, ClassifyVerifierBatch(batch, learn));
      |u| == |t|
      && (forall j :: 0 <= j < |t| ==> u[j] == if t[j] in batch then ClassifiedVerifier(t[j], learn) else t[j])
      && (forall j :: 0 <= j < |t| && Store.IsVerifierPending(u[j]) ==> Store.IsVerifierPending(t[j]) && t[j] !in batch)
  {
    var cs := ClassifyVerifierBatch(batch, learn);
    var u := Store.ApplyVerifierUpdates(t, cs);
    forall j | 0 <= j < |t|
      ensures u[j] == if t[j] in batch then ClassifiedVerifier(t[j], learn) else t[j]
    {
      SettledAt(t, batch, learn, cs, j);
    }
  }

  /** The classified rows of a batch drawn from a table with unique ids have unique ids. */
  lemma ClassifiedIdsUnique(t: seq<VerifierPrediction>, batch: seq<VerifierPrediction>, learn: VerifierPrediction -> string, cs: seq<VerifierPrediction>)
    requires Store.VerifierIds(t)
    requires forall v :: v in batch ==> v in t && Store.IsVerifierPending(v)
    requires cs == ClassifyVerifierBatch(batch, learn)
    ensures forall a, b :: 0 <= a < |cs| && 0 <= b < |cs| && cs[a].id == cs[b].id ==> cs[a] == cs[b]
  {
    forall a, b | 0 <= a < |cs| && 0 <= b < |cs| && cs[a].id == cs[b].id ensures cs[a] == cs[b] {
      assert batch[a] in batch && batch[b] in batch;
      Store.SameIdSameVerifierRow(t, batch[a], batch[b]);
    }
  }

  /** One row of the table after the batch is written back. */
  lemma SettledAt(t: seq<VerifierPrediction>, batch: seq<VerifierPrediction>, learn: VerifierPrediction -> string, cs: seq<VerifierPrediction>, j: nat)
    requires Store.VerifierIds(t)
    requires forall v :: v in batch ==> v in t && Store.IsVerifierPending(v)
    requires cs == ClassifyVerifierBatch(batch, learn)
    requires 0 <= j < |t|
    ensures Store.ApplyVerifierUpdates(t, cs)[j] == if t[j] in batch then ClassifiedVerifier(t[j], learn) else t[j]
  {
    ClassifiedIdsUnique(t, batch, learn, cs);
    Store.ApplyVerifierUpdatesAt(t, cs, j);
    if t[j] in batch {
      var k :| 0 <= k < |batch| && batch[k] == t[j];
      assert cs[k].id == t[j].id;
    } else {
      forall k | 0 <= k < |cs| ensures cs[k].id != t[j].id {
        assert batch[k] in batch;
      }
    }
  }

}
