/**
 * The prediction record store (predictor.py, class `Database`): the SQL
 * tables held in memory as sequences in insertion order. Ids come from
 * AUTOINCREMENT and rows are never deleted, so the row with id `k` is the
 * `k`-th row inserted.
 */
module Store {
  import opened Wrappers
  import opened Records
  import opened Queries

  ghost predicate PredictionIds(t: seq<Prediction>) {
    forall i :: 0 <= i < |t| ==> t[i].id == i + 1
  }

  ghost predicate VerifierIds(t: seq<VerifierPrediction>) {
    forall i :: 0 <= i < |t| ==> t[i].id == i + 1
  }

  ghost predicate RuleIds(t: seq<MetaRule>) {
    forall i :: 0 <= i < |t| ==> t[i].id == i + 1
  }

  ghost predicate OutcomeIds(t: seq<ConsensusOutcome>) {
    forall i :: 0 <= i < |t| ==> t[i].id == i + 1
  }

  /** Under sequential ids a row is determined by its id. */
  lemma SameIdSameRow(t: seq<Prediction>, a: Prediction, b: Prediction)
    requires PredictionIds(t) && a in t && b in t && a.id == b.id
    ensures a == b
  {
  }

  lemma SameIdSameVerifierRow(t: seq<VerifierPrediction>, a: VerifierPrediction, b: VerifierPrediction)
    requires VerifierIds(t) && a in t && b in t && a.id == b.id
    ensures a == b
  {
  }

  /**
   * The row an insert into `predictions` stores: creation columns only.
   * The predictor's own `save_prediction` never writes `source`, so its rows
   * come in with `p.source == None`; only the dashboard's ingestion path
   * passes a source through.
   */
  function Inserted(p: Prediction, id: int): Prediction {
    p.(id := id, resolution := None, isExtreme := None, extremeReason := None, learningExtracted := None)
  }

  /** The columns `update_resolution` writes: resolution and classification. */
  function Merge(stored: Prediction, p: Prediction): Prediction {
    stored.(resolution := p.resolution, isExtreme := p.isExtreme,
            extremeReason := p.extremeReason, learningExtracted := p.learningExtracted)
  }

  /** `UPDATE predictions SET <resolution and classification> WHERE id = p.id`. */
  function Updated(t: seq<Prediction>, p: Prediction): seq<Prediction> {
    seq(|t|, j requires 0 <= j < |t| => if t[j].id == p.id then Merge(t[j], p) else t[j])
  }

  /** The table after the updates `us`, applied in order. */
  function ApplyUpdates(t: seq<Prediction>, us: seq<Prediction>): (r: seq<Prediction>)
    ensures |r| == |t|
    decreases |us|
  {
    if us == [] then t else Updated(ApplyUpdates(t, us[..|us| - 1]), us[|us| - 1])
  }

  /**
   * When updates that share an id agree, each row ends up merged with its
   * update, and a row no update names is left as it was.
   */
  lemma {:induction false} ApplyUpdatesAt(t: seq<Prediction>, us: seq<Prediction>, j: nat)
    requires j < |t|
    requires forall a, b :: 0 <= a < |us| && 0 <= b < |us| && us[a].id == us[b].id ==> us[a] == us[b]
    ensures |ApplyUpdates(t, us)| == |t|
    ensures forall k :: 0 <= k < |us| && us[k].id == t[j].id ==> ApplyUpdates(t, us)[j] == Merge(t[j], us[k])
    ensures (forall k :: 0 <= k < |us| ==> us[k].id != t[j].id) ==> ApplyUpdates(t, us)[j] == t[j]
    decreases |us|
  {
    if us != [] {
      var n := |us| - 1;
      var init := us[..n];
      ApplyUpdatesAt(t, init, j);
      assert forall k :: 0 <= k < n ==> init[k] == us[k];
    }
  }

  /** The verifier columns `update_verifier_resolution` writes. */
  function MergeVerifier(stored: VerifierPrediction, v: VerifierPrediction): VerifierPrediction {
    stored.(resolvedAt := v.resolvedAt, gptWasCorrect := v.gptWasCorrect, isExtreme := v.isExtreme,
            extremeReason := v.extremeReason, learningExtracted := v.learningExtracted)
  }

  /** `UPDATE verifier_predictions SET ... WHERE id = v.id`. */
  function UpdatedVerifier(t: seq<VerifierPrediction>, v: VerifierPrediction): seq<VerifierPrediction> {
    seq(|t|, j requires 0 <= j < |t| => if t[j].id == v.id then MergeVerifier(t[j], v) else t[j])
  }

  function ApplyVerifierUpdates(t: seq<VerifierPrediction>, us: seq<VerifierPrediction>): (r: seq<VerifierPrediction>)
    ensures |r| == |t|
    decreases |us|
  {
    if us == [] then t else UpdatedVerifier(ApplyVerifierUpdates(t, us[..|us| - 1]), us[|us| - 1])
  }

  lemma {:induction false} ApplyVerifierUpdatesAt(t: seq<VerifierPrediction>, us: seq<VerifierPrediction>, j: nat)
    requires j < |t|
    requires forall a, b :: 0 <= a < |us| && 0 <= b < |us| && us[a].id == us[b].id ==> us[a] == us[b]
    ensures |ApplyVerifierUpdates(t, us)| == |t|
    ensures forall k :: 0 <= k < |us| && us[k].id == t[j].id ==> ApplyVerifierUpdates(t, us)[j] == MergeVerifier(t[j], us[k])
    ensures (forall k :: 0 <= k < |us| ==> us[k].id != t[j].id) ==> ApplyVerifierUpdates(t, us)[j] == t[j]
    decreases |us|
  {
    if us != [] {
      var n := |us| - 1;
      var init := us[..n];
      ApplyVerifierUpdatesAt(t, init, j);
      assert forall k :: 0 <= k < n ==> init[k] == us[k];
    }
  }

  /** Selected by the batch query: resolved and not yet classified. */
  function IsPending(p: Prediction): bool { p.resolution.Some? && p.isExtreme.None? }

  function IsVerifierPending(v: VerifierPrediction): bool { v.resolvedAt.Some? && v.isExtreme.None? }

  /** Selected by `get_all_extremes`: extreme and carrying a learning. */
  function IsLearnedExtreme(p: Prediction): bool { p.isExtreme == Some(true) && p.learningExtracted.Some? }

  function CountResolved(t: seq<Prediction>): nat
    decreases |t|
  {
    if t == [] then 0 else (if t[0].Resolved() then 1 else 0) + CountResolved(t[1..])
  }

  /** `COUNT(*) WHERE direction_correct = 1`: never more than the resolved rows. */
  function CountCorrect(t: seq<Prediction>): (r: nat)
    ensures r <= CountResolved(t)
    decreases |t|
  {
    if t == [] then 0 else (if t[0].DirectionCorrect() then 1 else 0) + CountCorrect(t[1..])
  }

  /** The rows `COUNT(*) WHERE resolved_at IS NOT NULL` counts. */
  function IsResolvedRow(p: Prediction): bool { p.Resolved() }

  /** The rows `COUNT(*) WHERE direction_correct = 1` counts. */
  function IsCorrectRow(p: Prediction): bool { p.DirectionCorrect() }

  lemma {:induction false} CountSnoc(t: seq<Prediction>, p: Prediction)
    ensures CountResolved(t + [p]) == CountResolved(t) + (if p.Resolved() then 1 else 0)
    ensures CountCorrect(t + [p]) == CountCorrect(t) + (if p.DirectionCorrect() then 1 else 0)
    decreases |t|
  {
    if t == [] {
      assert t + [p] == [p] && [p][1..] == [];
    } else {
      assert (t + [p])[0] == t[0];
      assert (t + [p])[1..] == t[1..] + [p];
      CountSnoc(t[1..], p);
    }
  }

  /** The two counts are the sizes of the two `WHERE` selections. */
  lemma {:induction false} CountsAreSelections(t: seq<Prediction>)
    ensures CountResolved(t) == |Filter(t, IsResolvedRow)|
    ensures CountCorrect(t) == |Filter(t, IsCorrectRow)|
    decreases |t|
  {
    if t != [] {
      var init := t[..|t| - 1];
      CountsAreSelections(init);
      CountSnoc(init, t[|t| - 1]);
      SplitLast(t);
    }
  }

  /** A selection from a table in id order is in id order, each row once. */
  lemma {:induction false} FilterKeepsIdOrder(t: seq<Prediction>, keep: Prediction -> bool)
    ensures PredictionIds(t) ==>
      forall i, j :: 0 <= i < j < |Filter(t, keep)| ==> Filter(t, keep)[i].id < Filter(t, keep)[j].id
    ensures PredictionIds(t) ==> forall x :: x in Filter(t, keep) ==> x.id <= |t|
    decreases |t|
  {
    if t != [] && PredictionIds(t) {
      var n := |t| - 1;
      var init := t[..n];
      assert PredictionIds(init) by {
        forall i | 0 <= i < |init| ensures init[i].id == i + 1 { assert init[i] == t[i]; }
      }
      FilterKeepsIdOrder(init, keep);
      var g := Filter(init, keep);
      var f := Filter(t, keep);
      assert f == g + (if keep(t[n]) then [t[n]] else []);
      forall i, j | 0 <= i < j < |f| ensures f[i].id < f[j].id {
        assert f[i] == g[i];
        if j >= |g| {
          assert f[j] == t[n] && t[n].id == n + 1;
          assert g[i] in g;
          assert g[i].id <= |init|;
        } else {
          assert f[j] == g[j];
        }
      }
      forall x | x in f ensures x.id <= |t| {
        if x != t[n] {
          assert x in g;
        }
      }
    }
  }

  /** `correct / resolved * 100`, or 0 with nothing resolved. */
  function AccuracyPct(correct: nat, resolved: nat): (r: real)
    requires correct <= resolved
    ensures 0.0 <= r <= 100.0
    ensures resolved == 0 ==> r == 0.0
    ensures resolved > 0 && correct == resolved ==> r == 100.0
    ensures resolved > 0 ==> r * resolved as real == correct as real * 100.0
  {
    if resolved > 0 then
      assert correct as real / resolved as real <= 1.0 by {
        assert correct as real <= resolved as real;
      }
      correct as real / resolved as real * 100.0
    else 0.0
  }

  datatype PredictorStats = PredictorStats(
    totalPredictions: nat, resolved: nat, correctDirection: nat, accuracyPct: real)

  /** Index of the first rule of highest confidence. */
  function MaxConfidenceIndex(rules: seq<MetaRule>): (i: nat)
    requires |rules| > 0
    ensures i < |rules|
    ensures forall j :: 0 <= j < |rules| ==> rules[j].confidenceScore <= rules[i].confidenceScore
    decreases |rules|
  {
    if |rules| == 1 then 0
    else
      var k := MaxConfidenceIndex(rules[1..]);
      if rules[0].confidenceScore >= rules[1..][k].confidenceScore then 0 else k + 1
  }

  /**
   * `r` is drawn from `rules`, ordered by confidence descending, and no
   * rule left out of it is more confident than one in it.
   */
  predicate Ranked(rules: seq<MetaRule>, r: seq<MetaRule>) {
    && multiset(r) <= multiset(rules)
    && (forall i, j :: 0 <= i < j < |r| ==> r[i].confidenceScore >= r[j].confidenceScore)
    && (forall x, y :: x in multiset(rules) - multiset(r) && y in r ==> x.confidenceScore <= y.confidenceScore)
  }

  /**
   * `ORDER BY confidence_score DESC LIMIT k`: the `k` most confident rules,
   * most confident first; no rule left out is more confident than one kept.
   * Ties are taken in storage order (SQL leaves them unordered).
   */
  function TopByConfidence(rules: seq<MetaRule>, k: nat): (r: seq<MetaRule>)
    ensures |r| == Min(k, |rules|)
    ensures Ranked(rules, r)
    decreases k
  {
    if k == 0 || rules == [] then []
    else
      var i := MaxConfidenceIndex(rules);
      var rest := rules[..i] + rules[i + 1..];
      assert |rest| == |rules| - 1;
      var tail := TopByConfidence(rest, k - 1);
      var r := [rules[i]] + tail;
      TopStep(rules, i, rest, tail, r);
      r
  }

  /** Putting the most confident rule in front of the ranking of the others ranks them all. */
  lemma TopStep(rules: seq<MetaRule>, i: nat, rest: seq<MetaRule>, tail: seq<MetaRule>, r: seq<MetaRule>)
    requires i < |rules| && rest == rules[..i] + rules[i + 1..]
    requires forall j :: 0 <= j < |rules| ==> rules[j].confidenceScore <= rules[i].confidenceScore
    requires Ranked(rest, tail)
    requires r == [rules[i]] + tail
    ensures |r| == |tail| + 1 && |rest| == |rules| - 1
    ensures Ranked(rules, r)
  {
    RemoveAtMultiset(rules, i, rest);
    TailBelowMax(rules, i, rest, tail);
    TopStepOrdered(rules[i], tail, r);
    TopStepOutranks(rules, i, rest, tail, r);
  }

  /** The head outranks the ranked tail behind it, so the whole is in order. */
  lemma TopStepOrdered(m: MetaRule, tail: seq<MetaRule>, r: seq<MetaRule>)
    requires forall a, b :: 0 <= a < b < |tail| ==> tail[a].confidenceScore >= tail[b].confidenceScore
    requires forall y :: y in tail ==> y.confidenceScore <= m.confidenceScore
    requires r == [m] + tail
    ensures forall a, b :: 0 <= a < b < |r| ==> r[a].confidenceScore >= r[b].confidenceScore
  {
    forall a, b | 0 <= a < b < |r| ensures r[a].confidenceScore >= r[b].confidenceScore {
      assert r[b] == tail[b - 1];
      if a > 0 {
        assert r[a] == tail[a - 1];
      } else {
        assert tail[b - 1] in tail;
      }
    }
  }

  /** What is left out of the longer ranking is what was left out of the shorter one. */
  lemma TopStepOutranks(rules: seq<MetaRule>, i: nat, rest: seq<MetaRule>, tail: seq<MetaRule>, r: seq<MetaRule>)
    requires i < |rules| && rest == rules[..i] + rules[i + 1..]
    requires multiset(rules) == multiset(rest) + multiset{rules[i]}
    requires forall j :: 0 <= j < |rules| ==> rules[j].confidenceScore <= rules[i].confidenceScore
    requires Ranked(rest, tail)
    requires r == [rules[i]] + tail
    ensures multiset(r) <= multiset(rules)
    ensures forall x, y :: x in multiset(rules) - multiset(r) && y in r ==> x.confidenceScore <= y.confidenceScore
  {
    var m := rules[i];
    assert multiset(r) == multiset{m} + multiset(tail);
    assert multiset(rules) - multiset(r) == multiset(rest) - multiset(tail);
    forall x, y | x in multiset(rules) - multiset(r) && y in r
      ensures x.confidenceScore <= y.confidenceScore
    {
      assert x in rules;
      if y != m {
        assert y in tail;
      }
    }
  }


  /** A ranking read element by element: its rules come from the input and outrank every rule left out. */
  lemma RankedMembers(rules: seq<MetaRule>, r: seq<MetaRule>)
    requires Ranked(rules, r)
    ensures forall x :: x in r ==> x in rules
    ensures forall i, j :: 0 <= i < j < |r| ==> r[i].confidenceScore >= r[j].confidenceScore
    ensures forall x, y :: x in rules && x !in r && y in r ==> x.confidenceScore <= y.confidenceScore
  {
    forall x | x in r ensures x in rules {
      assert x in multiset(r);
    }
    forall x, y | x in rules && x !in r && y in r ensures x.confidenceScore <= y.confidenceScore {
      assert x in multiset(rules) && x !in multiset(r);
      assert x in multiset(rules) - multiset(r);
    }
  }

  lemma RemoveAtMultiset(rules: seq<MetaRule>, i: nat, rest: seq<MetaRule>)
    requires i < |rules| && rest == rules[..i] + rules[i + 1..]
    ensures multiset(rules) == multiset(rest) + multiset{rules[i]}
  {
    assert rules == rules[..i] + [rules[i]] + rules[i + 1..];
  }

  lemma TailBelowMax(rules: seq<MetaRule>, i: nat, rest: seq<MetaRule>, tail: seq<MetaRule>)
    requires i < |rules| && rest == rules[..i] + rules[i + 1..]
    requires forall j :: 0 <= j < |rules| ==> rules[j].confidenceScore <= rules[i].confidenceScore
    requires multiset(tail) <= multiset(rest)
    ensures forall y :: y in tail ==> y.confidenceScore <= rules[i].confidenceScore
  {
    forall y | y in tail ensures y.confidenceScore <= rules[i].confidenceScore {
      assert y in multiset(tail);
      assert y in rest;
    }
  }

  class Database {
    var predictions: seq<Prediction>
    var verifierPredictions: seq<VerifierPrediction>
    var metaLearnings: seq<MetaRule>
    var consensusOutcomes: seq<ConsensusOutcome>

    ghost predicate Valid()
      reads this
    {
      PredictionIds(predictions) && VerifierIds(verifierPredictions)
      && RuleIds(metaLearnings) && OutcomeIds(consensusOutcomes)
    }

    /** A fresh store: every table empty. */
    constructor ()
      ensures Valid()
      ensures predictions == [] && verifierPredictions == []
      ensures metaLearnings == [] && consensusOutcomes == []
    {
      predictions, verifierPredictions := [], [];
      metaLearnings, consensusOutcomes := [], [];
    }

    /** `save_prediction`: insert the creation columns, return the new id. */
    method SavePrediction(p: Prediction) returns (id: int)
      requires Valid()
      modifies this
      ensures Valid()
      ensures id == |old(predictions)| + 1
      ensures predictions == old(predictions) + [Inserted(p, id)]
      ensures verifierPredictions == old(verifierPredictions)
      ensures metaLearnings == old(metaLearnings) && consensusOutcomes == old(consensusOutcomes)
    {
      id := |predictions| + 1;
      predictions := predictions + [Inserted(p, id)];
    }

    /** `update_resolution`: overwrite the resolution and classification of the row with `p`'s id. */
    method UpdateResolution(p: Prediction)
      requires Valid()
      modifies this`predictions
      ensures Valid()
      ensures predictions == Updated(old(predictions), p)
      ensures verifierPredictions == old(verifierPredictions)
      ensures metaLearnings == old(metaLearnings) && consensusOutcomes == old(consensusOutcomes)
    {
      predictions := Updated(predictions, p);
    }

    /** The dashboard's resolve update: only the resolution columns of row `id`. */
    method SetResolution(id: int, res: Resolution)
      requires Valid()
      modifies this
      ensures Valid()
      ensures |predictions| == |old(predictions)|
      ensures forall j :: 0 <= j < |predictions| ==>
        predictions[j] == if old(predictions)[j].id == id
                          then old(predictions)[j].(resolution := Some(res)) else old(predictions)[j]
      ensures verifierPredictions == old(verifierPredictions)
      ensures metaLearnings == old(metaLearnings) && consensusOutcomes == old(consensusOutcomes)
    {
      var t := predictions;
      predictions := seq(|t|, j requires 0 <= j < |t| =>
        if t[j].id == id then t[j].(resolution := Some(res)) else t[j]);
    }

    /** `save_verifier_prediction`: insert the creation columns, return the new id. */
    method SaveVerifierPrediction(v: VerifierPrediction) returns (id: int)
      requires Valid()
      modifies this
      ensures Valid()
      ensures id == |old(verifierPredictions)| + 1
      ensures verifierPredictions == old(verifierPredictions) + [v.(id := id, resolvedAt := None,
        gptWasCorrect := None, isExtreme := None, extremeReason := None, learningExtracted := None)]
      ensures predictions == old(predictions)
      ensures metaLearnings == old(metaLearnings) && consensusOutcomes == old(consensusOutcomes)
    {
      id := |verifierPredictions| + 1;
      verifierPredictions := verifierPredictions + [v.(id := id, resolvedAt := None,
        gptWasCorrect := None, isExtreme := None, extremeReason := None, learningExtracted := None)];
    }

    /** `update_verifier_resolution`. */
    method UpdateVerifierResolution(v: VerifierPrediction)
      requires Valid()
      modifies this`verifierPredictions
      ensures Valid()
      ensures verifierPredictions == UpdatedVerifier(old(verifierPredictions), v)
      ensures predictions == old(predictions)
      ensures metaLearnings == old(metaLearnings) && consensusOutcomes == old(consensusOutcomes)
    {
      verifierPredictions := UpdatedVerifier(verifierPredictions, v);
    }

    /** `save_meta_learning`: a new rule, active by column default. */
    method SaveMetaLearning(m: MetaRule) returns (id: int)
      requires Valid()
      modifies this
      ensures Valid()
      ensures id == |old(metaLearnings)| + 1
      ensures metaLearnings == old(metaLearnings) + [m.(id := id, isActive := true)]
      ensures predictions == old(predictions) && verifierPredictions == old(verifierPredictions)
      ensures consensusOutcomes == old(consensusOutcomes)
    {
      id := |metaLearnings| + 1;
      metaLearnings := metaLearnings + [m.(id := id, isActive := true)];
    }

    /** `save_consensus_outcome`. */
    method SaveConsensusOutcome(o: ConsensusOutcome)
      requires Valid()
      modifies this
      ensures Valid()
      ensures consensusOutcomes == old(consensusOutcomes) + [o.(id := |old(consensusOutcomes)| + 1)]
      ensures predictions == old(predictions) && verifierPredictions == old(verifierPredictions)
      ensures metaLearnings == old(metaLearnings)
    {
      consensusOutcomes := consensusOutcomes + [o.(id := |consensusOutcomes| + 1)];
    }

    /** `SELECT * FROM predictions WHERE id = ?`. */
    function Find(id: int): (r: Option<Prediction>)
      reads this
      requires Valid()
      ensures r.Some? <==> exists j :: 0 <= j < |predictions| && predictions[j].id == id
      ensures r.Some? ==> r.value in predictions && r.value.id == id
    {
      if 1 <= id <= |predictions| then Some(predictions[id - 1]) else None
    }

    /**
     * `get_recent_for_batch_analysis`: resolved, unclassified rows, newest
     * first, at most `batchSize`.
     */
    function GetRecentForBatchAnalysis(batchSize: nat): (r: seq<Prediction>)
      reads this
      ensures |r| == Min(batchSize, |Filter(predictions, IsPending)|)
      ensures forall x :: x in r ==> x in predictions && x.resolution.Some? && x.isExtreme.None?
      ensures r == Reverse(Filter(predictions, IsPending))[..|r|]
    {
      NewestFirst(predictions, IsPending, batchSize)
    }

    /** `get_verifier_recent_for_batch`: the same selection on the verifier table. */
    function GetVerifierRecentForBatch(batchSize: nat): (r: seq<VerifierPrediction>)
      reads this
      ensures |r| == Min(batchSize, |Filter(verifierPredictions, IsVerifierPending)|)
      ensures forall x :: x in r ==> x in verifierPredictions && x.resolvedAt.Some? && x.isExtreme.None?
      ensures r == Reverse(Filter(verifierPredictions, IsVerifierPending))[..|r|]
    {
      NewestFirst(verifierPredictions, IsVerifierPending, batchSize)
    }

    /** `get_all_extremes`: every extreme row with a learning, oldest first. */
    function GetAllExtremes(): (r: seq<Prediction>)
      reads this
      ensures forall x :: x in r <==> x in predictions && x.isExtreme == Some(true) && x.learningExtracted.Some?
      ensures Valid() ==> forall i, j :: 0 <= i < j < |r| ==> r[i].id < r[j].id
    {
      FilterKeepsIdOrder(predictions, IsLearnedExtreme);
      Filter(predictions, IsLearnedExtreme)
    }

    /** `get_active_meta_rules`: the five most confident active rules. */
    function GetActiveMetaRules(): (r: seq<MetaRule>)
      reads this
      ensures |r| == Min(5, |Filter(metaLearnings, (m: MetaRule) => m.isActive)|)
      ensures forall x :: x in r ==> x in metaLearnings && x.isActive
      ensures forall i, j :: 0 <= i < j < |r| ==> r[i].confidenceScore >= r[j].confidenceScore
      ensures forall x, y :: x in metaLearnings && x.isActive && x !in r && y in r ==> x.confidenceScore <= y.confidenceScore
      ensures Ranked(Filter(metaLearnings, (m: MetaRule) => m.isActive), r)
    {
      var active := Filter(metaLearnings, (m: MetaRule) => m.isActive);
      var r := TopByConfidence(active, 5);
      RankedMembers(active, r);
      r
    }

    /** `get_last_meta_analysis_count`: the newest rule's count, 0 with no rule. */
    function GetLastMetaAnalysisCount(): (r: int)
      reads this
      ensures metaLearnings == [] ==> r == 0
      ensures metaLearnings != [] ==> r == metaLearnings[|metaLearnings| - 1].predictionsAnalyzed
    {
      if metaLearnings == [] then 0 else metaLearnings[|metaLearnings| - 1].predictionsAnalyzed
    }

    /** `get_stats`: the counts the meta-learner reads. */
    function GetStats(): (r: PredictorStats)
      reads this
      ensures r.totalPredictions == |predictions|
      ensures r.correctDirection <= r.resolved <= r.totalPredictions
      ensures 0.0 <= r.accuracyPct <= 100.0
      ensures r.resolved == |Filter(predictions, IsResolvedRow)|
      ensures r.correctDirection == |Filter(predictions, IsCorrectRow)|
      ensures r.accuracyPct == AccuracyPct(r.correctDirection, r.resolved)
    {
      var resolved := CountResolved(predictions);
      var correct := CountCorrect(predictions);
      ResolvedAtMostTotal(predictions);
      CountsAreSelections(predictions);
      PredictorStats(|predictions|, resolved, correct, AccuracyPct(correct, resolved))
    }
  }

  lemma {:induction false} ResolvedAtMostTotal(t: seq<Prediction>)
    ensures CountResolved(t) <= |t|
    decreases |t|
  {
    if t != [] { ResolvedAtMostTotal(t[1..]); }
  }
}
