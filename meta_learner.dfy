/**
 * The meta-learner (predictor.py, class `MetaLearner`): when enough new
 * predictions have accumulated, the stored learnings of extreme predictions
 * are handed to a language model whose answer lists patterns, and each
 * pattern is stored as an active meta-rule stamped with the current totals.
 * The language model together with the parsing of its answer is `ask`.
 */
module MetaLearner {
  import opened Wrappers
  import opened Records
  import opened Queries
  import Store
  import Predictor

  /** A meta-analysis is due every META_LEARNING_INTERVAL batches of predictions. */
  const ANALYSIS_PERIOD: nat := META_LEARNING_INTERVAL * BATCH_SIZE

  /** The fewest stored learnings a meta-analysis works from. */
  const MIN_LEARNINGS: nat := 20

  /** `should_analyze` on the two counts it reads. */
  function ShouldAnalyzeCounts(total: int, lastCount: int): (r: bool)
    ensures r <==> total >= lastCount + 100
  {
    total - lastCount >= ANALYSIS_PERIOD
  }

  /** `should_analyze`: at least 100 predictions since the newest rule was written (or in all, with no rule). */
  function ShouldAnalyze(db: Store.Database): (r: bool)
    reads db
    ensures db.metaLearnings == [] ==> (r <==> |db.predictions| >= 100)
    ensures db.metaLearnings != [] ==>
      (r <==> |db.predictions| >= db.metaLearnings[|db.metaLearnings| - 1].predictionsAnalyzed + 100)
  {
    ShouldAnalyzeCounts(db.GetStats().totalPredictions, db.GetLastMetaAnalysisCount())
  }

  /** A table whose newest rule was stamped with the current total is not due. */
  lemma NotDueRightAfterAnalysis(db: Store.Database)
    requires db.metaLearnings != []
    requires db.metaLearnings[|db.metaLearnings| - 1].predictionsAnalyzed == |db.predictions|
    ensures !ShouldAnalyze(db)
  {
  }

  /** The four groups of learnings the prompt is built from. */
  datatype Categories = Categories(
    highConfWrong: seq<Prediction>,
    lowConfRight: seq<Prediction>,
    accurateTargets: seq<Prediction>,
    largeMisses: seq<Prediction>)

  predicate IsHighConfWrong(e: Prediction) { !e.DirectionCorrect() && e.confidence >= 70 }
  predicate IsLowConfRight(e: Prediction) { e.DirectionCorrect() && e.confidence <= 40 }
  predicate IsAccurateTarget(e: Prediction) { e.resolution.Some? && e.resolution.value.targetErrorPct <= 0.05 }
  predicate IsLargeMiss(e: Prediction) { e.resolution.Some? && e.resolution.value.targetErrorPct >= 0.15 }

  /** The four category comprehensions over the learnings. */
  function Categorize(extremes: seq<Prediction>): (c: Categories)
    ensures forall e :: e in c.highConfWrong <==> e in extremes && IsHighConfWrong(e)
    ensures forall e :: e in c.lowConfRight <==> e in extremes && IsLowConfRight(e)
    ensures forall e :: e in c.accurateTargets <==> e in extremes && IsAccurateTarget(e)
    ensures forall e :: e in c.largeMisses <==> e in extremes && IsLargeMiss(e)
  {
    Categories(Filter(extremes, IsHighConfWrong), Filter(extremes, IsLowConfRight),
               Filter(extremes, IsAccurateTarget), Filter(extremes, IsLargeMiss))
  }

  /**
   * The categories are wider than the classifier's confidence and accuracy
   * rules: a prediction the classifier flagged for confidence or for
   * accuracy lands in the matching category.
   */
  lemma CategoriesCoverRules(p: Prediction, threshold: real, learn: Prediction -> string)
    requires p.resolution.Some?
    ensures var c := Predictor.Classified(p, threshold, learn);
      c.isExtreme == Some(true) && c.extremeReason.value.HighConfidenceWrong? ==> IsHighConfWrong(c)
    ensures var c := Predictor.Classified(p, threshold, learn);
      c.isExtreme == Some(true) && c.extremeReason.value.LowConfidenceCorrect? ==> IsLowConfRight(c)
    ensures var c := Predictor.Classified(p, threshold, learn);
      c.isExtreme == Some(true) && c.extremeReason.value.ExceptionalAccuracy? ==> IsAccurateTarget(c)
  {
  }

  /** One pattern of the model's answer; absent keys are None. */
  datatype PatternJson = PatternJson(
    patternType: Option<string>,
    description: Option<string>,
    rule: Option<string>,
    confidence: Option<real>)

  /**
   * The model's answer after parsing: either an object whose `patterns`
   * key may be absent, or text that did not parse. Unparseable text inside
   * a fenced json block raises (`raised`); bare text that does not parse
   * ends the analysis with no rules.
   */
  datatype MetaResponse = Parsed(patterns: Option<seq<PatternJson>>) | Unparseable(raised: bool)

  /** What the prompt is built from. */
  datatype MetaPrompt = MetaPrompt(extremes: seq<Prediction>, stats: Store.PredictorStats, categories: Categories)

  /**
   * The patterns an analysis stores: none below MIN_LEARNINGS learnings or
   * on an unparseable bare answer, `patterns` (default empty) otherwise.
   * None means the analysis raises: a learning without a recorded error
   * fails the error comparisons, and a fenced answer that does not parse
   * fails to load.
   */
  function PlannedPatterns(extremes: seq<Prediction>, stats: Store.PredictorStats, ask: MetaPrompt -> MetaResponse)
    : (r: Option<seq<PatternJson>>)
    ensures |extremes| < MIN_LEARNINGS ==> r == Some([])
    ensures r.Some? && r.value != [] ==>
      |extremes| >= MIN_LEARNINGS && forall e :: e in extremes ==> e.resolution.Some?
    ensures |extremes| >= MIN_LEARNINGS && (exists e :: e in extremes && e.resolution.None?) ==> r.None?
    ensures |extremes| >= MIN_LEARNINGS && (forall e :: e in extremes ==> e.resolution.Some?) ==>
      var reply := ask(MetaPrompt(extremes, stats, Categorize(extremes)));
      (reply.Parsed? ==> r == Some(reply.patterns.GetOr([])))
      && (reply.Unparseable? ==> r == if reply.raised then None else Some([]))
  {
    if |extremes| < MIN_LEARNINGS then Some([])
    else if exists e :: e in extremes && e.resolution.None? then None
    else
      match ask(MetaPrompt(extremes, stats, Categorize(extremes)))
      case Parsed(ps) => Some(ps.GetOr([]))
      case Unparseable(raised) => if raised then None else Some([])
  }

  /** The rule row stored for one pattern, with the defaults for absent keys. */
  function RuleFor(pat: PatternJson, stats: Store.PredictorStats, learnings: nat, now: Timestamp, id: int)
    : (m: MetaRule)
    ensures m.predictionsAnalyzed == stats.totalPredictions && m.learningsAnalyzed == learnings
    ensures m.accuracyAtAnalysis == stats.accuracyPct && m.isActive
    ensures pat.patternType.None? ==> m.patternType == "unknown"
    ensures pat.confidence.None? ==> m.confidenceScore == 0.5
    ensures pat.description.None? ==> m.patternDescription == ""
    ensures pat.rule.None? ==> m.metaRule == ""
    ensures m.id == id && m.timestamp == now
    ensures pat.patternType.Some? ==> m.patternType == pat.patternType.value
    ensures pat.confidence.Some? ==> m.confidenceScore == pat.confidence.value
    ensures pat.description.Some? ==> m.patternDescription == pat.description.value
    ensures pat.rule.Some? ==> m.metaRule == pat.rule.value
  {
    MetaRule(id, now, stats.totalPredictions, learnings, stats.accuracyPct,
             pat.patternType.GetOr("unknown"), pat.description.GetOr(""), pat.rule.GetOr(""),
             pat.confidence.GetOr(0.5), true)
  }

  /** The rows stored for `ps`, numbered on from `lastId`. */
  function RulesFor(ps: seq<PatternJson>, stats: Store.PredictorStats, learnings: nat, now: Timestamp, lastId: int)
    : (rules: seq<MetaRule>)
    ensures |rules| == |ps|
    ensures forall k :: 0 <= k < |rules| ==> rules[k].id == lastId + k + 1
    ensures forall k :: 0 <= k < |rules| ==> rules[k].predictionsAnalyzed == stats.totalPredictions
    ensures forall k :: 0 <= k < |rules| ==> rules[k] == RuleFor(ps[k], stats, learnings, now, lastId + k + 1)
  {
    seq(|ps|, k requires 0 <= k < |ps| => RuleFor(ps[k], stats, learnings, now, lastId + k + 1))
  }

  /**
   * The saving loop of `analyze`: one rule per pattern, stamped with the
   * statistics read before the first save, appended in order.
   */
  method SavePatterns(db: Store.Database, ps: seq<PatternJson>, stats: Store.PredictorStats,
                      learnings: nat, now: Timestamp)
    returns (saved: seq<MetaRule>)
    requires db.Valid()
    modifies db
    ensures db.Valid()
    ensures saved == RulesFor(ps, stats, learnings, now, |old(db.metaLearnings)|)
    ensures db.metaLearnings == old(db.metaLearnings) + saved
    ensures db.predictions == old(db.predictions) && db.verifierPredictions == old(db.verifierPredictions)
    ensures db.consensusOutcomes == old(db.consensusOutcomes)
  {
    ghost var expected := RulesFor(ps, stats, learnings, now, |db.metaLearnings|);
    saved := [];
    var i := 0;
    while i < |ps|
      invariant 0 <= i <= |ps|
      invariant db.Valid()
      invariant saved == expected[..i]
      invariant db.metaLearnings == old(db.metaLearnings) + saved
      invariant db.predictions == old(db.predictions) && db.verifierPredictions == old(db.verifierPredictions)
      invariant db.consensusOutcomes == old(db.consensusOutcomes)
    {
      var pat := ps[i];
      var m := MetaRule(0, now, stats.totalPredictions, learnings, stats.accuracyPct,
                        pat.patternType.GetOr("unknown"), pat.description.GetOr(""), pat.rule.GetOr(""),
                        pat.confidence.GetOr(0.5), false);
      var id := db.SaveMetaLearning(m);
      saved := saved + [m.(id := id, isActive := true)];
      assert expected[..i + 1] == expected[..i] + [expected[i]];
      i := i + 1;
    }
    assert expected[..|ps|] == expected;
  }

  /**
   * `analyze`. None: the analysis raised and stored nothing. Some(rules):
   * exactly `rules` were appended, one per pattern, each stamped with the
   * current prediction total, the number of learnings and the accuracy.
   */
  method Analyze(db: Store.Database, now: Timestamp, ask: MetaPrompt -> MetaResponse)
    returns (r: Option<seq<MetaRule>>)
    requires db.Valid()
    modifies db
    ensures db.Valid()
    ensures var planned := PlannedPatterns(old(db.GetAllExtremes()), old(db.GetStats()), ask);
      (planned.None? ==> r.None? && db.metaLearnings == old(db.metaLearnings))
      && (planned.Some? ==> r == Some(RulesFor(planned.value, old(db.GetStats()), |old(db.GetAllExtremes())|,
                                                now, |old(db.metaLearnings)|)))
    ensures r.Some? ==> db.metaLearnings == old(db.metaLearnings) + r.value
    ensures r.Some? && r.value != [] ==> !ShouldAnalyze(db)
    ensures CountsTrackTotal(old(db.metaLearnings), |old(db.predictions)|) ==>
      CountsTrackTotal(db.metaLearnings, |db.predictions|)
    ensures db.predictions == old(db.predictions) && db.verifierPredictions == old(db.verifierPredictions)
    ensures db.consensusOutcomes == old(db.consensusOutcomes)
  {
    var extremes := db.GetAllExtremes();
    var stats := db.GetStats();
    var planned := PlannedPatterns(extremes, stats, ask);
    if planned.None? {
      return None;
    }
    ghost var before := db.metaLearnings;
    assert stats.totalPredictions == |db.predictions|;
    var saved := SavePatterns(db, planned.value, stats, |extremes|, now);
    if CountsTrackTotal(before, stats.totalPredictions) {
      AnalyzeKeepsCountsTracking(before, planned.value, stats, |extremes|, now);
    }
    if saved != [] {
      var last := db.metaLearnings[|db.metaLearnings| - 1];
      assert last == saved[|saved| - 1];
      assert saved[|saved| - 1].predictionsAnalyzed == stats.totalPredictions;
      NotDueRightAfterAnalysis(db);
    }
    r := Some(saved);
  }

  /**
   * `run_meta_analysis_if_needed`: analyze only when the scheduler says an
   * analysis is due; otherwise store nothing and report no rules.
   */
  method RunMetaAnalysisIfNeeded(db: Store.Database, now: Timestamp, ask: MetaPrompt -> MetaResponse)
    returns (r: Option<seq<MetaRule>>)
    requires db.Valid()
    modifies db
    ensures db.Valid()
    ensures !old(ShouldAnalyze(db)) ==> r == Some([]) && db.metaLearnings == old(db.metaLearnings)
    ensures old(ShouldAnalyze(db)) ==>
      var planned := PlannedPatterns(old(db.GetAllExtremes()), old(db.GetStats()), ask);
      r == (if planned.None? then None
            else Some(RulesFor(planned.value, old(db.GetStats()), |old(db.GetAllExtremes())|,
                               now, |old(db.metaLearnings)|)))
    ensures r.Some? ==> db.metaLearnings == old(db.metaLearnings) + r.value
    ensures r.Some? && r.value != [] ==> !ShouldAnalyze(db)
    ensures db.predictions == old(db.predictions) && db.verifierPredictions == old(db.verifierPredictions)
    ensures db.consensusOutcomes == old(db.consensusOutcomes)
  {
    if !ShouldAnalyze(db) {
      return Some([]);
    }
    r := Analyze(db, now, ask);
  }

  /**
   * Rule counts never run ahead of the prediction total and never go down
   * from one rule to the next: what holds when every rule is stamped with
   * the total at the time it was written.
   */
  ghost predicate CountsTrackTotal(rules: seq<MetaRule>, total: int) {
    (forall k :: 0 <= k < |rules| ==> rules[k].predictionsAnalyzed <= total)
    && (forall a, b :: 0 <= a < b < |rules| ==> rules[a].predictionsAnalyzed <= rules[b].predictionsAnalyzed)
  }

  /** Stamping new rules with the current total keeps the counts tracking it. */
  lemma AnalyzeKeepsCountsTracking(rules: seq<MetaRule>, ps: seq<PatternJson>, stats: Store.PredictorStats,
                                   learnings: nat, now: Timestamp)
    requires CountsTrackTotal(rules, stats.totalPredictions)
    ensures CountsTrackTotal(rules + RulesFor(ps, stats, learnings, now, |rules|), stats.totalPredictions)
  {
    var all := rules + RulesFor(ps, stats, learnings, now, |rules|);
    forall a, b | 0 <= a < b < |all| ensures all[a].predictionsAnalyzed <= all[b].predictionsAnalyzed {
      if b >= |rules| {
        assert all[b] == RulesFor(ps, stats, learnings, now, |rules|)[b - |rules|];
      }
    }
  }

  /** When counts track the total, the newest rule carries the largest count. */
  lemma NewestCountIsMax(rules: seq<MetaRule>, total: int)
    requires CountsTrackTotal(rules, total) && rules != []
    ensures forall k :: 0 <= k < |rules| ==>
      rules[k].predictionsAnalyzed <= rules[|rules| - 1].predictionsAnalyzed
  {
    forall k | 0 <= k < |rules|
      ensures rules[k].predictionsAnalyzed <= rules[|rules| - 1].predictionsAnalyzed
    {
      if k < |rules| - 1 {
        assert 0 <= k < |rules| - 1 < |rules|;
      }
    }
  }
}
