/**
 * Combining the primary prediction with the verifier's opinion
 * (predictor.py, `determine_consensus` and `classify_outcome`) and the
 * consensus outcome row written once both are resolved.
 */
module Consensus {
  import opened Wrappers
  import opened Records
  import Store
  import Verifier

  datatype Signal = ConsensusStrong | ConsensusWeak | VerifierVeto | Disagreement
  {
    function Name(): string {
      match this
      case ConsensusStrong => "CONSENSUS_STRONG"
      case ConsensusWeak => "CONSENSUS_WEAK"
      case VerifierVeto => "VERIFIER_VETO"
      case Disagreement => "DISAGREEMENT"
    }
  }

  datatype Strength = High | Medium | Low

  datatype Decision = Decision(signal: Signal, direction: string, confidence: int, strength: Strength)

  /**
   * `determine_consensus`. The direction is always the primary's; an
   * agreement averages the two confidences and a disagreement halves the
   * primary's. Strength is HIGH exactly for a strong agreement or a veto.
   */
  function DetermineConsensus(pred: Prediction, v: VerifierPrediction): (d: Decision)
    ensures d.direction == pred.predictedDirection
    ensures d.signal.ConsensusStrong? || d.signal.ConsensusWeak? <==> v.agreesWithClaude
    ensures d.strength == High <==> d.signal.ConsensusStrong? || d.signal.VerifierVeto?
    ensures d.strength == Medium <==> d.signal.ConsensusWeak?
    ensures d.signal.ConsensusStrong? <==> v.agreesWithClaude && v.confidenceClaudeCorrect >= 70
    ensures d.signal.VerifierVeto? <==> !v.agreesWithClaude && v.confidenceClaudeCorrect <= 30
    ensures v.agreesWithClaude ==>
      2 * d.confidence <= pred.confidence + v.confidenceClaudeCorrect < 2 * d.confidence + 2
    ensures !v.agreesWithClaude ==> 2 * d.confidence <= pred.confidence < 2 * d.confidence + 2
  {
    if v.agreesWithClaude then
      var c := (pred.confidence + v.confidenceClaudeCorrect) / 2;
      if v.confidenceClaudeCorrect >= 70 then Decision(ConsensusStrong, pred.predictedDirection, c, High)
      else Decision(ConsensusWeak, pred.predictedDirection, c, Medium)
    else
      var c := pred.confidence / 2;
      if v.confidenceClaudeCorrect <= 30 then Decision(VerifierVeto, pred.predictedDirection, c, High)
      else Decision(Disagreement, pred.predictedDirection, c, Low)
  }

  /** With both confidences in 0..100 the consensus confidence is in 0..100 and never above the larger one. */
  lemma ConsensusConfidenceBounds(pred: Prediction, v: VerifierPrediction)
    requires 0 <= pred.confidence <= 100 && 0 <= v.confidenceClaudeCorrect <= 100
    ensures var d := DetermineConsensus(pred, v);
      0 <= d.confidence <= 100
      && d.confidence <= (if pred.confidence >= v.confidenceClaudeCorrect then pred.confidence else v.confidenceClaudeCorrect)
      && (!v.agreesWithClaude ==> d.confidence <= 50)
  {
  }

  /** `classify_outcome`: the 2x2 table of agreement and primary correctness. */
  function ClassifyOutcome(claudeCorrect: bool, agreed: bool): OutcomeType {
    if agreed && claudeCorrect then ConsensusWin
    else if agreed && !claudeCorrect then SharedBlindSpot
    else if !agreed && !claudeCorrect then GptCaughtError
    else GptFalseAlarm
  }

  /** The agreement an outcome tag records. */
  function AgreedOf(o: OutcomeType): bool { o.ConsensusWin? || o.SharedBlindSpot? }

  /** The primary correctness an outcome tag records. */
  function ClaudeCorrectOf(o: OutcomeType): bool { o.ConsensusWin? || o.GptFalseAlarm? }

  /** The table is total and one-to-one: each tag names exactly one cell. */
  lemma OutcomeRoundTrip(claudeCorrect: bool, agreed: bool, o: OutcomeType)
    ensures ClaudeCorrectOf(ClassifyOutcome(claudeCorrect, agreed)) == claudeCorrect
    ensures AgreedOf(ClassifyOutcome(claudeCorrect, agreed)) == agreed
    ensures ClassifyOutcome(ClaudeCorrectOf(o), AgreedOf(o)) == o
  {
  }

  /** The verifier was right exactly on a consensus win or a caught error. */
  lemma OutcomeVerifierCorrect(claudeCorrect: bool, agreed: bool)
    ensures Verifier.GptWasCorrect(agreed, claudeCorrect) <==>
      ClassifyOutcome(claudeCorrect, agreed) in {ConsensusWin, GptCaughtError}
  {
  }

  /**
   * The outcome row recorded after both resolutions. Its direction and
   * confidence come from the consensus when there is one, the primary's own
   * otherwise; since a consensus always carries the primary's direction,
   * the recorded direction is the primary's either way.
   */
  function OutcomeRecord(pred: Prediction, v: VerifierPrediction, consensus: Option<Decision>, now: Timestamp)
    : (o: ConsensusOutcome)
    requires consensus.Some? ==> consensus.value.direction == pred.predictedDirection
    ensures o.predictionId == pred.id && o.consensusDirection == pred.predictedDirection
    ensures o.modelsAgreed == v.agreesWithClaude
    ensures o.outcomeType == ClassifyOutcome(pred.DirectionCorrect(), v.agreesWithClaude)
    ensures o.claudeCorrect == ClaudeCorrectOf(o.outcomeType) && o.modelsAgreed == AgreedOf(o.outcomeType)
    ensures o.consensusConfidence == (if consensus.Some? then consensus.value.confidence else pred.confidence)
    ensures o.gptCorrect == (v.gptWasCorrect == Some(true))
  {
    ConsensusOutcome(0, pred.id, now, v.agreesWithClaude,
                     if consensus.Some? then consensus.value.direction else pred.predictedDirection,
                     if consensus.Some? then consensus.value.confidence else pred.confidence,
                     pred.DirectionCorrect(), v.gptWasCorrect == Some(true),
                     ClassifyOutcome(pred.DirectionCorrect(), v.agreesWithClaude))
  }

  /**
   * Step 5 of a prediction cycle: resolve the verification against the
   * primary's outcome, then record the consensus outcome. The recorded
   * verifier correctness is the one just written to the verifier's row.
   */
  method ResolveAndRecord(db: Store.Database, pred: Prediction, v: VerifierPrediction,
                          consensus: Option<Decision>, now: Timestamp)
    returns (w: VerifierPrediction, o: ConsensusOutcome)
    requires db.Valid()
    requires consensus.Some? ==> consensus.value == DetermineConsensus(pred, v)
    modifies db
    ensures db.Valid()
    ensures w.gptWasCorrect == Some(Verifier.GptWasCorrect(v.agreesWithClaude, pred.DirectionCorrect()))
    ensures db.verifierPredictions == Store.UpdatedVerifier(old(db.verifierPredictions), w)
    ensures o == OutcomeRecord(pred, w, consensus, now).(id := |old(db.consensusOutcomes)| + 1)
    ensures o.gptCorrect == (o.outcomeType in {ConsensusWin, GptCaughtError})
    ensures db.consensusOutcomes == old(db.consensusOutcomes) + [o]
    ensures db.predictions == old(db.predictions) && db.metaLearnings == old(db.metaLearnings)
  {
    var id := |db.consensusOutcomes| + 1;
    w := Verifier.ResolveVerification(db, v, pred.DirectionCorrect(), now);
    OutcomeVerifierCorrect(pred.DirectionCorrect(), v.agreesWithClaude);
    var record := OutcomeRecord(pred, w, consensus, now);
    db.SaveConsensusOutcome(record);
    o := record.(id := id);
  }
}
