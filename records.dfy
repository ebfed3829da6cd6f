/**
 * The records of the prediction store (predictor.py, the `Prediction` and
 * `VerifierPrediction` dataclasses and the rows of the meta-rule and
 * consensus tables) and the configuration constants of the feedback loop.
 */
module Records {
  import opened Wrappers
  import Text

  /** Timestamps are opaque; they grow with insertion order. */
  type Timestamp = nat

  const BATCH_SIZE: nat := 20
  const EXTREME_PERCENTILE: nat := 10
  const META_LEARNING_INTERVAL: nat := 5
  const VERIFIER_BATCH_SIZE: nat := 8

  /** The resolution columns, always written together. */
  datatype Resolution = Resolution(
    resolvedAt: Timestamp,
    actualPrice: real,
    actualDirection: string,
    directionCorrect: bool,
    targetErrorPct: real,
    calibrationScore: real)

  /** Which primary extreme rule fired (the column `extreme_reason`). */
  datatype PrimaryReason =
    | HighConfidenceWrong(confidence: int)
    | LowConfidenceCorrect(confidence: int)
    | ExceptionalAccuracy(errorPct: real)
    | LargeTargetMiss(errorPct: real)

  /** Which verifier extreme rule fired. */
  datatype VerifierReason =
    | VerifierHighConfidenceWrong(confidence: int)
    | VerifierLowConfidenceWrong(confidence: int)
    | CaughtClaudeError
    | FalseAlarm
  {
    /** The reason text the verifier stores in `extreme_reason`. */
    function Message(): string {
      match this
      case VerifierHighConfidenceWrong(c) => "High confidence (" + Text.IntToString(c) + "%) but wrong"
      case VerifierLowConfidenceWrong(c) => "Low confidence (" + Text.IntToString(c) + "%) but wrong"
      case CaughtClaudeError => "Correctly caught Claude error"
      case FalseAlarm => "False alarm - wrongly disagreed with Claude"
    }
  }

  /**
   * One row of the `predictions` table. `source` is None when the row was
   * inserted without a source column value (the predictor's own inserts).
   */
  datatype Prediction = Prediction(
    id: int,
    timestamp: Timestamp,
    currentPrice: real,
    predictedDirection: string,
    predictedTarget: real,
    confidence: int,
    reasoning: string,
    source: Option<string>,
    resolution: Option<Resolution>,
    isExtreme: Option<bool>,
    extremeReason: Option<PrimaryReason>,
    learningExtracted: Option<string>)
  {
    predicate Resolved() { resolution.Some? }

    /** Python's truthiness of `direction_correct`: NULL counts as false. */
    predicate DirectionCorrect() { resolution.Some? && resolution.value.directionCorrect }
  }

  /** One row of the `verifier_predictions` table. */
  datatype VerifierPrediction = VerifierPrediction(
    id: int,
    predictionId: int,
    timestamp: Timestamp,
    agreesWithClaude: bool,
    confidenceClaudeCorrect: int,
    reasoning: string,
    concerns: seq<string>,
    metaRuleViolations: seq<string>,
    resolvedAt: Option<Timestamp>,
    gptWasCorrect: Option<bool>,
    isExtreme: Option<bool>,
    extremeReason: Option<VerifierReason>,
    learningExtracted: Option<string>)
  {
    /** Python's `not vpred.gpt_was_correct`: NULL counts as wrong. */
    predicate Wrong() { gptWasCorrect != Some(true) }
  }

  /** One row of the `meta_learnings` table. */
  datatype MetaRule = MetaRule(
    id: int,
    timestamp: Timestamp,
    predictionsAnalyzed: int,
    learningsAnalyzed: int,
    accuracyAtAnalysis: real,
    patternType: string,
    patternDescription: string,
    metaRule: string,
    confidenceScore: real,
    isActive: bool)

  /** The four consensus outcome tags. */
  datatype OutcomeType = ConsensusWin | SharedBlindSpot | GptCaughtError | GptFalseAlarm
  {
    function Tag(): string {
      match this
      case ConsensusWin => "consensus_win"
      case SharedBlindSpot => "shared_blind_spot"
      case GptCaughtError => "gpt_caught_error"
      case GptFalseAlarm => "gpt_false_alarm"
    }
  }

  /** One row of the `consensus_outcomes` table. */
  datatype ConsensusOutcome = ConsensusOutcome(
    id: int,
    predictionId: int,
    timestamp: Timestamp,
    modelsAgreed: bool,
    consensusDirection: string,
    consensusConfidence: int,
    claudeCorrect: bool,
    gptCorrect: bool,
    outcomeType: OutcomeType)
}
