/**
 * The resolution arithmetic shared by the predictor's `resolve_prediction`
 * and the dashboard's `/api/resolve` handler: actual direction, direction
 * correctness, target error percentage and calibration score.
 */
module Resolve {
  import Wrappers
  import opened Records

  function Abs(x: real): real { if x < 0.0 then -x else x }

  /** "UP" when the price rose strictly; a flat price counts as "DOWN". */
  function ActualDirection(actualPrice: real, currentPrice: real): string {
    if actualPrice > currentPrice then "UP" else "DOWN"
  }

  /** `|actual - target| / current * 100`; undefined (ZeroDivisionError) at current = 0. */
  function TargetErrorPct(actualPrice: real, target: real, currentPrice: real): real
    requires currentPrice != 0.0
  {
    Abs(actualPrice - target) / currentPrice * 100.0
  }

  /** The confidence when right, its complement when wrong, as a fraction. */
  function CalibrationScore(confidence: int, correct: bool): real {
    if correct then confidence as real / 100.0 else (100 - confidence) as real / 100.0
  }

  /** The resolution columns for prediction `p` observed at `actualPrice`. */
  function ResolutionOf(p: Prediction, actualPrice: real, at: Timestamp): (r: Resolution)
    requires p.currentPrice != 0.0
    ensures r.resolvedAt == at && r.actualPrice == actualPrice
    ensures r.actualDirection == "UP" || r.actualDirection == "DOWN"
    ensures r.directionCorrect <==>
      (p.predictedDirection == "UP" && actualPrice > p.currentPrice)
      || (p.predictedDirection == "DOWN" && actualPrice <= p.currentPrice)
    ensures r.targetErrorPct * p.currentPrice == Abs(actualPrice - p.predictedTarget) * 100.0
    ensures p.currentPrice > 0.0 ==> r.targetErrorPct >= 0.0
    ensures 0 <= p.confidence <= 100 ==> 0.0 <= r.calibrationScore <= 1.0
    ensures r.calibrationScore + CalibrationScore(p.confidence, !r.directionCorrect) == 1.0
  {
    var dir := ActualDirection(actualPrice, p.currentPrice);
    var correct := p.predictedDirection == dir;
    Resolution(at, actualPrice, dir, correct,
               TargetErrorPct(actualPrice, p.predictedTarget, p.currentPrice),
               CalibrationScore(p.confidence, correct))
  }

  /** First worked example: a correct UP call, 0.8% off target, calibration 0.8. */
  lemma ExampleCorrectUp()
    ensures var p := Prediction(1, 0, 50000.0, "UP", 50500.0, 80, "", Wrappers.None,
                                Wrappers.None, Wrappers.None, Wrappers.None, Wrappers.None);
            var r := ResolutionOf(p, 50100.0, 1);
            r.actualDirection == "UP" && r.directionCorrect
            && r.targetErrorPct == 0.8 && r.calibrationScore == 0.8
  {
  }

  /** Second worked example: the same call against a fall, 1.2% off target, calibration 0.2. */
  lemma ExampleWrongUp()
    ensures var p := Prediction(1, 0, 50000.0, "UP", 50500.0, 80, "", Wrappers.None,
                                Wrappers.None, Wrappers.None, Wrappers.None, Wrappers.None);
            var r := ResolutionOf(p, 49900.0, 1);
            r.actualDirection == "DOWN" && !r.directionCorrect
            && r.targetErrorPct == 1.2 && r.calibrationScore == 0.2
  {
  }
}
