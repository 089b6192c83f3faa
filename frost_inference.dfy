/**
 * `inferFrost`: run the trained model through a Python child process and, when
 * that fails, fall back to an additive temperature/humidity/dew-point heuristic.
 *
 * The child process is not modelled; its outcome is an input: either the list
 * of JSON objects it printed, or the error that made the call reject.
 */
module FrostInference {
  import opened Common

  /** The object handed back to the caller (`mock`/`fallback`/`error` are absent, i.e. false/None, for model output). */
  datatype Prediction = Prediction(
    risk: real, riskLevel: string, threshold: real,
    mock: bool, fallback: bool, error: Option<string>)

  datatype ModelRun = ModelOutputs(results: seq<Prediction>) | ModelFailed(message: string)

  const DefaultThreshold: real := 0.9
  const FallbackMessage := "Modelo ML no disponible - usando predicción simplificada"

  /** The three-way banding: `alto` from the threshold up, `medio` from 0.5 up, else `bajo`. */
  function RiskLevel(risk: real, threshold: real): (level: string)
    ensures level == "alto" <==> risk >= threshold
    ensures level == "medio" <==> 0.5 <= risk < threshold
    ensures level == "bajo" <==> risk < 0.5 && risk < threshold
  {
    if risk >= threshold then "alto" else if risk >= 0.5 then "medio" else "bajo"
  }

  /** `vector[i]`, which is `undefined` past the end. */
  function At(vector: seq<real>, i: nat): Option<real>
  {
    if i < |vector| then Some(vector[i]) else None
  }

  /** `x < c` where an `undefined` x compares false. */
  predicate Below(x: Option<real>, c: real)
  {
    x.Some? && x.value < c
  }

  predicate Above(x: Option<real>, c: real)
  {
    x.Some? && x.value > c
  }

  /** The heuristic's raw score, one term per rule. */
  function RawScore(vector: seq<real>): real
  {
    var temp := At(vector, 10);
    var humidity := At(vector, 0);
    var dewPoint := At(vector, 3);
    0.1
    + (if Below(temp, 5.0) then 0.3 else 0.0)
    + (if Below(temp, 2.0) then 0.3 else 0.0)
    + (if Above(humidity, 85.0) then 0.2 else 0.0)
    + (if Below(dewPoint, 0.0) then 0.2 else 0.0)
  }

  /** The fallback risk: the raw score capped at 1.0. */
  function FallbackScore(vector: seq<real>): real
  {
    var raw := RawScore(vector);
    if raw < 1.0 then raw else 1.0
  }

  /**
   * `inferFrost(vector, threshold)`. A model result is passed through untouched
   * (`undefined` when the process printed nothing); a failure never propagates.
   */
  method InferFrost(vector: seq<real>, threshold: Option<real>, run: ModelRun)
    returns (p: Option<Prediction>)
    ensures run.ModelOutputs? && |run.results| > 0 ==> p == Some(run.results[0])
    ensures run.ModelOutputs? && |run.results| == 0 ==> p.None?
    ensures run.ModelFailed? ==> p.Some? && p.value.mock && p.value.fallback
    ensures run.ModelFailed? ==> p.Some? && p.value.error == Some(FallbackMessage)
    ensures run.ModelFailed? && threshold.Some? ==> p.Some? && p.value.threshold == threshold.value
    ensures run.ModelFailed? && threshold.None? ==> p.Some? && p.value.threshold == DefaultThreshold
    ensures run.ModelFailed? ==> p.Some? && p.value.risk == FallbackScore(vector)
    ensures run.ModelFailed? ==> p.Some? && p.value.riskLevel == RiskLevel(p.value.risk, p.value.threshold)
  {
    var thr := if threshold.Some? then threshold.value else DefaultThreshold;
    if run.ModelOutputs? {
      if |run.results| > 0 {
        return Some(run.results[0]);
      }
      return None;
    }
    var temp := At(vector, 10);
    var humidity := At(vector, 0);
    var dewPoint := At(vector, 3);
    var risk := 0.1;
    if Below(temp, 5.0) { risk := risk + 0.3; }
    if Below(temp, 2.0) { risk := risk + 0.3; }
    if Above(humidity, 85.0) { risk := risk + 0.2; }
    if Below(dewPoint, 0.0) { risk := risk + 0.2; }
    risk := if risk < 1.0 then risk else 1.0;
    var level := if risk >= thr then "alto" else if risk >= 0.5 then "medio" else "bajo";
    p := Some(Prediction(risk, level, thr, true, true, Some(FallbackMessage)));
  }

  // ---------------------------------------------------------------------------
  // Properties of the fallback

  /** The fallback risk stays in [0.1, 1.0]; the raw score reaches 1.1 only when every rule fires. */
  lemma FallbackBounds(vector: seq<real>)
    ensures 0.1 <= RawScore(vector) <= 1.1
    ensures 0.1 <= FallbackScore(vector) <= 1.0
    ensures RawScore(vector) == 1.1 ==> FallbackScore(vector) == 1.0
  {
  }

  /** Below 2 degrees both temperature rules fire, so the risk is at least 0.7. */
  lemma ColdMeansAtLeastPointSeven(vector: seq<real>)
    requires |vector| > 10 && vector[10] < 2.0
    ensures FallbackScore(vector) >= 0.7
  {
  }

  /** Exactly one band holds for every risk and threshold. */
  lemma ExactlyOneBand(risk: real, threshold: real)
    ensures var l := RiskLevel(risk, threshold); l == "alto" || l == "medio" || l == "bajo"
  {
  }

  /** A 1 degree lag temperature, 90% humidity and a -2 dew point give risk 1.0, `alto`. */
  lemma ColdHumidExample(vector: seq<real>)
    requires |vector| == 12 && vector[10] == 1.0 && vector[0] == 90.0 && vector[3] == -2.0
    ensures FallbackScore(vector) == 1.0
    ensures RiskLevel(FallbackScore(vector), DefaultThreshold) == "alto"
  {
  }
}
