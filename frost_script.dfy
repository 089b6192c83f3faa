/**
 * `predict_frost_vector.py`: the child process that scores one vector with the
 * trained classifier. The joblib file and the classifier itself are not
 * modelled; the loaded model is a value whose scoring function is an input.
 * One object of `ScriptProcess` is one Python process with its module globals.
 */
module FrostScript {
  import opened Common
  import FrostInference

  /** A model either exposes `predict_proba` (probability of class 1) or only `predict`. */
  datatype Model = Classifier(probability: seq<real> -> real) | Regressor(output: seq<real> -> real)

  /** The JSON payload read from `argv[1]`. */
  datatype Payload = Payload(vector: seq<real>, threshold: Option<real>)

  const DefaultThreshold: real := 0.9

  /** `payload.get("threshold", 0.9)`. */
  function ThresholdOf(payload: Payload): (t: real)
    ensures payload.threshold.None? ==> t == 0.9
    ensures payload.threshold.Some? ==> t == payload.threshold.value
  {
    if payload.threshold.Some? then payload.threshold.value else DefaultThreshold
  }

  /** The score the script reads off the model. */
  function Probability(model: Model, vector: seq<real>): real
  {
    match model
    case Classifier(p) => p(vector)
    case Regressor(o) => o(vector)
  }

  /** The script's own banding expression. */
  function Band(prob: real, threshold: real): (level: string)
  {
    if prob >= threshold then "alto" else if prob >= 0.5 then "medio" else "bajo"
  }

  /** The script bands exactly like the JavaScript fallback. */
  lemma BandMatchesFallback(prob: real, threshold: real)
    ensures Band(prob, threshold) == FrostInference.RiskLevel(prob, threshold)
    ensures Band(prob, threshold) == "alto" <==> prob >= threshold
    ensures Band(prob, threshold) == "medio" <==> 0.5 <= prob < threshold
  {
  }

  class ScriptProcess {
    /** The global `_model` cache. */
    var cached: Option<Model>
    /** How many times `joblib.load` has run in this process. */
    var loads: nat

    ghost predicate Valid()
      reads this
    {
      (cached.None? <==> loads == 0) && loads <= 1
    }

    constructor ()
      ensures Valid() && cached.None? && loads == 0
    {
      cached := None;
      loads := 0;
    }

    /** `load_model()`: load from disk on the first call only. */
    method LoadModel(onDisk: Model) returns (m: Model)
      requires Valid()
      modifies this
      ensures Valid()
      ensures old(cached).Some? ==> m == old(cached).value && cached == old(cached) && loads == old(loads)
      ensures old(cached).None? ==> m == onDisk && cached == Some(onDisk) && loads == 1
    {
      if cached.None? {
        cached := Some(onDisk);
        loads := loads + 1;
      }
      m := cached.value;
    }

    /** The script's `main()`: score the payload's vector and return the printed object. */
    method Run(payload: Payload, onDisk: Model) returns (out: FrostInference.Prediction)
      requires Valid()
      modifies this
      ensures Valid() && loads <= 1
      ensures var m := if old(cached).Some? then old(cached).value else onDisk;
        var prob := Probability(m, payload.vector);
        out == FrostInference.Prediction(prob, Band(prob, ThresholdOf(payload)), ThresholdOf(payload),
                                         false, false, None)
    {
      var threshold := ThresholdOf(payload);
      var model := LoadModel(onDisk);
      var prob := Probability(model, payload.vector);
      out := FrostInference.Prediction(prob, Band(prob, threshold), threshold, false, false, None);
    }
  }
}
