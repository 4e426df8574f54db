/** Scoring one sensor payload: the fixed feature ordering fed to the
    isolation forest, the clip of its decision score to a 0..100 health
    score, the status/details derivation, and the load-once model cache. */
module Predict {
  import opened Numeric

  /** The feature dict `extract_features` returns. */
  datatype FeatureVector = FeatureVector(
    vibMean: real, vibStd: real, vibVar: real, vibMax: real, vibMin: real,
    peakFreq: real, peakAmp: real, spectralEnergy: real, harmonicCount: int,
    tiltDev: real, tiltRate: real)

  /** The keys of that dict. */
  datatype FeatureName =
    | VibMean | VibStd | VibVar | VibMax | VibMin
    | PeakFreq | PeakAmp | SpectralEnergy | HarmonicCount
    | TiltDev | TiltRate

  /** `feats[k]`, with the integer harmonic count widened to a float as
      `np.array` does. */
  function Feature(f: FeatureVector, k: FeatureName): real
  {
    match k
    case VibMean => f.vibMean
    case VibStd => f.vibStd
    case VibVar => f.vibVar
    case VibMax => f.vibMax
    case VibMin => f.vibMin
    case PeakFreq => f.peakFreq
    case PeakAmp => f.peakAmp
    case SpectralEnergy => f.spectralEnergy
    case HarmonicCount => f.harmonicCount as real
    case TiltDev => f.tiltDev
    case TiltRate => f.tiltRate
  }

  /** The key list used when scoring. */
  const ModelFeatureOrder: seq<FeatureName> :=
    [PeakFreq, PeakAmp, SpectralEnergy, HarmonicCount, VibVar, TiltRate]

  /** The key list used when building the training rows. */
  const TrainingFeatureOrder: seq<FeatureName> :=
    [PeakFreq, PeakAmp, SpectralEnergy, HarmonicCount, VibVar, TiltRate]

  /** `[feats[k] for k in keys]`. */
  function Project(f: FeatureVector, keys: seq<FeatureName>): (x: seq<real>)
    ensures |x| == |keys|
    ensures forall i :: 0 <= i < |keys| ==> x[i] == Feature(f, keys[i])
  {
    if keys == [] then [] else [Feature(f, keys[0])] + Project(f, keys[1..])
  }

  /** The single row the model is queried with. */
  function ModelInput(f: FeatureVector): (x: seq<real>)
    ensures x == [f.peakFreq, f.peakAmp, f.spectralEnergy, f.harmonicCount as real, f.vibVar, f.tiltRate]
  {
    Project(f, ModelFeatureOrder)
  }

  /** Scoring queries the model with rows in the order it was trained on. */
  lemma TrainingRowMatchesModelInput(f: FeatureVector)
    ensures Project(f, TrainingFeatureOrder) == ModelInput(f)
  {
  }

  /** No feature appears twice in the model's input. */
  lemma ModelFeatureOrderDistinct()
    ensures forall i, j :: 0 <= i < j < |ModelFeatureOrder| ==> ModelFeatureOrder[i] != ModelFeatureOrder[j]
  {
  }

  // ---------------------------------------------------------------------
  // Health score

  /** The reference interval the decision score is clipped against. */
  const LowBound: real := -0.2
  const HighBound: real := 0.2

  /** `int(np.clip((score - -0.2) / (0.2 - -0.2) * 100, 0, 100))`. */
  function HealthScore(score: real): (h: int)
    ensures 0 <= h <= 100
  {
    TruncToInt(Clip((score - LowBound) / (HighBound - LowBound) * 100.0, 0.0, 100.0))
  }

  /** A higher decision score never gives a lower health score. */
  lemma HealthScoreMonotone(s1: real, s2: real)
    requires s1 <= s2
    ensures HealthScore(s1) <= HealthScore(s2)
  {
    var x1 := (s1 - LowBound) / (HighBound - LowBound) * 100.0;
    var x2 := (s2 - LowBound) / (HighBound - LowBound) * 100.0;
    assert x1 <= x2;
    TruncMonotone(Clip(x1, 0.0, 100.0), Clip(x2, 0.0, 100.0));
  }

  /** At or below the low bound the health is 0; at or above the high bound, 100. */
  lemma HealthScoreSaturates(score: real)
    ensures score <= LowBound ==> HealthScore(score) == 0
    ensures score >= HighBound ==> HealthScore(score) == 100
  {
  }

  /** Inside the reference interval the health is `floor((score + 0.2) * 250)`. */
  lemma HealthScoreLinear(score: real)
    requires LowBound <= score <= HighBound
    ensures HealthScore(score) == ((score - LowBound) * 250.0).Floor
  {
  }

  /** The health score is below 40 exactly when the decision score is below -0.04. */
  lemma HealthBelowFortyIff(score: real)
    ensures HealthScore(score) < 40 <==> score < -0.04
  {
    var x := (score - LowBound) / (HighBound - LowBound) * 100.0;
    assert x == (score + 0.2) * 250.0;
    if score < -0.04 {
      assert x < 40.0;
    } else {
      assert x >= 40.0;
      TruncMonotone(40.0, Clip(x, 0.0, 100.0));
    }
  }

  // ---------------------------------------------------------------------
  // Status and details

  datatype Status = Ok | Warning | Critical
  {
    /** The string the result dict carries. */
    function Tag(): string
    {
      match this
      case Ok => "ok"
      case Warning => "warning"
      case Critical => "critical"
    }
  }

  datatype Details = Normal | AnomalyDetected
  {
    function Tag(): string
    {
      match this
      case Normal => "normal"
      case AnomalyDetected => "anomaly_detected"
    }
  }

  /** Status starts "ok", becomes "warning" on an anomaly, and is then
      overridden by "critical" below health 40. */
  function DeriveStatus(healthScore: int, anomaly: bool): (s: Status)
    ensures s == Critical <==> healthScore < 40
    ensures s == Warning <==> healthScore >= 40 && anomaly
    ensures s == Ok <==> healthScore >= 40 && !anomaly
  {
    var s0 := if anomaly then Warning else Ok;
    if healthScore < 40 then Critical else s0
  }

  /** Details report the anomaly flag alone, whatever the health. */
  function DeriveDetails(anomaly: bool): (d: Details)
    ensures d == AnomalyDetected <==> anomaly
    ensures d == Normal <==> !anomaly
  {
    if anomaly then AnomalyDetected else Normal
  }

  /** The wire tags are distinct, so a reader can tell every status apart. */
  lemma StatusTagsDistinct(a: Status, b: Status)
    ensures a.Tag() == b.Tag() <==> a == b
  {
  }

  /** The two details strings are distinct as well. */
  lemma DetailsTagsDistinct(a: Details, b: Details)
    ensures a.Tag() == b.Tag() <==> a == b
  {
  }

  // ---------------------------------------------------------------------
  // The model and the result

  /** A fitted isolation forest, left uninterpreted: its decision function
      (higher is more normal) and its prediction (-1 for an outlier). */
  datatype IsolationForest = IsolationForest(
    decisionFunction: seq<real> -> real,
    predict: seq<real> -> int)

  /** What `load_model` yields: a forest, or the message of the exception
      it raised (a missing artifact, or a load failure). */
  datatype LoadOutcome = Loaded(forest: IsolationForest) | LoadFailed(message: string)

  datatype Option<T> = None | Some(value: T)

  /** The dict `score_payload` returns: a scored reading, or `{"error": ...}`. */
  datatype ScoreResult =
    | Scored(score: real, healthScore: int, status: Status, details: Details, features: FeatureVector)
    | Error(message: string)

  /** The post-processing of `score_payload` once a model is at hand. */
  function Evaluate(m: IsolationForest, feats: FeatureVector): (r: ScoreResult)
    ensures r.Scored? && r.features == feats
    ensures r.score == m.decisionFunction(ModelInput(feats))
    ensures 0 <= r.healthScore <= 100
    ensures r.healthScore == HealthScore(r.score)
    ensures r.status == DeriveStatus(r.healthScore, m.predict(ModelInput(feats)) == -1)
    ensures r.status == Critical <==> r.score < -0.04
    ensures r.details == AnomalyDetected <==> m.predict(ModelInput(feats)) == -1
    ensures r.status == Warning <==> r.score >= -0.04 && m.predict(ModelInput(feats)) == -1
  {
    var x := ModelInput(feats);
    var score := m.decisionFunction(x);
    var anomaly := m.predict(x) == -1;
    var health := HealthScore(score);
    HealthBelowFortyIff(score);
    Scored(score, health, DeriveStatus(health, anomaly), DeriveDetails(anomaly), feats)
  }

  /** The module-global `_model`: empty until a load succeeds. */
  class ModelCache {
    var model: Option<IsolationForest>

    constructor ()
      ensures model == None
    {
      model := None;
    }

    /** `load_model`: on success the loaded forest replaces whatever was
        cached; on failure the cache is untouched and the error is returned. */
    method LoadModel(artifact: LoadOutcome) returns (r: LoadOutcome)
      modifies this
      ensures r == artifact
      ensures artifact.Loaded? ==> model == Some(artifact.forest)
      ensures artifact.LoadFailed? ==> model == old(model)
    {
      if artifact.Loaded? {
        model := Some(artifact.forest);
      }
      r := artifact;
    }

    /** `score_payload` on already extracted features. A cached forest is
        used as is; otherwise the forest is loaded once, and a failed load
        gives an error result with no score and leaves the cache empty. */
    method ScorePayload(feats: FeatureVector, artifact: LoadOutcome) returns (r: ScoreResult)
      modifies this
      ensures old(model).Some? ==> model == old(model) && r == Evaluate(old(model).value, feats)
      ensures old(model).None? && artifact.LoadFailed? ==>
        model == None && r == Error(artifact.message)
      ensures old(model).None? && artifact.Loaded? ==>
        model == Some(artifact.forest) && r == Evaluate(artifact.forest, feats)
    {
      if model.None? {
        var loaded := LoadModel(artifact);
        if loaded.LoadFailed? {
          return Error(loaded.message);
        }
      }
      r := Evaluate(model.value, feats);
    }
  }
}
