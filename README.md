# Heritage-health digital twin: a Dafny model of the health core

This project models the two stateful and discrete parts of a predictive-maintenance
pipeline for a building's support pillars:

- **The digital twin** (`BuildingTwin`). It holds four pillars, `P1`..`P4`, each with an
  integer health, plus an integer overall health. All five start at 100. Each anomaly
  score lowers one pillar by `int(abs(score) * 12)`, clamped at 0. The overall health is
  `int(sum / 4)` and is recomputed only when asked. The driver runs one *scoring cycle*
  per reading. A cycle updates P1..P4 with the score divided by 1, 2, 3 and 4, then
  recomputes the overall health. `digital_twin.dfy` models the twin as a class with
  mutable `pillars` (a map) and `overallHealth` fields. It also models the cycle and the
  driver's endless loop, and proves bounds, monotone decay, zero as an absorbing value,
  and the reference cycle (12/6/4/3 damage, overall 93).
- **Scoring post-processing** (`score_payload`). This covers the six-feature row the
  isolation forest is queried with and the clip of the forest's decision score to a
  0..100 health score. It also covers the derivation of `status` ("ok" / "warning" /
  "critical") and `details` ("normal" / "anomaly_detected"), and the module-global
  load-once model cache. `predict.dfy` holds these. The forest is an uninterpreted pair of
  functions. Whatever loading yields is passed in as a parameter.

`numeric.dfy` states Python's `abs`, `max`, `int()` (truncation toward zero) and numpy's
`clip` over Dafny's reals and integers.

Points where the code's behaviour is easy to misread:

- `update_pillar` does not recompute the overall health, so the overall health is
  **stale** until `update_building_health` runs. The class invariant
  (`BuildingTwin.Valid`) bounds the staleness: the stored overall health is never below
  the floor of the current pillar mean. After every full cycle the two are equal.
- The driver passes the raw decision score of `backend/model.py`'s forest to the twin,
  so the cycle takes an arbitrary real score.
- When loading the model fails, `score_payload` returns `{"error": str(e)}`, a record
  with no score and no health.

## Model

| member | source | states |
|---|---|---|
| `DigitalTwin.PillarNamesAgree` | backend/digital_twin.py:3-8 | the ordered pillar names and the pillar key set hold the same four names, each once |
| `DigitalTwin.InitialPillars` | backend/digital_twin.py:3-8 | exactly the pillars P1..P4 exist, each with health 100 |
| `DigitalTwin.BuildingTwin.constructor` | backend/digital_twin.py:2-9 | a new twin has the initial pillars and overall health 100, and satisfies the class invariant |
| `DigitalTwin.Damage` | backend/digital_twin.py:12 | the damage is the largest integer not above `abs(score) * 12` |
| `DigitalTwin.Decayed` | backend/digital_twin.py:12-15 | the new health is never negative, never below `old - damage`, and is either 0 or exactly `old - damage` |
| `DigitalTwin.DecayPillar` | backend/digital_twin.py:11-15 | only the named pillar changes, to its decayed health; the set of pillars is unchanged |
| `DigitalTwin.DecayedSignSymmetric` | backend/digital_twin.py:12 | a score and its negation do the same damage |
| `DigitalTwin.DecayedZeroScore` | backend/digital_twin.py:12-15 | a zero score leaves a non-negative health unchanged |
| `DigitalTwin.DecayedBounded` | backend/digital_twin.py:13-15 | a health in [0,100] stays in [0,100] and never increases |
| `DigitalTwin.DecayedZeroAbsorbing` | backend/digital_twin.py:13-15 | a pillar at 0 stays at 0 under any score |
| `DigitalTwin.SumOverBounds` | backend/digital_twin.py:18 | the sum of pillar healths in [0,100] lies between 0 and 100 per pillar |
| `DigitalTwin.SumOverMonotone` | backend/digital_twin.py:18 | pointwise lower pillar healths give a sum no higher |
| `DigitalTwin.OverallIsFloorMean` | backend/digital_twin.py:17-19 | `int(total / 4)` equals the floor of the pillar mean and lies in [0,100] |
| `DigitalTwin.OverallMonotone` | backend/digital_twin.py:17-19 | lower pillar healths never give a higher overall health |
| `DigitalTwin.StaleOverallAfterUpdate` | backend/digital_twin.py:11-19 | one update of P1 by score 1.0 on the initial pillars leaves P1 at 88 and the floor mean of the pillars at 97 |
| `DigitalTwin.StaleOverallExample` | backend/digital_twin.py:11-19 | on a new twin, after `update_pillar("P1", 1.0)` the stored overall is still 100 while the floor mean is 97; `update_building_health` then sets it to 97 |
| `DigitalTwin.CycleDecayPillars` | backend/main.py:41-44 | a cycle decays P1..P4 by the score divided by 1, 2, 3 and 4 respectively and keeps the pillars well formed |
| `DigitalTwin.ReferenceCycle` | backend/main.py:41-46 | from a new twin, a cycle with score 1.0 gives pillars 88, 94, 96, 97 and overall 93 |
| `DigitalTwin.CyclesNonIncreasing` | backend/main.py:26-46 | across any number of cycles every pillar stays in [0,100] and never rises |
| `DigitalTwin.CyclesZeroAbsorbing` | backend/main.py:26-46 | a pillar at 0 stays at 0 across any number of cycles |
| `DigitalTwin.BuildingTwin.UpdatePillar` | backend/digital_twin.py:11-15 | an existing pillar becomes `max(0, old - int(abs(s)*12))`, other pillars and the overall health are unchanged; an unknown name (KeyError) changes nothing; the invariant is kept |
| `DigitalTwin.BuildingTwin.UpdateBuildingHealth` | backend/digital_twin.py:17-19 | overall becomes the floor of the pillar mean; pillars are unchanged; the invariant is kept |
| `DigitalTwin.BuildingTwin.GetState` | backend/digital_twin.py:21-25 | returns the current overall health and pillars without changing them, all within [0,100] over exactly P1..P4 |
| `DigitalTwin.BuildingTwin.RunCycle` | backend/main.py:41-46 | after the four weighted updates and the recomputation, the pillars are the cycle's decay of the old ones and overall is their floor mean |
| `DigitalTwin.BuildingTwin.RunCycles` | backend/main.py:26-49 | after one cycle per score, the pillars are the iterated decay and overall matches them (unchanged when there were no scores) |
| `Predict.Project` | ml/predict.py:31 | the row has one value per key, each the feature that key names |
| `Predict.ModelInput` | ml/predict.py:31 | the model is queried with exactly peak_freq, peak_amp, spectral_energy, harmonic_count, vib_var, tilt_rate in that order |
| `Predict.TrainingRowMatchesModelInput` | ml/train_iforest.py:27 | training rows are built with the same feature order the scorer uses |
| `Predict.ModelFeatureOrderDistinct` | ml/predict.py:31 | no feature appears twice in the model input |
| `Predict.HealthScore` | ml/predict.py:45 | the health score is an integer in [0,100] |
| `Predict.HealthScoreMonotone` | ml/predict.py:45 | a higher decision score never gives a lower health score |
| `Predict.HealthScoreSaturates` | ml/predict.py:45 | a score of -0.2 or below gives 0; 0.2 or above gives 100 |
| `Predict.HealthScoreLinear` | ml/predict.py:45 | inside [-0.2, 0.2] the health is the floor of `(score + 0.2) * 250` |
| `Predict.HealthBelowFortyIff` | ml/predict.py:45-53 | the health score is below the critical threshold 40 exactly when the decision score is below -0.04 |
| `Predict.DeriveStatus` | ml/predict.py:47-53 | critical iff health < 40 whatever the flag; otherwise warning iff anomalous and ok iff not |
| `Predict.DeriveDetails` | ml/predict.py:48-51 | details is anomaly_detected iff the anomaly flag is set, independent of the health |
| `Predict.StatusTagsDistinct` | ml/predict.py:47-53 | the three status strings are pairwise distinct |
| `Predict.DetailsTagsDistinct` | ml/predict.py:48-51 | the two details strings are distinct |
| `Predict.Evaluate` | ml/predict.py:40-61 | the result carries the forest's score on the six-feature row and the features; its health is the clip of that score, in [0,100]; its status is derived from that health and the forest's -1 prediction; critical iff the score is below -0.04; details flag the forest's -1 prediction; warning iff anomalous and not critical |
| `Predict.ModelCache.constructor` | ml/predict.py:8 | the cache starts empty |
| `Predict.ModelCache.LoadModel` | ml/predict.py:10-17 | a successful load replaces the cached forest and returns it; a failed load leaves the cache unchanged and returns the error |
| `Predict.ModelCache.ScorePayload` | ml/predict.py:20-61 | a cached forest is reused and never reloaded; with an empty cache a failed load yields an error record with no score and the cache stays empty, and a successful load is cached and used |

## Left out

- Feature extraction (Hann window, FFT, peak finding, time-domain and tilt statistics, `processing/fft.py`) is floating-point numerics over numpy/scipy calls. `ScorePayload` takes the extracted features as input, and its `fs` argument is dropped with it.
- The isolation forests (`backend/model.py`, `ml/train_iforest.py`) are fitted on random data by scikit-learn. The model leaves them uninterpreted: a decision function and a prediction.
- `load_model`'s path resolution, `os.path.exists` and `joblib.load` are file I/O. Their outcome, a forest or an exception message, is a parameter.
- The websocket endpoint, `asyncio.sleep`, reading `data/live.json`, the four statistics at `backend/main.py:32-37`, the call into `backend/model.py` and the static routes are transport and I/O. `RunCycles` takes the sequence of scores the loop would have received.
- Floats are idealised as exact reals. For example, `-0.04 - -0.2` is not exactly 0.16 in binary floating point, so the threshold in `HealthBelowFortyIff` may differ by one rounding step at its boundary. NaN and infinite scores are not modelled.
- `GetState` returns a value snapshot. The source returns its live `pillars` dict, so a caller holding it sees later updates (aliasing).
- `UpdatePillar` returns `found == false` where the source raises `KeyError`. Nothing is changed in either case.
- Each websocket connection runs its own loop on the module-global twin (backend/main.py:13, 22-49). Lines 27-46 contain no `await`, so the loops interleave only between whole cycles, and `RunCycles` over the merged sequence of scores covers them. Threads sharing the loaded model are not modelled.
- The simulator, `ml/quick_test.py` and the `__main__` blocks are data generators and scripts.
