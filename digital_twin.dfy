/** The digital twin's health aggregator (`BuildingTwin`) and the scoring
    cycle that drives it. Four pillars carry an integer health that anomaly
    scores wear down; the overall health is the truncated mean of the
    pillars, recomputed only on request. */
module DigitalTwin {
  import opened Numeric

  /** Damage per unit of anomaly score. */
  const DamageScale: int := 12
  /** Health of every pillar, and of the building, at construction. */
  const InitialHealth: int := 100
  /** The pillars in the order `self.pillars` holds them. */
  const PillarNames: seq<string> := ["P1", "P2", "P3", "P4"]
  /** The same names as a set, the keys of `self.pillars`. */
  const PillarSet: set<string> := {"P1", "P2", "P3", "P4"}

  /** Pillar name to health: the `self.pillars` dict with each
      `{"health": h}` entry flattened to `h`. */
  type Pillars = map<string, int>

  /** The snapshot `get_state` returns. */
  datatype TwinState = TwinState(overallHealth: int, pillars: Pillars)

  /** The set and the sequence of pillar names hold the same names, each once. */
  lemma PillarNamesAgree()
    ensures PillarSet == set n | n in PillarNames
    ensures |PillarNames| == |PillarSet|
  {
  }

  /** Exactly the four pillars exist and each health is in [0, 100]. */
  predicate WellFormed(p: Pillars)
  {
    p.Keys == PillarSet && forall n :: n in p ==> 0 <= p[n] <= 100
  }

  /** The pillars as the constructor builds them. */
  function InitialPillars(): (p: Pillars)
    ensures WellFormed(p)
    ensures forall n :: n in p ==> p[n] == InitialHealth
  {
    map["P1" := InitialHealth, "P2" := InitialHealth, "P3" := InitialHealth, "P4" := InitialHealth]
  }

  /** `int(abs(anomaly_score) * 12)`: the health an anomaly score removes. */
  function Damage(anomalyScore: real): (d: nat)
    ensures d as real <= Abs(anomalyScore) * 12.0 < d as real + 1.0
  {
    TruncToInt(Abs(anomalyScore) * DamageScale as real)
  }

  /** `max(0, health - int(damage))`: a pillar's health after one anomaly score. */
  function Decayed(health: int, anomalyScore: real): (r: int)
    ensures r >= 0
    ensures r >= health - Damage(anomalyScore)
    ensures r == 0 || r == health - Damage(anomalyScore)
  {
    Max(0, health - Damage(anomalyScore))
  }

  /** The pillars after `update_pillar(name, anomaly_score)` on an existing name. */
  function DecayPillar(p: Pillars, name: string, anomalyScore: real): (q: Pillars)
    requires name in p
    ensures q.Keys == p.Keys
    ensures q[name] == Decayed(p[name], anomalyScore)
    ensures forall n :: n in p && n != name ==> q[n] == p[n]
  {
    p[name := Decayed(p[name], anomalyScore)]
  }

  /** Sum of the healths of the named pillars. */
  function SumOver(p: Pillars, names: seq<string>): int
    requires forall n :: n in names ==> n in p
  {
    if names == [] then 0 else p[names[0]] + SumOver(p, names[1..])
  }

  /** `int(total / 4)` where `total` sums the healths of all pillars. */
  function OverallOf(p: Pillars): int
    requires p.Keys == PillarSet
  {
    TruncToInt(SumOver(p, PillarNames) as real / 4.0)
  }

  /** One scoring cycle of the driver: pillar k takes the score divided by k. */
  function CycleDecay(p: Pillars, score: real): (q: Pillars)
    requires p.Keys == PillarSet
    ensures q.Keys == PillarSet
  {
    var p1 := DecayPillar(p, "P1", score);
    var p2 := DecayPillar(p1, "P2", score / 2.0);
    var p3 := DecayPillar(p2, "P3", score / 3.0);
    DecayPillar(p3, "P4", score / 4.0)
  }

  /** The pillars after one cycle per score, oldest score first. */
  function CyclesDecay(p: Pillars, scores: seq<real>): (q: Pillars)
    requires p.Keys == PillarSet
    ensures q.Keys == PillarSet
  {
    if scores == [] then p
    else CycleDecay(CyclesDecay(p, scores[..|scores| - 1]), scores[|scores| - 1])
  }

  // ---------------------------------------------------------------------
  // Properties of a single pillar update

  /** Positive and negative scores of equal magnitude do the same damage. */
  lemma DecayedSignSymmetric(health: int, anomalyScore: real)
    ensures Decayed(health, -anomalyScore) == Decayed(health, anomalyScore)
  {
  }

  /** A score of zero leaves a non-negative health unchanged. */
  lemma DecayedZeroScore(health: int)
    requires health >= 0
    ensures Decayed(health, 0.0) == health
  {
  }

  /** Decay never raises a health and keeps a health in [0, 100] there. */
  lemma DecayedBounded(health: int, anomalyScore: real)
    requires 0 <= health <= 100
    ensures 0 <= Decayed(health, anomalyScore) <= health
  {
  }

  /** Zero is absorbing: a pillar at 0 stays at 0 whatever the score. */
  lemma DecayedZeroAbsorbing(anomalyScore: real)
    ensures Decayed(0, anomalyScore) == 0
  {
  }

  // ---------------------------------------------------------------------
  // Properties of the overall health

  lemma {:induction false} SumOverBounds(p: Pillars, names: seq<string>)
    requires forall n :: n in names ==> n in p
    requires forall n :: n in p ==> 0 <= p[n] <= 100
    ensures 0 <= SumOver(p, names) <= 100 * |names|
  {
    if names != [] {
      SumOverBounds(p, names[1..]);
    }
  }

  lemma {:induction false} SumOverMonotone(p: Pillars, q: Pillars, names: seq<string>)
    requires forall n :: n in names ==> n in p && n in q
    requires forall n :: n in names ==> p[n] <= q[n]
    ensures SumOver(p, names) <= SumOver(q, names)
  {
    if names != [] {
      SumOverMonotone(p, q, names[1..]);
    }
  }

  /** The overall health is the floor of the mean pillar health, in [0, 100]. */
  lemma OverallIsFloorMean(p: Pillars)
    requires WellFormed(p)
    ensures OverallOf(p) == SumOver(p, PillarNames) / 4
    ensures 0 <= OverallOf(p) <= 100
  {
    SumOverBounds(p, PillarNames);
    TruncQuarter(SumOver(p, PillarNames));
  }

  /** Lower pillar healths never give a higher overall health. */
  lemma OverallMonotone(p: Pillars, q: Pillars)
    requires WellFormed(p) && WellFormed(q)
    requires forall n :: n in p ==> p[n] <= q[n]
    ensures OverallOf(p) <= OverallOf(q)
  {
    SumOverMonotone(p, q, PillarNames);
    OverallIsFloorMean(p);
    OverallIsFloorMean(q);
  }

  // ---------------------------------------------------------------------
  // Properties of the scoring cycle

  /** Each pillar of a cycle is decayed by its own share of the score. */
  lemma CycleDecayPillars(p: Pillars, score: real)
    requires WellFormed(p)
    ensures WellFormed(CycleDecay(p, score))
    ensures CycleDecay(p, score)["P1"] == Decayed(p["P1"], score)
    ensures CycleDecay(p, score)["P2"] == Decayed(p["P2"], score / 2.0)
    ensures CycleDecay(p, score)["P3"] == Decayed(p["P3"], score / 3.0)
    ensures CycleDecay(p, score)["P4"] == Decayed(p["P4"], score / 4.0)
  {
  }

  /** A cycle with score 1.0 from a new twin: damages 12, 6, 4, 3, overall 93. */
  lemma ReferenceCycle()
    ensures CycleDecay(InitialPillars(), 1.0) == map["P1" := 88, "P2" := 94, "P3" := 96, "P4" := 97]
    ensures OverallOf(CycleDecay(InitialPillars(), 1.0)) == 93
  {
    var q := CycleDecay(InitialPillars(), 1.0);
    assert Damage(1.0) == 12 && Damage(1.0 / 2.0) == 6;
    assert Damage(1.0 / 3.0) == 4 && Damage(1.0 / 4.0) == 3;
    assert q == map["P1" := 88, "P2" := 94, "P3" := 96, "P4" := 97];
    assert SumOver(q, PillarNames) == 375;
  }

  /** Over any number of cycles every pillar stays in [0, 100] and never rises. */
  lemma {:induction false} CyclesNonIncreasing(p: Pillars, scores: seq<real>)
    requires WellFormed(p)
    ensures WellFormed(CyclesDecay(p, scores))
    ensures forall n :: n in p ==> CyclesDecay(p, scores)[n] <= p[n]
  {
    if scores != [] {
      var prefix := scores[..|scores| - 1];
      CyclesNonIncreasing(p, prefix);
      CycleDecayPillars(CyclesDecay(p, prefix), scores[|scores| - 1]);
    }
  }

  /** A pillar that reached 0 stays at 0 through any number of cycles. */
  lemma {:induction false} CyclesZeroAbsorbing(p: Pillars, scores: seq<real>, name: string)
    requires WellFormed(p) && name in p && p[name] == 0
    ensures CyclesDecay(p, scores)[name] == 0
  {
    if scores != [] {
      var prefix := scores[..|scores| - 1];
      CyclesZeroAbsorbing(p, prefix, name);
      CyclesNonIncreasing(p, prefix);
      CycleDecayPillars(CyclesDecay(p, prefix), scores[|scores| - 1]);
    }
  }

  /** A pillar update outside a cycle leaves the overall health stale: from a
      new twin, P1 at score 1.0 drops to 88 while the overall stays 100 and
      the mean falls to 97. */
  lemma StaleOverallAfterUpdate()
    ensures DecayPillar(InitialPillars(), "P1", 1.0)["P1"] == 88
    ensures OverallOf(DecayPillar(InitialPillars(), "P1", 1.0)) == 97
  {
    var q := DecayPillar(InitialPillars(), "P1", 1.0);
    assert Damage(1.0) == 12;
    assert SumOver(q, PillarNames) == 388;
  }

  // ---------------------------------------------------------------------
  // The twin itself

  class BuildingTwin {
    var pillars: Pillars
    var overallHealth: int

    /** The pillars are well formed, the overall health is in [0, 100], and
        because overall health is only recomputed on request it may be stale,
        but only ever on the high side of the current pillars' mean. */
    ghost predicate Valid()
      reads this
    {
      WellFormed(pillars) && 0 <= overallHealth <= 100 && OverallOf(pillars) <= overallHealth
    }

    constructor ()
      ensures Valid()
      ensures pillars == InitialPillars() && overallHealth == InitialHealth
    {
      pillars := InitialPillars();
      overallHealth := InitialHealth;
      OverallIsFloorMean(InitialPillars());
    }

    /** Lowers the named pillar by `int(abs(anomalyScore) * 12)`, clamped at 0.
        `found` is false when the name is not a pillar (`update_pillar`
        raises `KeyError` there) and then nothing changes. The overall health is
        not recomputed. */
    method UpdatePillar(name: string, anomalyScore: real) returns (found: bool)
      requires Valid()
      modifies this
      ensures Valid()
      ensures found == (name in old(pillars))
      ensures found ==> pillars == DecayPillar(old(pillars), name, anomalyScore)
      ensures !found ==> pillars == old(pillars)
      ensures overallHealth == old(overallHealth)
    {
      found := name in pillars;
      if found {
        var damage := Damage(anomalyScore);
        var before := pillars;
        pillars := pillars[name := Max(0, pillars[name] - damage)];
        OverallMonotone(pillars, before);
      }
    }

    /** Sets the overall health to `int(sum of pillar healths / 4)`. */
    method UpdateBuildingHealth()
      requires Valid()
      modifies this
      ensures Valid()
      ensures pillars == old(pillars)
      ensures overallHealth == OverallOf(pillars)
      ensures overallHealth == SumOver(pillars, PillarNames) / 4
    {
      var total := SumOver(pillars, PillarNames);
      overallHealth := TruncToInt(total as real / 4.0);
      OverallIsFloorMean(pillars);
    }

    /** The published snapshot: the current overall health and pillars,
        each within [0, 100]. */
    function GetState(): (s: TwinState)
      reads this
      requires Valid()
      ensures s.overallHealth == overallHealth && s.pillars == pillars
      ensures 0 <= s.overallHealth <= 100 && WellFormed(s.pillars)
    {
      TwinState(overallHealth, pillars)
    }

    /** One cycle of the driver loop: the four weighted pillar updates,
        then the overall recomputation. */
    method RunCycle(score: real)
      requires Valid()
      modifies this
      ensures Valid()
      ensures pillars == CycleDecay(old(pillars), score)
      ensures overallHealth == OverallOf(pillars)
    {
      ghost var p0 := pillars;
      var found := UpdatePillar("P1", score);
      ghost var p1 := pillars;
      assert p1 == DecayPillar(p0, "P1", score);
      found := UpdatePillar("P2", score / 2.0);
      ghost var p2 := pillars;
      assert p2 == DecayPillar(p1, "P2", score / 2.0);
      found := UpdatePillar("P3", score / 3.0);
      ghost var p3 := pillars;
      assert p3 == DecayPillar(p2, "P3", score / 3.0);
      found := UpdatePillar("P4", score / 4.0);
      assert pillars == DecayPillar(p3, "P4", score / 4.0);
      assert pillars == CycleDecay(p0, score);
      UpdateBuildingHealth();
    }

    /** The driver's endless loop, run for one cycle per given score. */
    method RunCycles(scores: seq<real>)
      requires Valid()
      modifies this
      ensures Valid()
      ensures pillars == CyclesDecay(old(pillars), scores)
      ensures scores != [] ==> overallHealth == OverallOf(pillars)
      ensures scores == [] ==> overallHealth == old(overallHealth)
    {
      var i := 0;
      while i < |scores|
        invariant 0 <= i <= |scores|
        invariant Valid()
        invariant pillars == CyclesDecay(old(pillars), scores[..i])
        invariant i > 0 ==> overallHealth == OverallOf(pillars)
        invariant i == 0 ==> overallHealth == old(overallHealth)
      {
        RunCycle(scores[i]);
        assert scores[..i + 1][..i] == scores[..i];
        i := i + 1;
      }
      assert scores[..|scores|] == scores;
    }
  }

  /** On a new twin, one pillar update leaves the stored overall health at
      100 while the pillars' floor mean is already 97; recomputing catches up. */
  method StaleOverallExample() returns (stored: int, mean: int, recomputed: int)
    ensures stored == 100 && mean == 97 && recomputed == 97
  {
    var twin := new BuildingTwin();
    var found := twin.UpdatePillar("P1", 1.0);
    StaleOverallAfterUpdate();
    stored, mean := twin.overallHealth, OverallOf(twin.pillars);
    twin.UpdateBuildingHealth();
    recomputed := twin.overallHealth;
  }
}
