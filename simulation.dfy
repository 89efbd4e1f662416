/** The impact simulator: source targeting, adjusted reduction range and pm2.5 projection. */
module Simulation {
  import opened Wrappers
  import opened Text
  import opened Sectors
  import opened Diagnostics
  import opened Meteorology
  import opened Effectiveness

  datatype Confidence = Low | Medium | High
  {
    function Label(): string
    {
      match this
      case Low => "low"
      case Medium => "medium"
      case High => "high"
    }
  }

  /** How well an intervention addresses the dominant source, and how sure that estimate is. */
  datatype Targeting = Targeting(sourceMatch: real, confidence: Confidence)

  predicate TargetsTraffic(policyName: string)
  {
    Contains(policyName, "Traffic") || Contains(policyName, "Vehicle") || Contains(policyName, "Truck")
  }

  predicate TargetsDust(policyName: string)
  {
    Contains(policyName, "Construction") || Contains(policyName, "Dust") || Contains(policyName, "Street")
  }

  /** The source-match cascade: traffic, then dust, then industry, then everything else. */
  function TargetingOf(policyName: string, sectorName: string, pm25: real, pm10: real, trafficIndex: real): (t: Targeting)
    ensures pm10 >= 0.0 && trafficIndex >= 0.0 ==> 0.0 <= t.sourceMatch <= 1.0
    ensures t.confidence == Low <==>
      !TargetsTraffic(policyName) && !TargetsDust(policyName)
      && Contains(policyName, "Industrial") && !Contains(sectorName, "Industrial")
    ensures TargetsTraffic(policyName) ==>
      (trafficIndex >= 0.0 ==> t.sourceMatch >= 0.5) && (t.confidence == High <==> trafficIndex > 0.4)
    ensures !TargetsTraffic(policyName) && TargetsDust(policyName) ==>
      (t.confidence == High <==> PmRatio(pm25, pm10) > 1.5)
  {
    if TargetsTraffic(policyName) then
      Targeting(Min(1.0, trafficIndex + 0.5), if trafficIndex > 0.4 then High else Medium)
    else if TargetsDust(policyName) then
      var ratio := PmRatio(pm25, pm10);
      Targeting(Min(1.0, (ratio - 1.0) * 0.5 + 0.5), if ratio > 1.5 then High else Medium)
    else if Contains(policyName, "Industrial") then
      if Contains(sectorName, "Industrial") then Targeting(0.85, High) else Targeting(0.5, Low)
    else Targeting(0.7, Medium)
  }

  /**
   * The combined industrial policy names "Vehicle", so the traffic test claims it first:
   * its source match follows the traffic index even inside the industrial sector.
   */
  lemma CombinedIndustrialPolicyTargetsTraffic(pm25: real, pm10: real, trafficIndex: real)
    ensures TargetingOf("Industrial Emission Control + Vehicle Restrictions", "Gurgaon Industrial Hub", pm25, pm10, trafficIndex)
         == Targeting(Min(1.0, trafficIndex + 0.5), if trafficIndex > 0.4 then High else Medium)
  {
    assert OccursAt("Industrial Emission Control + Vehicle Restrictions", "Vehicle", 30);
  }

  /** Reduction percentages after meteorological and targeting adjustment. */
  datatype Impact = Impact(minReduction: real, expectedReduction: real, maxReduction: real, metFactor: real, confidence: Confidence)

  /** Scale the effectiveness range by the met factor and the source match, as percentages. */
  function SimulateImpact(range: EffectivenessRange, windSpeed: real, hour: int, sourceMatch: real, confidence: Confidence): (i: Impact)
    ensures 0.4 <= i.metFactor <= 1.1
    ensures i.confidence == confidence
    ensures range.Valid() && sourceMatch >= 0.0 ==>
      0.0 <= i.minReduction <= i.expectedReduction <= i.maxReduction
    ensures range.Valid() && 0.0 <= sourceMatch <= 1.0 ==> i.maxReduction <= 110.0 * range.hi
  {
    ScaledImpact(range, MetFactor(windSpeed, hour), sourceMatch, confidence)
  }

  /** The impact for a given meteorological factor `met`. */
  function ScaledImpact(range: EffectivenessRange, met: real, sourceMatch: real, confidence: Confidence): (i: Impact)
    requires 0.4 <= met <= 1.1
    ensures i.metFactor == met && i.confidence == confidence
    ensures range.Valid() && sourceMatch >= 0.0 ==>
      0.0 <= i.minReduction <= i.expectedReduction <= i.maxReduction
    ensures range.Valid() && 0.0 <= sourceMatch <= 1.0 ==> i.maxReduction <= 110.0 * range.hi
  {
    var scale := met * sourceMatch * 100.0;
    var i := Impact(range.lo * scale, range.typical * scale, range.hi * scale, met, confidence);
    ScaledRange(range, met, sourceMatch, scale, i);
    i
  }

  /**
   * Scaling a valid range by a non-negative factor keeps it ordered and non-negative; with a
   * factor of at most 1.1 and a match of at most 1 the maximum grows by at most 110 %.
   */
  lemma ScaledRange(range: EffectivenessRange, met: real, sourceMatch: real, scale: real, i: Impact)
    requires 0.0 <= met <= 1.1 && scale == met * sourceMatch * 100.0
    requires i.minReduction == range.lo * scale && i.expectedReduction == range.typical * scale
    requires i.maxReduction == range.hi * scale
    ensures range.Valid() && sourceMatch >= 0.0 ==>
      0.0 <= i.minReduction <= i.expectedReduction <= i.maxReduction
    ensures range.Valid() && 0.0 <= sourceMatch <= 1.0 ==> i.maxReduction <= 110.0 * range.hi
  {
    if range.Valid() && sourceMatch >= 0.0 {
      var product := met * sourceMatch;
      assert scale == product * 100.0 && product >= 0.0;
      ScaleMonotone(0.0, range.lo, scale);
      ScaleMonotone(range.lo, range.typical, scale);
      ScaleMonotone(range.typical, range.hi, scale);
      if sourceMatch <= 1.0 {
        ScaleMonotone(sourceMatch, 1.0, met);
        assert product == sourceMatch * met <= met;
        ScaleMonotone(product, 1.1, range.hi);
        assert range.hi * scale == (product * range.hi) * 100.0;
      }
    }
  }

  /** pm2.5 after a reduction of `pct` percent. */
  function Reduced(current: real, pct: real): (after: real)
    ensures current >= 0.0 && pct >= 0.0 ==> after <= current
    ensures current >= 0.0 && pct <= 100.0 ==> after >= 0.0
  {
    current * (1.0 - pct / 100.0)
  }

  /** A larger reduction leaves less pm2.5. */
  lemma ReducedAntitone(current: real, p: real, q: real)
    requires current >= 0.0 && p <= q
    ensures Reduced(current, q) <= Reduced(current, p)
  {
    var cutP, cutQ := p / 100.0 * current, q / 100.0 * current;
    ScaleMonotone(p / 100.0, q / 100.0, current);
    assert Reduced(current, p) == current - cutP;
    assert Reduced(current, q) == current - cutQ;
  }

  /** The projected pm2.5 range: the largest reduction gives the best case. */
  datatype Projection = Projection(bestCase: real, expected: real, worstCase: real)

  function Project(current: real, impact: Impact): (p: Projection)
    ensures current >= 0.0 && 0.0 <= impact.minReduction <= impact.expectedReduction <= impact.maxReduction ==>
      p.bestCase <= p.expected <= p.worstCase <= current
  {
    if current >= 0.0 && 0.0 <= impact.minReduction <= impact.expectedReduction <= impact.maxReduction then
      ReducedAntitone(current, impact.expectedReduction, impact.maxReduction);
      ReducedAntitone(current, impact.minReduction, impact.expectedReduction);
      Projection(Reduced(current, impact.maxReduction), Reduced(current, impact.expectedReduction),
        Reduced(current, impact.minReduction))
    else
      Projection(Reduced(current, impact.maxReduction), Reduced(current, impact.expectedReduction),
        Reduced(current, impact.minReduction))
  }

  /** The simulation endpoint's result, without the formatted explanation text. */
  datatype Outcome = Outcome(currentPm25: real, projection: Projection, impact: Impact, degraded: bool)

  /** Simulate `policyName` in a sector with the given readings at the given hour of day. */
  function SimulatePolicy(policyName: string, sectorName: string, readings: Readings, hour: int): (o: Outcome)
    ensures o.currentPm25 == readings.pm25
    ensures readings.pm25 >= 0.0 && readings.pm10 >= 0.0 && readings.trafficIndex >= 0.0 ==>
      0.0 <= o.projection.bestCase <= o.projection.expected <= o.projection.worstCase <= readings.pm25
    ensures readings.pm10 >= 0.0 && readings.trafficIndex >= 0.0 ==> o.impact.maxReduction <= 44.0
    ensures o.degraded <==> readings.windSpeed < 2.0 || (!IsDaytime(hour) && readings.windSpeed < 4.0)
  {
    var range := Lookup(policyName);
    var target := TargetingOf(policyName, sectorName, readings.pm25, readings.pm10, readings.trafficIndex);
    var impact := SimulateImpact(range, readings.windSpeed, hour, target.sourceMatch, target.confidence);
    DegradedExactly(readings.windSpeed, hour);
    Outcome(readings.pm25, Project(readings.pm25, impact), impact, impact.metFactor < 0.8)
  }
}
