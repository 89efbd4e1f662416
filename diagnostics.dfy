/** Severity tier and dominant-cause classification of one sector's readings. */
module Diagnostics {
  import opened Text
  import opened Sectors

  /** The five severity tiers of the sector status, mildest first. */
  datatype Severity = Moderate | UnhealthyForSensitive | Unhealthy | VeryUnhealthy | Hazardous
  {
    function Rank(): nat
    {
      match this
      case Moderate => 0
      case UnhealthyForSensitive => 1
      case Unhealthy => 2
      case VeryUnhealthy => 3
      case Hazardous => 4
    }

    function Label(): string
    {
      match this
      case Moderate => "moderate"
      case UnhealthyForSensitive => "unhealthy_for_sensitive"
      case Unhealthy => "unhealthy"
      case VeryUnhealthy => "very_unhealthy"
      case Hazardous => "hazardous"
    }
  }

  /** The ladder's cut points on pm2.5, lowest first; each is an exclusive lower bound. */
  const SeverityThresholds: seq<real> := [100.0, 150.0, 200.0, 250.0]

  /** How many of `thresholds` lie strictly below `x`. */
  function Exceeded(thresholds: seq<real>, x: real): (n: nat)
    ensures n <= |thresholds|
  {
    if thresholds == [] then 0
    else (if x > thresholds[0] then 1 else 0) + Exceeded(thresholds[1..], x)
  }

  /** The severity ladder of the sector status: first match from the top. */
  function SeverityOf(pm25: real): (s: Severity)
    ensures s == Hazardous <==> pm25 > 250.0
    ensures s == Moderate <==> pm25 <= 100.0
  {
    if pm25 > 250.0 then Hazardous
    else if pm25 > 200.0 then VeryUnhealthy
    else if pm25 > 150.0 then Unhealthy
    else if pm25 > 100.0 then UnhealthyForSensitive
    else Moderate
  }

  /** The tier's rank is the number of thresholds pm2.5 exceeds: the ladder is a step function. */
  lemma SeverityCountsThresholds(pm25: real)
    ensures SeverityOf(pm25).Rank() == Exceeded(SeverityThresholds, pm25)
  {
    var t := SeverityThresholds;
    assert t[1..] == [150.0, 200.0, 250.0];
    assert t[1..][1..] == [200.0, 250.0];
    assert t[1..][1..][1..] == [250.0];
    assert t[1..][1..][1..][1..] == [];
    assert Exceeded([250.0], pm25) == if pm25 > 250.0 then 1 else 0;
    assert Exceeded([200.0, 250.0], pm25) == (if pm25 > 200.0 then 1 else 0) + Exceeded([250.0], pm25);
    assert Exceeded([150.0, 200.0, 250.0], pm25)
      == (if pm25 > 150.0 then 1 else 0) + Exceeded([200.0, 250.0], pm25);
  }

  lemma {:induction false} ExceededMonotone(thresholds: seq<real>, a: real, b: real)
    requires a <= b
    ensures Exceeded(thresholds, a) <= Exceeded(thresholds, b)
  {
    if thresholds != [] {
      ExceededMonotone(thresholds[1..], a, b);
    }
  }

  /** A higher pm2.5 never gives a milder tier. */
  lemma SeverityMonotone(a: real, b: real)
    requires a <= b
    ensures SeverityOf(a).Rank() <= SeverityOf(b).Rank()
  {
    SeverityCountsThresholds(a);
    SeverityCountsThresholds(b);
    ExceededMonotone(SeverityThresholds, a, b);
  }

  lemma SeverityLabelsDistinct(s: Severity, t: Severity)
    ensures s.Label() == t.Label() <==> s == t
  {
  }

  /** `pm10 / pm25`, with 1 in place of the quotient when pm2.5 is not positive. */
  function PmRatio(pm25: real, pm10: real): (r: real)
    ensures pm25 > 0.0 ==> r * pm25 == pm10
    ensures pm25 <= 0.0 ==> r == 1.0
    ensures pm25 >= 0.0 && pm10 >= 0.0 ==> r >= 0.0
  {
    if pm25 > 0.0 then pm10 / pm25 else 1.0
  }

  /** The seven dominant-cause verdicts of the classifier. */
  datatype PollutionCause =
    | DustConstruction
    | FineParticles
    | MixedTrafficDust
    | IndustrialEmissions
    | ResidentialBalanced
    | CommercialCongestion
    | MixedSources
  {
    function Description(): string
    {
      match this
      case DustConstruction => "Dust and construction activity (high coarse particles)"
      case FineParticles => "Vehicle emissions and industrial pollution (fine particles)"
      case MixedTrafficDust => "Mixed traffic and dust pollution"
      case IndustrialEmissions => "Industrial emissions (high particulate concentration)"
      case ResidentialBalanced => "Residential emissions and traffic (balanced sources)"
      case CommercialCongestion => "Commercial area pollution (traffic congestion and activities)"
      case MixedSources => "Mixed pollution sources (dust, traffic, and industrial)"
    }
  }

  /** The fine-particle guard: little coarse dust relative to pm2.5, and some traffic. */
  predicate FineGuard(ratio: real, trafficIndex: real)
  {
    ratio < 0.8 && trafficIndex > 0.25
  }

  /** The mixed traffic-and-dust guard: a moderate ratio and heavier traffic. */
  predicate MixedGuard(ratio: real, trafficIndex: real)
  {
    0.8 < ratio <= 2.0 && trafficIndex > 0.3
  }

  /** None of the three ratio-based verdicts applies, so the sector name decides. */
  predicate NoRatioVerdict(ratio: real, trafficIndex: real)
  {
    ratio <= 2.5 && !FineGuard(ratio, trafficIndex) && !MixedGuard(ratio, trafficIndex)
  }

  /** The industrial-sector guard. */
  predicate IndustrialGuard(pm25: real, sectorName: string)
  {
    Contains(sectorName, "Industrial") && pm25 > 150.0
  }

  /** The residential-sector guard. */
  predicate ResidentialGuard(ratio: real, sectorName: string)
  {
    Contains(sectorName, "Residential") && ratio < 1.5
  }

  /**
   * The first-match cause cascade on the pm ratio, the traffic index and the sector name:
   * each verdict is returned exactly when its guard holds and every earlier guard fails.
   */
  function CauseOf(pm25: real, pm10: real, trafficIndex: real, sectorName: string): (c: PollutionCause)
    ensures c == DustConstruction <==> PmRatio(pm25, pm10) > 2.5
    ensures c == FineParticles <==> FineGuard(PmRatio(pm25, pm10), trafficIndex)
    ensures c == MixedTrafficDust <==> MixedGuard(PmRatio(pm25, pm10), trafficIndex)
    ensures c == IndustrialEmissions <==>
      NoRatioVerdict(PmRatio(pm25, pm10), trafficIndex) && IndustrialGuard(pm25, sectorName)
    ensures c == ResidentialBalanced <==>
      NoRatioVerdict(PmRatio(pm25, pm10), trafficIndex) && !IndustrialGuard(pm25, sectorName)
      && ResidentialGuard(PmRatio(pm25, pm10), sectorName)
    ensures c == CommercialCongestion <==>
      NoRatioVerdict(PmRatio(pm25, pm10), trafficIndex) && !IndustrialGuard(pm25, sectorName)
      && !ResidentialGuard(PmRatio(pm25, pm10), sectorName) && Contains(sectorName, "Commercial")
    ensures c == MixedSources <==>
      NoRatioVerdict(PmRatio(pm25, pm10), trafficIndex) && !IndustrialGuard(pm25, sectorName)
      && !ResidentialGuard(PmRatio(pm25, pm10), sectorName) && !Contains(sectorName, "Commercial")
  {
    var ratio := PmRatio(pm25, pm10);
    if ratio > 2.5 then DustConstruction
    else if ratio < 0.8 && trafficIndex > 0.25 then FineParticles
    else if ratio > 0.8 && ratio <= 2.0 && trafficIndex > 0.3 then MixedTrafficDust
    else if Contains(sectorName, "Industrial") && pm25 > 150.0 then IndustrialEmissions
    else if Contains(sectorName, "Residential") && ratio < 1.5 then ResidentialBalanced
    else if Contains(sectorName, "Commercial") then CommercialCongestion
    else MixedSources
  }

  /** A traffic signal outranks the sector keyword: fine particles in the commercial sector. */
  lemma FineParticlesBeforeCommercial()
    ensures CauseOf(100.0, 50.0, 0.5, SectorName(1)) == FineParticles
  {
    assert PmRatio(100.0, 50.0) == 0.5;
  }

  /** Without a ratio verdict, high pm2.5 in the industrial hub is put down to industry. */
  lemma IndustrialHubCause()
    ensures CauseOf(200.0, 300.0, 0.1, SectorName(2)) == IndustrialEmissions
  {
    assert PmRatio(200.0, 300.0) == 1.5;
  }

  /** The dust verdict wins over every other signal once the ratio exceeds 2.5. */
  lemma DustDominates(pm25: real, pm10: real, trafficIndex: real, sectorName: string)
    requires pm25 > 0.0 && pm10 > 2.5 * pm25
    ensures CauseOf(pm25, pm10, trafficIndex, sectorName) == DustConstruction
  {
    assert PmRatio(pm25, pm10) * pm25 == pm10;
  }

  /**
   * A ratio of exactly 0.8 falls between the fine-particle test (`< 0.8`) and the
   * mixed test (`> 0.8`): neither verdict is reachable there, whatever the traffic.
   */
  lemma RatioPointEightGap(pm25: real, pm10: real, trafficIndex: real, sectorName: string)
    requires pm25 > 0.0 && pm10 == 0.8 * pm25
    ensures CauseOf(pm25, pm10, trafficIndex, sectorName) !in {FineParticles, MixedTrafficDust}
  {
    assert PmRatio(pm25, pm10) == 0.8;
  }

  /** Distinct verdicts have distinct descriptions, so the output is exactly one of seven strings. */
  lemma CauseDescriptionsDistinct(c: PollutionCause, d: PollutionCause)
    requires c != d
    ensures c.Description() != d.Description()
  {
    DescriptionHasLength(c);
    DescriptionHasLength(d);
  }

  /** Proof helper: the seven descriptions have seven different lengths. */
  lemma DescriptionHasLength(c: PollutionCause)
    ensures |c.Description()| == DescriptionLength(c)
  {
    match c
    case DustConstruction =>
    case FineParticles =>
    case MixedTrafficDust =>
    case IndustrialEmissions =>
    case ResidentialBalanced =>
    case CommercialCongestion =>
    case MixedSources =>
  }

  function DescriptionLength(c: PollutionCause): nat
  {
    match c
    case DustConstruction => 54
    case FineParticles => 59
    case MixedTrafficDust => 32
    case IndustrialEmissions => 53
    case ResidentialBalanced => 52
    case CommercialCongestion => 61
    case MixedSources => 55
  }
}
