/** The recommendation selector: a priority-ordered cascade of five guarded rules. */
module Recommendation {
  import opened Wrappers
  import opened Text
  import opened Sectors
  import opened Diagnostics
  import Effectiveness

  datatype Priority = Critical | High | Medium
  {
    function Label(): string
    {
      match this
      case Critical => "critical"
      case High => "high"
      case Medium => "medium"
    }
  }

  /** A recommended intervention with its fixed reduction %, duration (hours) and priority. */
  datatype Policy = Policy(name: string, expectedReductionPct: int, hours: int, priority: Priority)

  /** What the selector looks at: the sector's name and its current readings. */
  datatype Conditions = Conditions(sectorName: string, pm25: real, pm10: real, trafficIndex: real, windSpeed: real)
  {
    function Ratio(): real
    {
      PmRatio(pm25, pm10)
    }
  }

  /** The five rules, each a guard and the policy it yields. */
  datatype Rule = StagnantTraffic | SevereDust | TrafficDominated | PoorDispersion | DustLowTraffic
  {
    predicate Fires(c: Conditions)
    {
      match this
      case StagnantTraffic => c.pm25 > 250.0 && c.trafficIndex > 0.5 && c.windSpeed < 2.0
      case SevereDust => c.pm10 > 250.0 && c.Ratio() > 2.0
      case TrafficDominated => c.pm25 > 200.0 && c.trafficIndex > 0.3 && c.Ratio() < 1.5
      case PoorDispersion => c.pm25 > 150.0 && c.windSpeed < 2.0
      case DustLowTraffic => c.pm10 > 150.0 && c.trafficIndex < 0.3 && c.Ratio() > 1.5
    }

    function Yield(c: Conditions): Policy
    {
      match this
      case StagnantTraffic =>
        if Contains(c.sectorName, "Industrial")
        then Policy("Industrial Emission Control + Vehicle Restrictions", 35, 24, Critical)
        else Policy("Truck Entry Ban (12 hours)", 22, 12, Critical)
      case SevereDust => Policy("Construction Activity Halt & Street Washing", 25, 12, Critical)
      case TrafficDominated =>
        if Contains(c.sectorName, "Commercial") then Policy("Peak Hour Traffic Restrictions", 20, 8, High)
        else if Contains(c.sectorName, "Residential") then Policy("Odd-Even Vehicle Scheme", 18, 6, High)
        else Policy("Emission Standards Enforcement", 16, 6, High)
      case PoorDispersion => Policy("Public Transport Incentive Program", 12, 4, Medium)
      case DustLowTraffic => Policy("Enhanced Street Cleaning & Dust Control", 15, 6, Medium)
    }
  }

  /** The rules in the order the selector tries them. */
  const Cascade: seq<Rule> := [StagnantTraffic, SevereDust, TrafficDominated, PoorDispersion, DustLowTraffic]

  /** The policy of the first rule in `rules` whose guard holds, if any. */
  function FirstMatch(rules: seq<Rule>, c: Conditions): Option<Policy>
  {
    if rules == [] then None
    else if rules[0].Fires(c) then Some(rules[0].Yield(c))
    else FirstMatch(rules[1..], c)
  }

  /** FirstMatch yields the rule at the first index whose guard holds, and nothing when none holds. */
  lemma {:induction false} FirstMatchIsFirst(rules: seq<Rule>, c: Conditions, k: nat)
    requires k < |rules| && rules[k].Fires(c)
    requires forall j :: 0 <= j < k ==> !rules[j].Fires(c)
    ensures FirstMatch(rules, c) == Some(rules[k].Yield(c))
  {
    if k > 0 {
      FirstMatchIsFirst(rules[1..], c, k - 1);
    }
  }

  lemma {:induction false} FirstMatchNone(rules: seq<Rule>, c: Conditions)
    ensures FirstMatch(rules, c).None? <==> forall j :: 0 <= j < |rules| ==> !rules[j].Fires(c)
  {
    if rules != [] {
      FirstMatchNone(rules[1..], c);
      assert forall j :: 1 <= j < |rules| ==> rules[j] == rules[1..][j - 1];
    }
  }

  /** Some guard of the cascade holds. */
  predicate AnyRuleFires(c: Conditions)
  {
    StagnantTraffic.Fires(c) || SevereDust.Fires(c) || TrafficDominated.Fires(c)
    || PoorDispersion.Fires(c) || DustLowTraffic.Fires(c)
  }

  function ConditionsFor(sectorId: int, pm25: real, pm10: real, trafficIndex: real, windSpeed: real): Conditions
  {
    Conditions(SectorName(sectorId), pm25, pm10, trafficIndex, windSpeed)
  }

  /**
   * The selector as the source writes it: the sector name comes from the configuration,
   * the guards are tried top-down and the first that holds returns its policy.
   */
  function GeneratePolicy(sectorId: int, pm25: real, pm10: real, trafficIndex: real, windSpeed: real): (r: Option<Policy>)
    ensures r.None? <==> !AnyRuleFires(ConditionsFor(sectorId, pm25, pm10, trafficIndex, windSpeed))
    ensures StagnantTraffic.Fires(ConditionsFor(sectorId, pm25, pm10, trafficIndex, windSpeed)) ==>
      r.Some? && r.value.priority == Critical
      && r.value.name in {"Industrial Emission Control + Vehicle Restrictions", "Truck Entry Ban (12 hours)"}
    ensures r.Some? ==>
      (r.value.priority == Critical <==>
        StagnantTraffic.Fires(ConditionsFor(sectorId, pm25, pm10, trafficIndex, windSpeed))
        || SevereDust.Fires(ConditionsFor(sectorId, pm25, pm10, trafficIndex, windSpeed)))
    ensures r.Some? ==> r.value.name in Effectiveness.Table
  {
    var sectorName := SectorName(sectorId);
    var ratio := PmRatio(pm25, pm10);
    if pm25 > 250.0 && trafficIndex > 0.5 && windSpeed < 2.0 then
      if Contains(sectorName, "Industrial")
      then Some(Policy("Industrial Emission Control + Vehicle Restrictions", 35, 24, Critical))
      else Some(Policy("Truck Entry Ban (12 hours)", 22, 12, Critical))
    else if pm10 > 250.0 && ratio > 2.0 then
      Some(Policy("Construction Activity Halt & Street Washing", 25, 12, Critical))
    else if pm25 > 200.0 && trafficIndex > 0.3 && ratio < 1.5 then
      if Contains(sectorName, "Commercial") then Some(Policy("Peak Hour Traffic Restrictions", 20, 8, High))
      else if Contains(sectorName, "Residential") then Some(Policy("Odd-Even Vehicle Scheme", 18, 6, High))
      else Some(Policy("Emission Standards Enforcement", 16, 6, High))
    else if pm25 > 150.0 && windSpeed < 2.0 then
      Some(Policy("Public Transport Incentive Program", 12, 4, Medium))
    else if pm10 > 150.0 && trafficIndex < 0.3 && ratio > 1.5 then
      Some(Policy("Enhanced Street Cleaning & Dust Control", 15, 6, Medium))
    else None
  }

  /** The if-chain and the ordered rule list select the same policy on every input. */
  lemma GeneratePolicyFollowsCascade(sectorId: int, pm25: real, pm10: real, trafficIndex: real, windSpeed: real)
    ensures GeneratePolicy(sectorId, pm25, pm10, trafficIndex, windSpeed)
         == FirstMatch(Cascade, ConditionsFor(sectorId, pm25, pm10, trafficIndex, windSpeed))
  {
    var c := ConditionsFor(sectorId, pm25, pm10, trafficIndex, windSpeed);
    if StagnantTraffic.Fires(c) {
      FirstMatchIsFirst(Cascade, c, 0);
    } else if SevereDust.Fires(c) {
      FirstMatchIsFirst(Cascade, c, 1);
    } else if TrafficDominated.Fires(c) {
      FirstMatchIsFirst(Cascade, c, 2);
    } else if PoorDispersion.Fires(c) {
      FirstMatchIsFirst(Cascade, c, 3);
    } else if DustLowTraffic.Fires(c) {
      FirstMatchIsFirst(Cascade, c, 4);
    } else {
      FirstMatchNone(Cascade, c);
    }
  }

  /** Critical readings in the industrial hub call for the combined industrial policy. */
  lemma IndustrialHubScenario()
    ensures GeneratePolicy(2, 300.0, 200.0, 0.6, 1.5)
         == Some(Policy("Industrial Emission Control + Vehicle Restrictions", 35, 24, Critical))
  {
  }

  /**
   * Rule order decides between overlapping guards: in the commercial sector these readings
   * satisfy both the first and the third guard, and the first one's truck ban wins.
   */
  lemma FirstRuleBeatsThird()
    ensures TrafficDominated.Fires(ConditionsFor(1, 300.0, 300.0, 0.6, 1.0))
    ensures GeneratePolicy(1, 300.0, 300.0, 0.6, 1.0) == Some(Policy("Truck Entry Ban (12 hours)", 22, 12, Critical))
  {
  }

  /** Moderate readings in any sector trigger no policy. */
  lemma AcceptableLevelsScenario(sectorId: int)
    ensures GeneratePolicy(sectorId, 50.0, 60.0, 0.2, 5.0) == None
  {
  }

  /** A coarse-dust ratio above 2 with pm10 over 250 halts construction even at low traffic. */
  lemma SevereDustScenario(sectorId: int)
    ensures GeneratePolicy(sectorId, 100.0, 280.0, 0.1, 3.0)
         == Some(Policy("Construction Activity Halt & Street Washing", 25, 12, Critical))
  {
  }
}
