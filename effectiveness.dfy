/** The literature-based effectiveness ranges of each intervention. */
module Effectiveness {

  /** Fractional pm2.5 reduction: (minimum, typical, maximum). */
  datatype EffectivenessRange = EffectivenessRange(lo: real, typical: real, hi: real)
  {
    predicate Valid()
    {
      0.0 <= lo <= typical <= hi <= 1.0
    }
  }

  const Table: map<string, EffectivenessRange> := map[
    "Truck Entry Ban (12 hours)" := EffectivenessRange(0.12, 0.18, 0.25),
    "Odd-Even Vehicle Scheme" := EffectivenessRange(0.08, 0.14, 0.20),
    "Peak Hour Traffic Restrictions" := EffectivenessRange(0.10, 0.16, 0.22),
    "Construction Activity Halt & Street Washing" := EffectivenessRange(0.15, 0.22, 0.30),
    "Enhanced Street Cleaning & Dust Control" := EffectivenessRange(0.08, 0.12, 0.18),
    "Industrial Emission Control + Vehicle Restrictions" := EffectivenessRange(0.20, 0.30, 0.40),
    "Emission Standards Enforcement" := EffectivenessRange(0.10, 0.15, 0.22),
    "Public Transport Incentive Program" := EffectivenessRange(0.05, 0.10, 0.15)
  ]

  /** The conservative range used for an intervention the table does not know. */
  const DefaultRange := EffectivenessRange(0.08, 0.15, 0.22)

  /** Every entry of the table is an ordered range of fractions. */
  lemma TableEntriesValid()
    ensures forall name :: name in Table ==> Table[name].Valid() && Table[name].hi <= 0.4
    ensures |Table| == 8
  {
  }

  /** Table lookup that degrades to the default range instead of failing. */
  function Lookup(policyName: string): (r: EffectivenessRange)
    ensures r.Valid()
    ensures r.hi <= 0.4
    ensures policyName !in Table ==> r == DefaultRange
    ensures policyName in Table ==> r == Table[policyName]
  {
    TableEntriesValid();
    if policyName in Table then Table[policyName] else DefaultRange
  }
}
