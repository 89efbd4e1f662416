/** The meteorological adjustment factor: a wind bucket times a day/night mixing factor. */
module Meteorology {

  /** The ventilation bucket of the wind speed (m/s). */
  function WindFactor(windSpeed: real): (f: real)
    ensures 0.5 <= f <= 1.1
  {
    if windSpeed < 1.0 then 0.5
    else if windSpeed < 2.0 then 0.65
    else if windSpeed < 4.0 then 0.85
    else if windSpeed < 6.0 then 1.0
    else 1.1
  }

  /** Hours 6 to 18 inclusive count as daytime. */
  predicate IsDaytime(hour: int)
  {
    6 <= hour <= 18
  }

  /**
   * The dispersion multiplier applied to every effectiveness figure: the wind bucket times
   * the vertical mixing, full by day and reduced to 0.8 by a nocturnal inversion.
   */
  function MetFactor(windSpeed: real, hour: int): (f: real)
    ensures 0.4 <= f <= 1.1
  {
    WindFactor(windSpeed) * (if IsDaytime(hour) then 1.0 else 0.8)
  }

  lemma WindFactorMonotone(a: real, b: real)
    requires a <= b
    ensures WindFactor(a) <= WindFactor(b)
  {
  }

  /** For a fixed hour, more wind never lowers the factor. */
  lemma MetFactorMonotoneInWind(a: real, b: real, hour: int)
    requires a <= b
    ensures MetFactor(a, hour) <= MetFactor(b, hour)
  {
    WindFactorMonotone(a, b);
  }

  /** At the same wind, the night factor is 0.8 times the day factor. */
  lemma NightIsEightTenthsOfDay(windSpeed: real, day: int, night: int)
    requires IsDaytime(day) && !IsDaytime(night)
    ensures MetFactor(windSpeed, night) == 0.8 * MetFactor(windSpeed, day)
  {
  }

  /** The bounds 0.4 and 1.1 are reached: calm nights and windy days. */
  lemma MetFactorBoundsAttained()
    ensures MetFactor(0.0, 0) == 0.4
    ensures MetFactor(6.0, 12) == 1.1
  {
  }

  /**
   * Effectiveness counts as degraded when the factor is below 0.8: exactly when the
   * wind is under 2 m/s, or under 4 m/s at night.
   */
  lemma DegradedExactly(windSpeed: real, hour: int)
    ensures MetFactor(windSpeed, hour) < 0.8 <==> windSpeed < 2.0 || (!IsDaytime(hour) && windSpeed < 4.0)
  {
  }
}
