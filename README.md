# Urban Policy Decision Engine — scoring core in Dafny

This project models the deterministic air-quality scoring pipeline of the Urban Policy
Decision Engine backend (`backend/main.py`). The backend watches three Delhi NCR sectors
(South Delhi Commercial, Gurgaon Industrial Hub, Noida Residential Sector). For each one it
keeps a snapshot of pm2.5, pm10, NO2, CO, a traffic index and the wind speed. From those
readings it derives:

- a severity tier and a dominant pollution cause;
- at most one recommended intervention, chosen by a five-rule first-match cascade;
- an impact estimate for any intervention: a (min, expected, max) reduction range, scaled
  by a meteorological factor and a source-match factor, and the pm2.5 projected from it.

All quantities are Dafny `real`s, so the model has no floating point. Sector and policy
names are strings. Python's `sub in s` is `Text.Contains`.

Modules, one per component:

- `Wrappers` (`wrappers.dfy`): `Option`, `Min`, `Max`.
- `Text` (`text.dfy`): the substring predicate.
- `Sectors` (`sectors.dfy`): the static sector configuration, `SECTORS_CONFIG`, and the
  readings record.
- `Diagnostics` (`diagnostics.dfy`): the severity ladder of the sector status and the
  cause classifier `detect_pollution_cause`.
- `Meteorology` (`meteorology.dfy`): `calculate_meteorological_factor`. The hour is a
  parameter.
- `Effectiveness` (`effectiveness.dfy`): `POLICY_EFFECTIVENESS_RANGES` and the lookup with
  its default range.
- `Recommendation` (`recommendation.dfy`): `generate_policy_recommendation` written as the
  source's if-chain. Beside it is an explicit ordered rule list (`Rule`, `Cascade`,
  `FirstMatch`), and a lemma proves the two agree on every input.
- `Simulation` (`simulation.dfy`): the source-match/confidence chain of the `/simulate`
  endpoint, `simulate_policy_impact`, the projections and the "degraded" flag.
- `Ingestion` (`ingestion.dfy`): the pure parts of the WAQI fetch:
  - the acceptance filter;
  - the NO2/CO traffic index;
  - the station fallback, which collects accepted values in a loop and averages them.
- `Store` (`store.dfy`): the in-memory `SECTORS_DATA`, as class `SectorStore` holding a
  `map`. `InitializeSectors` fills it in a loop. `RefreshSector` performs one pass of the
  refresh loop's body in place. Both are specified by pure functions (`DefaultRecord`,
  `Refreshed`).

Behaviours of the code worth knowing, each pinned down by a member of the model:

- The classifier's "mixed traffic and dust" branch tests `ratio > 0.8` and the
  fine-particle branch tests `ratio < 0.8`. A ratio of exactly 0.8 therefore reaches
  neither of the two traffic branches (`Diagnostics.RatioPointEightGap`).
- The first rule's non-industrial policy is named "Truck Entry Ban (12 hours)". That is
  also its key in the effectiveness table.
- In the dust branch of the source-match chain, the ratio falls back to 1 when pm2.5 is not
  positive. The `pm10` reading is always present, so the `current_pm25 * 1.5` default of
  `readings.get` is never used.
- The combined "Industrial Emission Control + Vehicle Restrictions" policy contains
  "Vehicle". The traffic test runs first, so it never reaches the industrial branch
  (`Simulation.CombinedIndustrialPolicyTargetsTraffic`).
- A zero NO2 or CO reading is falsy in Python, so it normalises to 0.5 like a missing one.
  When the other gas is present, a zero reading and a missing one give the same index
  (`Ingestion.ZeroGasReadingCountsAsMissing`). With both gases zero the index is 0.5, but
  with both missing there is no index at all.
- Without live data, a cached pm2.5 drifts by at most 5 % per refresh, but the floor of 20
  can lift a low stored value much further: a stored 10 becomes 20
  (`Store.CachedRefreshLiftsToFloor`, `Store.CachedRefreshDoublesLowReading`).

## Model

| member | source | states |
|---|---|---|
| `Sectors.SectorName` | backend/main.py:503-504 | the name every keyword test runs on: it contains "Commercial" exactly for sector 1, "Industrial" exactly for sector 2 and "Residential" exactly for sector 3; it is empty exactly for an unknown id |
| `Sectors.ConfigIdsAreTheKeys` | backend/main.py:62-84 | the three configured ids are exactly the iteration order 1, 2, 3; each profile carries its own id and a baseline traffic in [0, 1] |
| `Sectors.SectorNames` | backend/main.py:62-84 | the configured names of sectors 1, 2 and 3 |
| `Sectors.CommercialSector` | backend/main.py:62-69 | sector 1's name contains "Commercial" and neither "Industrial" nor "Residential" |
| `Sectors.IndustrialSector` | backend/main.py:70-76 | sector 2's name contains "Industrial" and neither "Commercial" nor "Residential" |
| `Sectors.ResidentialSector` | backend/main.py:77-83 | sector 3's name contains "Residential" and neither "Industrial" nor "Commercial" |
| `Diagnostics.SeverityOf` | backend/main.py:625-634 | hazardous exactly above 250; moderate exactly at or below 100 |
| `Diagnostics.SeverityCountsThresholds` | backend/main.py:625-634 | the tier's rank equals the number of thresholds 100, 150, 200, 250 that pm2.5 strictly exceeds, so the ladder is a step function with exclusive lower bounds |
| `Diagnostics.ExceededMonotone` | backend/main.py:625-634 | a larger value exceeds at least as many thresholds |
| `Diagnostics.SeverityMonotone` | backend/main.py:625-634 | a higher pm2.5 never yields a milder tier |
| `Diagnostics.SeverityLabelsDistinct` | backend/main.py:625-634 | the five severity strings are pairwise distinct |
| `Diagnostics.PmRatio` | backend/main.py:356 | the ratio is pm10/pm2.5 when pm2.5 > 0 and 1 otherwise, so no division by zero; it is non-negative for non-negative readings |
| `Diagnostics.CauseOf` | backend/main.py:352-384 | each of the seven verdicts is returned exactly when its own guard holds and every earlier guard fails: dust exactly above ratio 2.5; fine particles exactly for ratio < 0.8 with traffic > 0.25; mixed exactly for 0.8 < ratio ≤ 2 with traffic > 0.3; then industrial (keyword and pm2.5 > 150), residential (keyword and ratio < 1.5), commercial (keyword), and the mixed fallback when nothing holds |
| `Diagnostics.FineParticlesBeforeCommercial` | backend/main.py:362-381 | pm2.5 100, pm10 50, traffic 0.5 in the commercial sector give the fine-particle verdict: a traffic signal outranks the sector keyword |
| `Diagnostics.IndustrialHubCause` | backend/main.py:370-373 | pm2.5 200, pm10 300, traffic 0.1 in the industrial hub give the industrial verdict |
| `Diagnostics.DustDominates` | backend/main.py:356-360 | pm10 > 2.5·pm2.5 gives the dust verdict whatever the traffic index and sector name |
| `Diagnostics.RatioPointEightGap` | backend/main.py:362-368 | at a ratio of exactly 0.8 neither the fine-particle nor the mixed verdict is reachable |
| `Diagnostics.CauseDescriptionsDistinct` | backend/main.py:359-384 | the seven cause strings are pairwise distinct, so each input yields exactly one of them |
| `Meteorology.WindFactor` | backend/main.py:438-448 | the wind bucket lies in [0.5, 1.1] |
| `Meteorology.WindFactorMonotone` | backend/main.py:438-448 | the wind bucket is non-decreasing in wind speed |
| `Meteorology.MetFactor` | backend/main.py:421-456 | the factor (wind bucket times 1.0 by day, 0.8 at night) always lies in [0.4, 1.1] |
| `Meteorology.MetFactorMonotoneInWind` | backend/main.py:436-456 | for a fixed hour the factor is non-decreasing in wind speed |
| `Meteorology.NightIsEightTenthsOfDay` | backend/main.py:450-456 | at equal wind the night factor is 0.8 times the day factor |
| `Meteorology.MetFactorBoundsAttained` | backend/main.py:436-456 | 0.4 (calm night) and 1.1 (windy day) are reached |
| `Meteorology.DegradedExactly` | backend/main.py:436-456 | the factor is below 0.8 exactly when the wind is below 2 m/s, or below 4 m/s at night |
| `Effectiveness.TableEntriesValid` | backend/main.py:394-410 | the table has eight entries, each with 0 ≤ min ≤ typical ≤ max ≤ 1, and no max above 0.4 |
| `Effectiveness.Lookup` | backend/main.py:707-710 | the lookup returns the table's entry for a known name and the default (0.08, 0.15, 0.22) otherwise; the result is always a valid range with max ≤ 0.4 |
| `Recommendation.FirstMatchIsFirst` | backend/main.py:505-583 | an ordered rule list yields the policy of the first rule whose guard holds |
| `Recommendation.FirstMatchNone` | backend/main.py:505-583 | an ordered rule list yields nothing exactly when no guard holds |
| `Recommendation.GeneratePolicy` | backend/main.py:495-583 | the selector returns None exactly when none of the five guards holds; whenever rule 1's guard holds the result is the industrial or truck policy with priority critical, even if later guards hold; a result is critical exactly when rule 1 or 2 holds; every returned name is a key of the effectiveness table |
| `Recommendation.GeneratePolicyFollowsCascade` | backend/main.py:505-583 | the if-chain equals first-match over the ordered list of the five rules on every input |
| `Recommendation.IndustrialHubScenario` | backend/main.py:508-516 | pm2.5 300, pm10 200, traffic 0.6 and wind 1.5 in the industrial hub give the combined industrial policy: 35 %, 24 h, critical |
| `Recommendation.FirstRuleBeatsThird` | backend/main.py:508-545 | in the commercial sector, readings that satisfy both rule 1 and rule 3 give rule 1's truck ban |
| `Recommendation.AcceptableLevelsScenario` | backend/main.py:505-583 | pm2.5 50, pm10 60, traffic 0.2 and wind 5 give no policy in any sector |
| `Recommendation.SevereDustScenario` | backend/main.py:527-534 | pm2.5 100, pm10 280, traffic 0.1 and wind 3 give the construction halt despite the low traffic |
| `Simulation.TargetingOf` | backend/main.py:713-725 | the source match lies in [0, 1] for non-negative pm10 and traffic; confidence is low exactly for an industrial-only policy outside an industrial sector; traffic policies have match ≥ 0.5 and high confidence exactly above traffic 0.4; dust policies have high confidence exactly above ratio 1.5 |
| `Simulation.CombinedIndustrialPolicyTargetsTraffic` | backend/main.py:713-722 | the combined industrial policy takes the traffic branch, even in the industrial sector |
| `Simulation.SimulateImpact` | backend/main.py:459-483 | for a valid range and a non-negative source match, 0 ≤ min ≤ expected ≤ max reduction; the max reduction is at most 110 × the range's max when the match is at most 1; the factor lies in [0.4, 1.1] and the confidence is passed through |
| `Simulation.ScaledImpact` | backend/main.py:469-483 | for a factor in [0.4, 1.1]: the factor and confidence are kept; a valid range with a non-negative match gives 0 ≤ min ≤ expected ≤ max; a match of at most 1 keeps the max within 110 × the range's max |
| `Simulation.ScaledRange` | backend/main.py:469-483 | scaling a valid range by factor × match × 100 keeps it ordered and non-negative, and within 110 × its max when the match is at most 1 |
| `Simulation.Reduced` | backend/main.py:731-734 | a non-negative reduction never raises pm2.5, and one of at most 100 % never drives it negative |
| `Simulation.ReducedAntitone` | backend/main.py:731-734 | a larger reduction percentage leaves less pm2.5 |
| `Simulation.Project` | backend/main.py:731-734 | for an ordered non-negative reduction range and non-negative pm2.5, best case ≤ expected ≤ worst case ≤ current |
| `Simulation.SimulatePolicy` | backend/main.py:700-738 | for non-negative readings, 0 ≤ best ≤ expected ≤ worst ≤ current pm2.5; the max reduction is at most 44 %; "degraded" holds exactly when the wind is below 2 m/s, or below 4 m/s at night |
| `Ingestion.Accept` | backend/main.py:142-143 | a reading is kept unchanged or dropped, never clamped; a kept reading is strictly between 0 and the limit (1000 for pm2.5, 2000 for pm10); an in-range reading is always kept |
| `Ingestion.NormalizedGas` | backend/main.py:137-138 | a non-negative gas reading normalises into [0, 1] |
| `Ingestion.GasTrafficIndex` | backend/main.py:134-139 | the index is absent exactly when both gases are absent; it lies in [0, 1] for non-negative NO2 and CO |
| `Ingestion.ZeroGasReadingCountsAsMissing` | backend/main.py:134-139 | when a CO reading is present, a zero NO2 reading gives the same index as a missing one; two zeros give 0.5 while NO2 1.5 and CO 0.8 give 0.01 |
| `Ingestion.FromGeo` | backend/main.py:141-149 | the geo result's particulates pass the acceptance filter; its traffic index is in [0, 1] for non-negative gases |
| `Ingestion.Accepted` | backend/main.py:186-194 | every in-range station reading is collected and every collected value is some station's reading, strictly inside the acceptance range; there are at most as many values as stations, and exactly as many when every reading is in range |
| `Ingestion.AcceptedStep` | backend/main.py:186-194 | querying one more station appends its reading exactly when the reading passes the filter |
| `Ingestion.Mean` | backend/main.py:204-205 | the mean is absent exactly when no value was accepted |
| `Ingestion.SumBounds` | backend/main.py:204-205 | a sum of n values each strictly between lo and hi lies strictly between n·lo and n·hi |
| `Ingestion.MeanWithin` | backend/main.py:204-205 | the mean of values strictly between lo and hi is strictly between them |
| `Ingestion.FetchWaqiData` | backend/main.py:156-210 | the geo result is used when its pm2.5 was accepted, and otherwise the average over the first two stations; the result's particulates are always in the accepted ranges; its traffic index is in [0, 1] for non-negative gases |
| `Store.TrafficMultiplier` | backend/main.py:308-314 | the time-of-day multiplier lies in [0.4, 1.3] |
| `Store.SimulatedTraffic` | backend/main.py:316-318 | the simulated traffic index lies in [0.1, 1.0] for every baseline, hour and random draw |
| `Store.Drifted` | backend/main.py:284-291 | a cached reading after a random drift is never below the floor (20 for pm2.5, 30 for pm10) nor below the drifted value, and equals one of the two |
| `Store.DriftBounds` | backend/main.py:284-291 | with a draw in [0.95, 1.05] the drifted reading is at least 95 % of the stored one and at most the larger of the floor and 105 % of it |
| `Store.Refreshed` | backend/main.py:277-321 | id and name are kept; live pm2.5 is copied and marks the source live; without it, pm2.5 is at least 20 and the source is cached; pm10 is copied or at least 30; the traffic index is copied or lies in [0.1, 1]; NO2 and CO change only when fetched; wind and last update are set |
| `Store.RefreshKeepsReadingsSane` | backend/main.py:277-319 | a refresh from filtered feeds with non-negative wind keeps pm2.5 and pm10 positive and the traffic index in [0, 1] (on exact reals; see "Left out") |
| `Store.CachedDriftBounded` | backend/main.py:284-286 | without live data and with a draw in [0.95, 1.05], the new pm2.5 is at least 95 % of the stored one and at most the larger of 20 and 105 % of it |
| `Store.CachedRefreshLiftsToFloor` | backend/main.py:284-286 | whenever the drifted pm2.5 is at most 20, the cached refresh sets it to exactly 20 |
| `Store.CachedRefreshDoublesLowReading` | backend/main.py:284-286 | a stored pm2.5 of 10 with a neutral draw becomes 20, twice the stored value |
| `Store.SectorStore.constructor` | backend/main.py:241-260 | the store starts out holding exactly the three configured sectors with their default entries |
| `Store.SectorStore.InitializeSectors` | backend/main.py:241-258 | afterwards every configured sector holds its default entry (pm2.5 100, pm10 150, gases 0, baseline traffic, wind 2, not updated, initializing); the key set is the configuration's; the store invariants are kept |
| `Store.SectorStore.RefreshSector` | backend/main.py:277-321 | only the refreshed sector's entry changes, and it becomes `Refreshed` of its old entry; the store invariant and the positivity of readings are kept |

## Left out

- The FastAPI application, CORS middleware, route handlers, the tuple-returned 404 answers
  and the uvicorn start-up. `SimulatePolicy` takes the sector name and readings directly
  rather than a sector id.
- The HTTP requests and JSON parsing in `fetch_waqi_geo`, `fetch_waqi_data` and
  `fetch_wind_sync`, with their exception handling. What each request returned arrives as a
  `GeoFeed` or `StationFeed` value, and a failed request is all `None`. The wind speed,
  including the km/h to m/s conversion and the 2.0 m/s default, is a parameter of the
  refresh.
- The background thread, the endless polling loop, the loop over the three sectors and the
  sleeps. One `RefreshSector` call is one pass of that loop's body. The console logging is
  left out too.
- `datetime.now()` and `random.uniform`. The hour, the three random draws and the update
  timestamp are parameters.
- Python's `round(...)` throughout: reductions, projections, the NO2/CO index and the
  stored particulate readings are exact reals. Every met-factor value has at most two decimals, so comparing the rounded factor
  with 0.8 gives the same answer as comparing the exact one.
- IEEE floating point: all arithmetic is on exact reals.
- The human-readable `reason` and `explanation` strings. Only the fixed policy fields and
  the boolean "degraded" flag are kept.
- The `stations` count and `station` name fields of the fetch results. Nothing downstream
  reads them.
- `SOURCE_CONTRIBUTIONS` (never used) and `simulate_wind_impact` (a legacy one-line
  wrapper around the met factor).
- The per-sector latitude and longitude are kept in the configuration. They are used only
  by the fetches.
- Store.RefreshKeepsReadingsSane: positivity of pm2.5 and pm10 holds only because rounding
  is left out. The refresh stores `round(value, 1)` of a live reading, and of a station
  mean, so an accepted reading in (0, 0.05) is stored as 0.0 and the stored value is no
  longer positive.
