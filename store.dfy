/** The in-memory per-sector store: its initialisation and the per-sector refresh step. */
module Store {
  import opened Wrappers
  import opened Sectors
  import opened Ingestion

  datatype DataSource = Initializing | WaqiLive | Cached
  {
    function Label(): string
    {
      match this
      case Initializing => "initializing"
      case WaqiLive => "waqi_live"
      case Cached => "cached"
    }
  }

  /** One entry of the store: identity, current readings, last update time and provenance. */
  datatype SectorRecord = SectorRecord(id: int, name: string, readings: Readings, lastUpdate: Option<string>, dataSource: DataSource)

  /** The entry a sector starts with before any refresh. */
  function DefaultRecord(p: SectorProfile): SectorRecord
  {
    SectorRecord(p.id, p.name, Readings(100.0, 150.0, 0.0, 0.0, p.trafficBase, 2.0), None, Initializing)
  }

  /** Readings every consumer can rely on: positive particulates, a normalised traffic index, calm or windy air. */
  predicate Sane(r: Readings)
  {
    r.pm25 > 0.0 && r.pm10 > 0.0 && 0.0 <= r.trafficIndex <= 1.0 && r.windSpeed >= 0.0
  }

  /** Rush hours raise the simulated traffic, night hours lower it. */
  function TrafficMultiplier(hour: int): (m: real)
    ensures 0.4 <= m <= 1.3
  {
    if 8 <= hour <= 10 || 17 <= hour <= 19 then 1.3
    else if 22 <= hour || hour <= 5 then 0.4
    else 1.0
  }

  /** The time-of-day traffic estimate used when no NO2/CO index is available, clamped to [0.1, 1]. */
  function SimulatedTraffic(trafficBase: real, hour: int, draw: real): (t: real)
    ensures 0.1 <= t <= 1.0
  {
    Min(1.0, Max(0.1, trafficBase * TrafficMultiplier(hour) * draw))
  }

  /** A cached particulate reading after a random drift by `draw`, never below `floor`. */
  function Drifted(stored: real, draw: real, floor: real): (v: real)
    ensures v >= floor && v >= stored * draw
    ensures v == floor || v == stored * draw
  {
    Max(floor, stored * draw)
  }

  /** With a draw in [0.95, 1.05] the drift stays within 5 % of the stored value, up to the floor. */
  lemma DriftBounds(stored: real, draw: real, floor: real)
    requires stored >= 0.0 && 0.95 <= draw <= 1.05
    ensures 0.95 * stored <= Drifted(stored, draw, floor) <= Max(floor, 1.05 * stored)
  {
    var drifted := stored * draw;
    ScaleMonotone(0.95, draw, stored);
    assert 0.95 * stored <= draw * stored;
    ScaleMonotone(draw, 1.05, stored);
    assert draw * stored <= 1.05 * stored;
    assert draw * stored == drifted;
    if drifted < floor {
      assert Drifted(stored, draw, floor) == floor;
    } else {
      assert Drifted(stored, draw, floor) == drifted;
    }
  }

  /** The three `random.uniform` draws of one refresh: pm2.5 and pm10 drift, traffic jitter. */
  datatype Draws = Draws(pm25: real, pm10: real, traffic: real)

  /** The entry after one refresh from already-fetched air quality, wind, hour, draws and time. */
  function Refreshed(rec: SectorRecord, profile: SectorProfile, aq: AirQuality, windSpeed: real, hour: int, draws: Draws, now: string): (r: SectorRecord)
    ensures r.id == rec.id && r.name == rec.name
    ensures r.lastUpdate == Some(now) && r.readings.windSpeed == windSpeed
    ensures aq.pm25.Some? ==> r.readings.pm25 == aq.pm25.value && r.dataSource == WaqiLive
    ensures aq.pm25.None? ==> r.readings.pm25 >= 20.0 && r.dataSource == Cached
    ensures aq.pm10.Some? ==> r.readings.pm10 == aq.pm10.value
    ensures aq.pm10.None? ==> r.readings.pm10 >= 30.0
    ensures aq.trafficIndex.Some? ==> r.readings.trafficIndex == aq.trafficIndex.value
    ensures aq.trafficIndex.None? ==> 0.1 <= r.readings.trafficIndex <= 1.0
    ensures r.readings.no2 == if aq.no2.Some? then aq.no2.value else rec.readings.no2
    ensures r.readings.co == if aq.co.Some? then aq.co.value else rec.readings.co
  {
    var old_ := rec.readings;
    var pm25 := if aq.pm25.Some? then aq.pm25.value else Drifted(old_.pm25, draws.pm25, 20.0);
    var pm10 := if aq.pm10.Some? then aq.pm10.value else Drifted(old_.pm10, draws.pm10, 30.0);
    var no2 := if aq.no2.Some? then aq.no2.value else old_.no2;
    var co := if aq.co.Some? then aq.co.value else old_.co;
    var traffic := if aq.trafficIndex.Some? then aq.trafficIndex.value
                   else SimulatedTraffic(profile.trafficBase, hour, draws.traffic);
    SectorRecord(rec.id, rec.name, Readings(pm25, pm10, no2, co, traffic, windSpeed), Some(now),
      if aq.pm25.Some? then WaqiLive else Cached)
  }

  /** A refresh from filtered feeds keeps every reading sane. */
  lemma RefreshKeepsReadingsSane(rec: SectorRecord, profile: SectorProfile, aq: AirQuality, windSpeed: real, hour: int, draws: Draws, now: string)
    requires Sane(rec.readings) && aq.PmInRange() && aq.TrafficInRange() && windSpeed >= 0.0
    ensures Sane(Refreshed(rec, profile, aq, windSpeed, hour, draws, now).readings)
  {
  }

  /**
   * Without live data, a cached pm2.5 drifts by at most the draw's 5 % either way, except
   * that the floor of 20 may lift it further.
   */
  lemma CachedDriftBounded(rec: SectorRecord, profile: SectorProfile, aq: AirQuality, windSpeed: real, hour: int, draws: Draws, now: string)
    requires aq.pm25.None? && rec.readings.pm25 >= 0.0 && 0.95 <= draws.pm25 <= 1.05
    ensures 0.95 * rec.readings.pm25 <= Refreshed(rec, profile, aq, windSpeed, hour, draws, now).readings.pm25
    ensures Refreshed(rec, profile, aq, windSpeed, hour, draws, now).readings.pm25 <= Max(20.0, 1.05 * rec.readings.pm25)
  {
    DriftBounds(rec.readings.pm25, draws.pm25, 20.0);
  }

  /**
   * A cached refresh never leaves pm2.5 below 20: whenever the drifted value falls under the
   * floor, the new reading is exactly 20, however low the stored one was.
   */
  lemma CachedRefreshLiftsToFloor(rec: SectorRecord, profile: SectorProfile, aq: AirQuality, windSpeed: real, hour: int, draws: Draws, now: string)
    requires aq.pm25.None? && rec.readings.pm25 * draws.pm25 <= 20.0
    ensures Refreshed(rec, profile, aq, windSpeed, hour, draws, now).readings.pm25 == 20.0
  {
  }

  /** A stored 10 with a neutral draw doubles to 20, well beyond the 5 % drift. */
  lemma CachedRefreshDoublesLowReading(rec: SectorRecord, profile: SectorProfile, aq: AirQuality, windSpeed: real, hour: int, now: string)
    requires aq.pm25.None? && rec.readings.pm25 == 10.0
    ensures Refreshed(rec, profile, aq, windSpeed, hour, Draws(1.0, 1.0, 1.0), now).readings.pm25 == 2.0 * rec.readings.pm25
  {
    CachedRefreshLiftsToFloor(rec, profile, aq, windSpeed, hour, Draws(1.0, 1.0, 1.0), now);
  }

  /** The sector store (the process-wide `SECTORS_DATA`). */
  class SectorStore {
    var sectors: map<int, SectorRecord>

    /** Every entry belongs to a configured sector and carries that sector's id and name. */
    ghost predicate Valid()
      reads this
    {
      && sectors.Keys <= Config.Keys
      && forall id :: id in sectors ==> id in Config && sectors[id].id == id && sectors[id].name == Config[id].name
    }

    ghost predicate AllSane()
      reads this
    {
      forall id :: id in sectors ==> Sane(sectors[id].readings)
    }

    /** The store as the process starts it: empty, then filled with every sector's defaults. */
    constructor ()
      ensures Valid() && AllSane()
      ensures sectors.Keys == Config.Keys
      ensures forall id :: id in Config ==> sectors[id] == DefaultRecord(Config[id])
    {
      sectors := map[];
      new;
      InitializeSectors();
    }

    /** Put every configured sector's default entry in the store, leaving other entries alone. */
    method InitializeSectors()
      requires Valid()
      modifies this
      ensures Valid()
      ensures sectors.Keys == Config.Keys
      ensures forall id :: id in Config ==> sectors[id] == DefaultRecord(Config[id])
      ensures old(AllSane()) ==> AllSane()
    {
      ConfigIdsAreTheKeys();
      var i := 0;
      while i < |ConfigIds|
        invariant 0 <= i <= |ConfigIds|
        invariant Valid()
        invariant forall j :: 0 <= j < i ==> ConfigIds[j] in sectors && sectors[ConfigIds[j]] == DefaultRecord(Config[ConfigIds[j]])
        invariant old(AllSane()) ==> AllSane()
      {
        var id := ConfigIds[i];
        sectors := sectors[id := DefaultRecord(Config[id])];
        i := i + 1;
      }
      forall id | id in Config ensures id in sectors && sectors[id] == DefaultRecord(Config[id]) {
        var j :| 0 <= j < |ConfigIds| && ConfigIds[j] == id;
      }
    }

    /** One pass of the refresh loop's body for sector `id`: only that entry changes. */
    method RefreshSector(id: int, aq: AirQuality, windSpeed: real, hour: int, draws: Draws, now: string)
      requires Valid() && id in sectors
      modifies this
      ensures Valid()
      ensures sectors == old(sectors)[id := Refreshed(old(sectors)[id], Config[id], aq, windSpeed, hour, draws, now)]
      ensures old(AllSane()) && aq.PmInRange() && aq.TrafficInRange() && windSpeed >= 0.0 ==> AllSane()
    {
      var entry := sectors[id];
      var readings := entry.readings;
      var source := entry.dataSource;
      if aq.pm25.Some? {
        readings := readings.(pm25 := aq.pm25.value);
        source := WaqiLive;
      } else {
        readings := readings.(pm25 := Drifted(readings.pm25, draws.pm25, 20.0));
        source := Cached;
      }
      if aq.pm10.Some? {
        readings := readings.(pm10 := aq.pm10.value);
      } else {
        readings := readings.(pm10 := Drifted(readings.pm10, draws.pm10, 30.0));
      }
      if aq.no2.Some? {
        readings := readings.(no2 := aq.no2.value);
      }
      if aq.co.Some? {
        readings := readings.(co := aq.co.value);
      }
      readings := readings.(windSpeed := windSpeed);
      if aq.trafficIndex.Some? {
        readings := readings.(trafficIndex := aq.trafficIndex.value);
      } else {
        readings := readings.(trafficIndex := SimulatedTraffic(Config[id].trafficBase, hour, draws.traffic));
      }
      var updated := entry.(readings := readings, dataSource := source, lastUpdate := Some(now));
      ghost var expected := Refreshed(entry, Config[id], aq, windSpeed, hour, draws, now);
      assert readings == expected.readings;
      assert updated == expected;
      if AllSane() && aq.PmInRange() && aq.TrafficInRange() && windSpeed >= 0.0 {
        RefreshKeepsReadingsSane(entry, Config[id], aq, windSpeed, hour, draws, now);
      }
      sectors := sectors[id := updated];
    }
  }
}
