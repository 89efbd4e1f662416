/**
 * What the refresh step keeps of the upstream air-quality feeds: the acceptance filter,
 * the NO2/CO traffic index, and the averaging over fallback stations. The HTTP calls
 * themselves are not modelled; their parsed results arrive as `GeoFeed`/`StationFeed`.
 */
module Ingestion {
  import opened Wrappers

  datatype Pollutant = PM25 | PM10
  {
    /** Readings at or above this value (µg/m³) are not trusted. */
    function Limit(): real
    {
      match this
      case PM25 => 1000.0
      case PM10 => 2000.0
    }
  }

  /** A reading is kept only when it is strictly between 0 and the limit; otherwise it is unavailable, never clamped. */
  function Accept(v: Option<real>, p: Pollutant): (r: Option<real>)
    ensures r == None || r == v
    ensures r.Some? ==> 0.0 < r.value < p.Limit()
    ensures v.Some? && 0.0 < v.value < p.Limit() ==> r == v
  {
    if v.Some? && 0.0 < v.value < p.Limit() then v else None
  }

  /** One gas normalised to [0, 1] against `scale`; a missing or zero reading counts as 0.5. */
  function NormalizedGas(v: Option<real>, scale: real): (n: real)
    requires scale > 0.0
    ensures NonNegative(v) ==> 0.0 <= n <= 1.0
  {
    if v.Some? && v.value != 0.0 then Min(1.0, v.value / scale) else 0.5
  }

  /** Traffic index from NO2 (weight 0.6, scale 150) and CO (weight 0.4, scale 80). */
  function GasTrafficIndex(no2: Option<real>, co: Option<real>): (t: Option<real>)
    ensures t.None? <==> no2.None? && co.None?
    ensures t.Some? && NonNegative(no2) && NonNegative(co) ==> 0.0 <= t.value <= 1.0
  {
    if no2.None? && co.None? then None
    else Some(NormalizedGas(no2, 150.0) * 0.6 + NormalizedGas(co, 80.0) * 0.4)
  }

  /**
   * A zero gas reading is treated like a missing one (0.5), so a zero NO2 reading yields a
   * higher traffic index than a small positive one.
   */
  lemma ZeroGasReadingCountsAsMissing(co: Option<real>)
    requires co.Some?
    ensures GasTrafficIndex(Some(0.0), co) == GasTrafficIndex(None, co)
    ensures GasTrafficIndex(Some(0.0), Some(0.0)) == Some(0.5)
    ensures GasTrafficIndex(Some(1.5), Some(0.8)) == Some(0.01)
  {
  }

  /** What the geo-located feed reported (all `None` when the request failed). */
  datatype GeoFeed = GeoFeed(pm25: Option<real>, pm10: Option<real>, no2: Option<real>, co: Option<real>)

  /** What one monitoring station reported (both `None` when the request failed). */
  datatype StationFeed = StationFeed(pm25: Option<real>, pm10: Option<real>)
  {
    function Reading(p: Pollutant): Option<real>
    {
      match p
      case PM25 => pm25
      case PM10 => pm10
    }
  }

  /** The fetched air quality handed to the refresh step. */
  datatype AirQuality = AirQuality(pm25: Option<real>, pm10: Option<real>, no2: Option<real>, co: Option<real>, trafficIndex: Option<real>)
  {
    /** Particulate readings, when present, passed the acceptance filter. */
    predicate PmInRange()
    {
      (pm25.Some? ==> 0.0 < pm25.value < PM25.Limit())
      && (pm10.Some? ==> 0.0 < pm10.value < PM10.Limit())
    }

    predicate TrafficInRange()
    {
      trafficIndex.Some? ==> 0.0 <= trafficIndex.value <= 1.0
    }
  }

  /** The geo lookup's result: filtered particulates, raw gases and the derived traffic index. */
  function FromGeo(f: GeoFeed): (aq: AirQuality)
    ensures aq.PmInRange()
    ensures NonNegative(f.no2) && NonNegative(f.co) ==> aq.TrafficInRange()
  {
    AirQuality(Accept(f.pm25, PM25), Accept(f.pm10, PM10), f.no2, f.co, GasTrafficIndex(f.no2, f.co))
  }

  /**
   * The accepted readings of `p` across `feeds`, in feed order: every station's in-range
   * reading is collected, nothing else is, and with every reading in range none is lost.
   */
  function Accepted(feeds: seq<StationFeed>, p: Pollutant): (vs: seq<real>)
    ensures |vs| <= |feeds|
    ensures forall k :: 0 <= k < |vs| ==> 0.0 < vs[k] < p.Limit()
    ensures forall i :: 0 <= i < |feeds| && Accept(feeds[i].Reading(p), p).Some? ==> feeds[i].Reading(p).value in vs
    ensures forall k :: 0 <= k < |vs| ==> exists i :: 0 <= i < |feeds| && feeds[i].Reading(p) == Some(vs[k])
    ensures (forall i :: 0 <= i < |feeds| ==> Accept(feeds[i].Reading(p), p).Some?) ==> |vs| == |feeds|
  {
    if feeds == [] then []
    else
      var init := feeds[..|feeds| - 1];
      var last := Accept(feeds[|feeds| - 1].Reading(p), p);
      var vs := Accepted(init, p) + (if last.Some? then [last.value] else []);
      assert forall i :: 0 <= i < |init| ==> init[i] == feeds[i];
      vs
  }

  /** Taking one more station appends its reading exactly when the reading is accepted. */
  lemma AcceptedStep(feeds: seq<StationFeed>, i: int, p: Pollutant)
    requires 0 <= i < |feeds|
    ensures Accepted(feeds[..i + 1], p) == Accepted(feeds[..i], p)
      + (if Accept(feeds[i].Reading(p), p).Some? then [feeds[i].Reading(p).value] else [])
  {
    assert feeds[..i + 1][..i] == feeds[..i];
  }

  function Sum(vs: seq<real>): real
  {
    if vs == [] then 0.0 else Sum(vs[..|vs| - 1]) + vs[|vs| - 1]
  }

  /** The arithmetic mean, or `None` for no values. */
  function Mean(vs: seq<real>): (m: Option<real>)
    ensures m.None? <==> vs == []
  {
    if vs == [] then None else Some(Sum(vs) / (|vs| as real))
  }

  lemma {:induction false} SumBounds(vs: seq<real>, lo: real, hi: real)
    requires forall i :: 0 <= i < |vs| ==> lo < vs[i] < hi
    ensures vs != [] ==> lo * (|vs| as real) < Sum(vs) < hi * (|vs| as real)
  {
    if vs != [] {
      var init, last := vs[..|vs| - 1], vs[|vs| - 1];
      assert Sum(vs) == Sum(init) + last;
      if init == [] {
        assert Sum(vs) == last;
      } else {
        SumBounds(init, lo, hi);
        var n := |init| as real;
        assert lo * n < Sum(init) < hi * n;
        assert lo * (n + 1.0) == lo * n + lo && hi * (n + 1.0) == hi * n + hi;
      }
    }
  }

  /** The mean of values strictly between `lo` and `hi` is strictly between them too. */
  lemma MeanWithin(vs: seq<real>, lo: real, hi: real)
    requires forall i :: 0 <= i < |vs| ==> lo < vs[i] < hi
    ensures Mean(vs).Some? ==> lo < Mean(vs).value < hi
  {
    if vs != [] {
      SumBounds(vs, lo, hi);
      var n := |vs| as real;
      assert lo * n / n == lo && hi * n / n == hi;
    }
  }

  /** At most this many fallback stations are queried. */
  const MaxStations := 2

  /** The station fallback: the mean of each pollutant's accepted readings over the first two stations. */
  function StationAverage(feeds: seq<StationFeed>): AirQuality
  {
    var used := if |feeds| < MaxStations then feeds else feeds[..MaxStations];
    AirQuality(Mean(Accepted(used, PM25)), Mean(Accepted(used, PM10)), None, None, None)
  }

  /**
   * The air-quality fetch: the geo lookup when it produced an accepted pm2.5 value, else the
   * average over the fallback stations, collected one station at a time.
   */
  method FetchWaqiData(geo: GeoFeed, stations: seq<StationFeed>) returns (aq: AirQuality)
    ensures FromGeo(geo).pm25.Some? ==> aq == FromGeo(geo)
    ensures FromGeo(geo).pm25.None? ==> aq == StationAverage(stations)
    ensures aq.PmInRange()
    ensures NonNegative(geo.no2) && NonNegative(geo.co) ==> aq.TrafficInRange()
  {
    var fromGeo := FromGeo(geo);
    if fromGeo.pm25.Some? {
      return fromGeo;
    }
    var used := if |stations| < MaxStations then stations else stations[..MaxStations];
    var pm25Values: seq<real> := [];
    var pm10Values: seq<real> := [];
    var i := 0;
    while i < |used|
      invariant 0 <= i <= |used|
      invariant pm25Values == Accepted(used[..i], PM25)
      invariant pm10Values == Accepted(used[..i], PM10)
    {
      AcceptedStep(used, i, PM25);
      AcceptedStep(used, i, PM10);
      var feed := used[i];
      if Accept(feed.pm25, PM25).Some? {
        pm25Values := pm25Values + [feed.pm25.value];
      }
      if Accept(feed.pm10, PM10).Some? {
        pm10Values := pm10Values + [feed.pm10.value];
      }
      i := i + 1;
    }
    assert used[..i] == used;
    MeanWithin(pm25Values, 0.0, PM25.Limit());
    MeanWithin(pm10Values, 0.0, PM10.Limit());
    aq := AirQuality(Mean(pm25Values), Mean(pm10Values), None, None, None);
  }
}
