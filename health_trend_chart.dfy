/**
 * The health-trend chart: for the selected time range, a row of evenly spaced
 * points ending at the clock reading, each holding one simulated health value
 * per charted equipment (keyed by its name), and the up/down/stable trend read
 * off the first and last point.
 */
module HealthTrendChart {
  import opened Optional
  import opened Types
  import opened Seqs
  import opened PredictiveAlerts
  import opened EquipmentData

  /** The four ranges the chart offers. */
  datatype TimeRange = OneHour | OneDay | SevenDays | ThirtyDays

  /** The number of points of a range; anything but the first three is "30d". */
  function PointCount(range: TimeRange): (points: nat)
    ensures points > 0
  {
    match range
    case OneHour => 12
    case OneDay => 24
    case SevenDays => 7
    case ThirtyDays => 30
  }

  /** The length a range's name announces: an hour, a day, a week, thirty days. */
  function RangeMillis(range: TimeRange): nat {
    match range
    case OneHour => 60 * 60 * 1000
    case OneDay => 24 * 60 * 60 * 1000
    case SevenDays => 7 * 24 * 60 * 60 * 1000
    case ThirtyDays => 30 * 24 * 60 * 60 * 1000
  }

  /**
   * The spacing of the points: five minutes, an hour, a day, a day. The
   * points times the spacing is exactly the length the range's name announces.
   */
  function Interval(range: TimeRange): (interval: nat)
    ensures interval > 0
    ensures PointCount(range) * interval == RangeMillis(range)
  {
    match range
    case OneHour => 5 * 60 * 1000
    case OneDay => 60 * 60 * 1000
    case SevenDays => 24 * 60 * 60 * 1000
    case ThirtyDays => 24 * 60 * 60 * 1000
  }

  /** How far back the first point lies: 55 minutes, 23 hours, 6 days, 29 days. */
  lemma RangeSpans()
    ensures (PointCount(OneHour) - 1) * Interval(OneHour) == 55 * 60 * 1000
    ensures (PointCount(OneDay) - 1) * Interval(OneDay) == 23 * 60 * 60 * 1000
    ensures (PointCount(SevenDays) - 1) * Interval(SevenDays) == 6 * 24 * 60 * 60 * 1000
    ensures (PointCount(ThirtyDays) - 1) * Interval(ThirtyDays) == 29 * 24 * 60 * 60 * 1000
  {
  }

  /** The time of point `i`: `now - (points - 1 - i) * interval`. */
  function TimeAt(range: TimeRange, now: Millis, i: int): Millis {
    now - (PointCount(range) - 1 - i) * Interval(range)
  }

  /** One point of the chart; the formatted axis text is not modelled. */
  datatype DataPoint = DataPoint(time: Millis, values: map<string, real>)

  /**
   * The value of one series at point `i`: the equipment's current health plus
   * the variation drawn for (point, series), plus a term that shrinks by
   * 0.002 per point, clamped to [0.1, 1]. The variation (a sine plus a random
   * draw) is an input. The value always lies in [0.1, 1], and is the drifted
   * score itself whenever that lies there.
   */
  function SeriesValue(e: Equipment, points: nat, i: int, variation: real): (v: real)
    ensures 0.1 <= v <= 1.0
    ensures var drifted := e.currentHealthScore + variation + (points - i) as real * 0.002;
      0.1 <= drifted <= 1.0 ==> v == drifted
  {
    ClampHealth(e.currentHealthScore + variation + (points - i) as real * 0.002)
  }

  /**
   * The values of point `i` after the `forEach` over `ids`: each id that some
   * equipment has writes the value of the first such equipment under its name,
   * a later id overwriting an earlier one with the same name; an id no
   * equipment has writes nothing. Every plotted value lies in [0.1, 1].
   */
  function SeriesValues(eqs: seq<Equipment>, ids: seq<string>, range: TimeRange, i: int,
                        variation: (int, int) -> real): (values: map<string, real>)
    ensures forall name :: name in values ==> 0.1 <= values[name] <= 1.0
  {
    if ids == [] then map[]
    else
      var m := SeriesValues(eqs, ids[..|ids| - 1], range, i, variation);
      match Find(eqs, HasId(ids[|ids| - 1]))
      case Some(e) => m[e.name := SeriesValue(e, PointCount(range), i, variation(i, |ids| - 1))]
      case None => m
  }

  /** Point `i` of the chart. */
  function PointAt(eqs: seq<Equipment>, ids: seq<string>, range: TimeRange, now: Millis, i: int,
                   variation: (int, int) -> real): DataPoint
  {
    DataPoint(TimeAt(range, now, i), SeriesValues(eqs, ids, range, i, variation))
  }

  /**
   * The inner `forEach` of one point: each charted id looked up in turn, the
   * value of the first match written under its name.
   */
  method SeriesAt(eqs: seq<Equipment>, ids: seq<string>, range: TimeRange, i: int,
                  variation: (int, int) -> real)
    returns (values: map<string, real>)
    ensures values == SeriesValues(eqs, ids, range, i, variation)
  {
    values := map[];
    var idx := 0;
    while idx < |ids|
      invariant 0 <= idx <= |ids|
      invariant values == SeriesValues(eqs, ids[..idx], range, i, variation)
    {
      assert ids[..idx + 1][..idx] == ids[..idx];
      var found := Find(eqs, HasId(ids[idx]));
      if found.Some? {
        var e := found.value;
        values := values[e.name := SeriesValue(e, PointCount(range), i, variation(i, idx))];
      }
      idx := idx + 1;
    }
    assert ids[..|ids|] == ids;
  }

  /**
   * The chart's effect: one point per index in order, each built by looping
   * over the charted ids.
   */
  method BuildChartData(eqs: seq<Equipment>, ids: seq<string>, range: TimeRange, now: Millis,
                        variation: (int, int) -> real)
    returns (data: seq<DataPoint>)
    ensures |data| == PointCount(range)
    ensures forall i :: 0 <= i < |data| ==> data[i] == PointAt(eqs, ids, range, now, i, variation)
  {
    var points := PointCount(range);
    var interval := Interval(range);
    data := [];
    var i := 0;
    while i < points
      invariant 0 <= i <= points
      invariant |data| == i
      invariant forall k :: 0 <= k < i ==> data[k] == PointAt(eqs, ids, range, now, k, variation)
    {
      var values := SeriesAt(eqs, ids, range, i, variation);
      data := data + [DataPoint(now - (points - 1 - i) * interval, values)];
      i := i + 1;
    }
  }

  /** The points are evenly spaced, strictly increasing in time, and the last is `now`. */
  lemma TimesAscendToNow(range: TimeRange, now: Millis)
    ensures TimeAt(range, now, PointCount(range) - 1) == now
    ensures TimeAt(range, now, 0) == now - (PointCount(range) - 1) * Interval(range)
    ensures forall i :: TimeAt(range, now, i + 1) - TimeAt(range, now, i) == Interval(range)
    ensures forall i, j :: i < j ==> TimeAt(range, now, i) < TimeAt(range, now, j)
  {
    var points: int, interval: int := PointCount(range), Interval(range);
    forall i
      ensures TimeAt(range, now, i + 1) - TimeAt(range, now, i) == interval
    {
      SpacingStep(points - 1 - i, interval);
    }
    forall i, j | i < j
      ensures TimeAt(range, now, i) < TimeAt(range, now, j)
    {
      SpacingGrows(points - 1 - j, j - i, interval);
    }
  }

  /** One step fewer to go is one interval later. */
  lemma SpacingStep(k: int, interval: int)
    ensures k * interval - (k - 1) * interval == interval
  {
  }

  /** More steps to go is strictly earlier. */
  lemma SpacingGrows(k: int, d: int, interval: int)
    requires d > 0 && interval > 0
    ensures (k + d) * interval > k * interval
  {
    assert (k + d) * interval == k * interval + d * interval;
  }

  /**
   * A point has a series exactly for the names of the equipment found by the
   * charted ids: every id some equipment has contributes its first match's
   * name, and no other name appears.
   */
  lemma {:induction false} SeriesKeys(eqs: seq<Equipment>, ids: seq<string>, range: TimeRange, i: int,
                                      variation: (int, int) -> real)
    ensures forall name :: name in SeriesValues(eqs, ids, range, i, variation) <==>
      exists k :: 0 <= k < |ids| && Find(eqs, HasId(ids[k])).Some? && Find(eqs, HasId(ids[k])).value.name == name
  {
    if ids != [] {
      var init := ids[..|ids| - 1];
      SeriesKeys(eqs, init, range, i, variation);
      forall name | name in SeriesValues(eqs, ids, range, i, variation)
        ensures exists k :: 0 <= k < |ids| && Find(eqs, HasId(ids[k])).Some? && Find(eqs, HasId(ids[k])).value.name == name
      {
        if name !in SeriesValues(eqs, init, range, i, variation) {
          assert Find(eqs, HasId(ids[|ids| - 1])).Some?;
        } else {
          var k :| 0 <= k < |init| && Find(eqs, HasId(init[k])).Some? && Find(eqs, HasId(init[k])).value.name == name;
          assert ids[k] == init[k];
        }
      }
      forall name, k | 0 <= k < |ids| && Find(eqs, HasId(ids[k])).Some? && Find(eqs, HasId(ids[k])).value.name == name
        ensures name in SeriesValues(eqs, ids, range, i, variation)
      {
        if k < |init| {
          assert init[k] == ids[k];
        }
      }
    }
  }

  /** Every point of the chart carries the same series. */
  lemma SameSeriesAtEveryPoint(eqs: seq<Equipment>, ids: seq<string>, range: TimeRange, i: int, j: int,
                               variation: (int, int) -> real)
    ensures SeriesValues(eqs, ids, range, i, variation).Keys == SeriesValues(eqs, ids, range, j, variation).Keys
  {
    SeriesKeys(eqs, ids, range, i, variation);
    SeriesKeys(eqs, ids, range, j, variation);
  }

  /** The trend of one series. */
  datatype Trend = Up | Down | Stable

  /** `data[k][name] || 0`: a missing series reads as 0. */
  function ValueOrZero(p: DataPoint, name: string): real {
    if name in p.values then p.values[name] else 0.0
  }

  /**
   * `getTrend`: stable with fewer than two points; otherwise up when the last
   * value exceeds the first by more than 0.02, down when it falls short by
   * more than 0.02, stable in between.
   */
  function GetTrend(data: seq<DataPoint>, name: string): (t: Trend)
    ensures |data| < 2 ==> t == Stable
    ensures t == Up <==> |data| >= 2 && ValueOrZero(data[|data| - 1], name) - ValueOrZero(data[0], name) > 0.02
    ensures t == Down <==> |data| >= 2 && ValueOrZero(data[|data| - 1], name) - ValueOrZero(data[0], name) < -0.02
  {
    if |data| < 2 then Stable
    else
      var diff := ValueOrZero(data[|data| - 1], name) - ValueOrZero(data[0], name);
      if diff > 0.02 then Up
      else if diff < -0.02 then Down
      else Stable
  }

  /** A name with no series anywhere is stable. */
  lemma MissingSeriesIsStable(data: seq<DataPoint>, name: string)
    requires forall k :: 0 <= k < |data| ==> name !in data[k].values
    ensures GetTrend(data, name) == Stable
  {
  }

  /**
   * The shrinking term on its own: when a series is unclamped at both ends
   * and draws the same variation there, its last value lies
   * `(points - 1) * 0.002` below its first.
   */
  lemma DriftBetweenEnds(e: Equipment, range: TimeRange, v: real)
    requires var points := PointCount(range);
      && 0.1 <= e.currentHealthScore + v + points as real * 0.002 <= 1.0
      && 0.1 <= e.currentHealthScore + v + 0.002 <= 1.0
    ensures var points := PointCount(range);
      SeriesValue(e, points, points - 1, v) - SeriesValue(e, points, 0, v) == -((points - 1) as real * 0.002)
  {
  }

  /**
   * With equal variation at both ends and no clamping, the chart reports a
   * falling trend for a one-hour, one-day or thirty-day range (a drift of
   * 0.022, 0.046 or 0.058) but a stable one for seven days (0.012).
   */
  lemma DriftTrend(eqs: seq<Equipment>, ids: seq<string>, range: TimeRange, now: Millis,
                   variation: (int, int) -> real, e: Equipment, data: seq<DataPoint>)
    requires |ids| == 1 && Find(eqs, HasId(ids[0])) == Some(e)
    requires |data| == PointCount(range)
    requires forall i :: 0 <= i < |data| ==> data[i] == PointAt(eqs, ids, range, now, i, variation)
    requires variation(0, 0) == variation(PointCount(range) - 1, 0)
    requires var points := PointCount(range);
      && 0.1 <= e.currentHealthScore + variation(0, 0) + points as real * 0.002 <= 1.0
      && 0.1 <= e.currentHealthScore + variation(0, 0) + 0.002 <= 1.0
    ensures GetTrend(data, e.name) == if range == SevenDays then Stable else Down
  {
    var points := PointCount(range);
    assert ids[..0] == [];
    assert data[0] == PointAt(eqs, ids, range, now, 0, variation);
    assert data[points - 1] == PointAt(eqs, ids, range, now, points - 1, variation);
    assert ValueOrZero(data[0], e.name) == SeriesValue(e, points, 0, variation(0, 0));
    assert ValueOrZero(data[points - 1], e.name) == SeriesValue(e, points, points - 1, variation(points - 1, 0));
    DriftBetweenEnds(e, range, variation(0, 0));
  }
}
