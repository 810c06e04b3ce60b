/**
 * The real-time sensor monitor: the value of the selected metric in the
 * newest buffered reading, the strict threshold test, the chart of the last
 * thirty readings, the compact tiles, and the anomaly banner over the whole
 * buffer.
 */
module RealTimeMonitor {
  import opened Types
  import opened Seqs
  import opened EquipmentData

  /** The four metrics the monitor offers, in the order of its tabs and tiles. */
  datatype Metric = Temperature | Vibration | Pressure | Power

  const Metrics: seq<Metric> := [Temperature, Vibration, Pressure, Power]

  /** The alarm threshold of each metric. */
  function Threshold(m: Metric): (t: real)
    ensures t > 0.0
  {
    match m
    case Temperature => 85.0
    case Vibration => 5.0
    case Pressure => 115.0
    case Power => 75.0
  }

  /** The field a metric reads; "power" reads the power consumption. */
  function MetricValue(r: SensorReading, m: Metric): real {
    match m
    case Temperature => r.temperature
    case Vibration => r.vibration
    case Pressure => r.pressure
    case Power => r.powerConsumption
  }

  /** `getCurrentValue`: the metric of the newest reading, or 0 with an empty buffer. */
  function GetCurrentValue(readings: seq<SensorReading>, m: Metric): (v: real)
    ensures readings == [] ==> v == 0.0
    ensures readings != [] ==> v == MetricValue(readings[|readings| - 1], m)
  {
    if readings == [] then 0.0 else MetricValue(readings[|readings| - 1], m)
  }

  /**
   * `isAboveThreshold`, and the `isHigh` of a compact tile: strictly above, so
   * a value equal to the threshold is not flagged, and an empty buffer never is.
   */
  predicate IsAboveThreshold(readings: seq<SensorReading>, m: Metric)
    ensures IsAboveThreshold(readings, m) <==>
      readings != [] && MetricValue(readings[|readings| - 1], m) > Threshold(m)
    ensures readings != [] && MetricValue(readings[|readings| - 1], m) == Threshold(m) ==> !IsAboveThreshold(readings, m)
  {
    GetCurrentValue(readings, m) > Threshold(m)
  }

  /**
   * Every threshold lies strictly inside the range the generator draws that
   * metric from, so a fresh reading can land on either side of it.
   */
  lemma ThresholdsReachable(equipmentId: string, now: nat, m: Metric)
    ensures var low := NewReading(equipmentId, now, SensorDraws(0.0, 0.0, 0.0, 0.0, 0.0, 0.0, 0.0, 0.0));
      MetricValue(low, m) < Threshold(m)
    ensures var high := NewReading(equipmentId, now, SensorDraws(0.99, 0.99, 0.99, 0.99, 0.99, 0.99, 0.99, 0.99));
      MetricValue(high, m) > Threshold(m)
  {
  }

  /** One point of the line chart; the formatted time text is not modelled. */
  datatype ChartPoint = ChartPoint(timestamp: Millis, value: real, anomaly: bool)

  predicate IsFlagged(p: ChartPoint) { p.anomaly }

  function PointOf(r: SensorReading, m: Metric): ChartPoint {
    ChartPoint(r.timestamp, MetricValue(r, m), r.isAnomaly)
  }

  /** The number of readings the chart shows. */
  const ChartSize: nat := 30

  /**
   * `chartData`: one point per reading of `slice(-30)`, in order, with the
   * selected metric and the anomaly flag copied.
   */
  function ChartData(readings: seq<SensorReading>, m: Metric): (points: seq<ChartPoint>)
    ensures |points| == Min(ChartSize, |readings|)
    ensures forall i :: 0 <= i < |points| ==>
      points[i] == PointOf(readings[|readings| - |points| + i], m)
  {
    var recent := SliceFrom(readings, -(ChartSize as int));
    seq(|recent|, i requires 0 <= i < |recent| => PointOf(recent[i], m))
  }

  /** The chart ends at the value the monitor shows as current. */
  lemma ChartEndsAtCurrentValue(readings: seq<SensorReading>, m: Metric)
    requires readings != []
    ensures var points := ChartData(readings, m);
      points != [] && points[|points| - 1].value == GetCurrentValue(readings, m)
  {
  }

  /** One compact tile: its metric, the value shown and whether it is flagged. */
  datatype Tile = Tile(metric: Metric, value: real, isHigh: bool)

  /** The compact view: one tile per metric, in tab order. */
  function CompactTiles(readings: seq<SensorReading>): (tiles: seq<Tile>)
    ensures |tiles| == |Metrics|
    ensures forall i :: 0 <= i < |tiles| ==> tiles[i].metric == Metrics[i]
    ensures forall i :: 0 <= i < |tiles| ==>
      tiles[i].value == GetCurrentValue(readings, Metrics[i])
      && (tiles[i].isHigh <==> IsAboveThreshold(readings, Metrics[i]))
  {
    seq(|Metrics|, i requires 0 <= i < |Metrics| =>
      var v := if readings != [] then MetricValue(readings[|readings| - 1], Metrics[i]) else 0.0;
      Tile(Metrics[i], v, v > Threshold(Metrics[i])))
  }

  predicate IsAnomalous(r: SensorReading) { r.isAnomaly }

  /** The banner's number: the anomalous readings of the whole buffer. */
  function AnomalyCount(readings: seq<SensorReading>): (n: nat)
    ensures n == |Filter(readings, IsAnomalous)|
    ensures n <= |readings|
    ensures n > 0 <==> exists r :: r in readings && r.isAnomaly
  {
    var flagged := Filter(readings, IsAnomalous);
    assert (exists r :: r in readings && r.isAnomaly) ==> flagged != [] by {
      if exists r :: r in readings && r.isAnomaly {
        var r :| r in readings && r.isAnomaly;
        assert r in flagged;
      }
    }
    assert flagged != [] ==> flagged[0] in readings && flagged[0].isAnomaly by {
      if flagged != [] {
        assert flagged[0] in flagged;
      }
    }
    |flagged|
  }

  /**
   * The banner counts the whole buffer, the chart only its last thirty
   * readings: the chart never marks more anomalies than the banner reports.
   */
  lemma ChartAnomaliesAtMostBanner(readings: seq<SensorReading>, m: Metric)
    ensures |Filter(ChartData(readings, m), IsFlagged)| <= AnomalyCount(readings)
  {
    var recent := SliceFrom(readings, -(ChartSize as int));
    var k := |readings| - |recent|;
    assert readings == readings[..k] + recent;
    FilterAppend(readings[..k], recent, IsAnomalous);
    ChartAnomalies(recent, m);
  }

  /** Mapping readings to points keeps the number of anomalies. */
  lemma {:induction false} ChartAnomalies(recent: seq<SensorReading>, m: Metric)
    ensures |Filter(seq(|recent|, i requires 0 <= i < |recent| => PointOf(recent[i], m)), IsFlagged)|
      == |Filter(recent, IsAnomalous)|
  {
    if recent != [] {
      var points := seq(|recent|, i requires 0 <= i < |recent| => PointOf(recent[i], m));
      ChartAnomalies(recent[1..], m);
      assert points[1..] == seq(|recent[1..]|, i requires 0 <= i < |recent[1..]| => PointOf(recent[1..][i], m));
    }
  }
}
