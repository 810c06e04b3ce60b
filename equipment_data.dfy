/**
 * The simulated real-time data hooks: the equipment store whose health scores
 * drift every three seconds, the sensor stream that appends a reading every
 * two seconds to a window of fifty, and the alert feed that prepends a canned
 * update every eight seconds to a list of ten.
 *
 * Timers become methods called once per tick; each `Math.random()` the tick
 * makes becomes a draw in [0, 1) passed in, and `Date.now()` a `now` parameter.
 */
module EquipmentData {
  import opened Optional
  import opened Types
  import opened Seqs
  import Strings

  // ---------------------------------------------------------------------------
  // Health drift
  // ---------------------------------------------------------------------------

  /** The unclamped change one tick makes to a health score. */
  function HealthStep(draw: real): (d: real)
    requires IsDraw(draw)
    ensures -0.0104 <= d < 0.0096
  {
    (draw - 0.52) * 0.02
  }

  /**
   * One tick's new health score: the score plus a small step, clamped to
   * [0.1, 1]. A score already in that range never moves by more than 0.0104,
   * and a step that stays in range is applied unchanged.
   */
  function NudgeHealth(score: real, draw: real): (r: real)
    requires IsDraw(draw)
    ensures 0.1 <= r <= 1.0
    ensures 0.1 <= score + HealthStep(draw) <= 1.0 ==> r == score + HealthStep(draw)
    ensures 0.1 <= score <= 1.0 ==> -0.0104 <= r - score <= 0.0104
  {
    ClampHealth(score + HealthStep(draw))
  }

  /**
   * `Math.max(0.1, Math.min(1, x))`: the nearest point of [0.1, 1]. The floor
   * is 0.1, not 0.
   */
  function ClampHealth(x: real): (r: real)
    ensures 0.1 <= r <= 1.0
    ensures 0.1 <= x <= 1.0 ==> r == x
    ensures x < 0.1 ==> r == 0.1
    ensures x > 1.0 ==> r == 1.0
  {
    MaxR(0.1, MinR(1.0, x))
  }

  predicate AllDraws(draws: seq<real>) {
    forall i :: 0 <= i < |draws| ==> IsDraw(draws[i])
  }

  /** Every health score is within the clamp range [0.1, 1]. */
  predicate HealthInRange(eqs: seq<Equipment>) {
    forall i :: 0 <= i < |eqs| ==> 0.1 <= eqs[i].currentHealthScore <= 1.0
  }

  /**
   * `prev.map(eq => ({...eq, currentHealthScore: ...}))`: each item is
   * replaced by a copy with a nudged health score and nothing else changed;
   * the list keeps its length and order.
   */
  function NudgeAll(eqs: seq<Equipment>, draws: seq<real>): (r: seq<Equipment>)
    requires |draws| == |eqs| && AllDraws(draws)
    ensures |r| == |eqs|
    ensures forall i :: 0 <= i < |r| ==> r[i] == eqs[i].(currentHealthScore := r[i].currentHealthScore)
    ensures forall i :: 0 <= i < |r| ==> r[i].currentHealthScore == NudgeHealth(eqs[i].currentHealthScore, draws[i])
    ensures HealthInRange(r)
  {
    seq(|eqs|, i requires 0 <= i < |eqs| =>
      eqs[i].(currentHealthScore := NudgeHealth(eqs[i].currentHealthScore, draws[i])))
  }

  /**
   * The equipment state of `useEquipmentData`. `mock` is the module-level
   * `mockEquipment` array the state starts from and is reset to: the state
   * holds that very array (not a copy) until the first health tick replaces
   * it, and again after every refresh.
   */
  class EquipmentStore {
    const mock: array<Equipment>
    var equipment: array<Equipment>
    var loading: bool

    /** The hook's first render: the state is `mockEquipment` itself, loading. */
    constructor (mock: array<Equipment>)
      ensures this.mock == mock && equipment == mock && loading
    {
      this.mock := mock;
      equipment := mock;
      loading := true;
    }

    /** The 500 ms timer of the initial load firing. */
    method FinishInitialLoad()
      modifies this
      ensures !loading && equipment == old(equipment)
    {
      loading := false;
    }

    /**
     * The three-second health interval: a fresh array of nudged copies
     * replaces the state; the array it replaces is not written to.
     */
    method HealthTick(draws: seq<real>)
      requires |draws| == equipment.Length && AllDraws(draws)
      modifies this
      ensures fresh(equipment)
      ensures equipment[..] == NudgeAll(old(equipment[..]), draws)
      ensures HealthInRange(equipment[..])
      ensures loading == old(loading)
    {
      var next := NudgeAll(equipment[..], draws);
      equipment := new Equipment[|next|](i requires 0 <= i < |next| => next[i]);
      assert equipment[..] == next;
    }

    /** `refreshData()`: loading until its timer fires. */
    method RefreshData()
      modifies this
      ensures loading && equipment == old(equipment)
    {
      loading := true;
    }

    /** The refresh timer firing: the state is `mockEquipment` again, loaded. */
    method CompleteRefresh()
      modifies this
      ensures equipment == mock && !loading
    {
      equipment := mock;
      loading := false;
    }
  }

  // ---------------------------------------------------------------------------
  // Sensor stream
  // ---------------------------------------------------------------------------

  /** The readings kept by the stream. */
  const WindowSize: nat := 50

  /** The eight `Math.random()` draws one sensor tick makes, in source order. */
  datatype SensorDraws = SensorDraws(
    temperature: real, vibration: real, pressure: real, humidity: real,
    power: real, throughput: real, anomaly: real, anomalyScore: real)

  predicate ValidSensorDraws(d: SensorDraws) {
    IsDraw(d.temperature) && IsDraw(d.vibration) && IsDraw(d.pressure) && IsDraw(d.humidity)
    && IsDraw(d.power) && IsDraw(d.throughput) && IsDraw(d.anomaly) && IsDraw(d.anomalyScore)
  }

  /**
   * The reading a sensor tick generates at time `now`: every measurement lies
   * in its simulated band, the anomaly flag is a one-in-ten event, and the id
   * is "sr-" followed by the timestamp's digits.
   */
  function NewReading(equipmentId: string, now: nat, d: SensorDraws): (r: SensorReading)
    requires ValidSensorDraws(d)
    ensures r.equipmentId == equipmentId && r.timestamp == now
    ensures |r.id| > 3 && r.id[..3] == "sr-"
    ensures Strings.IsDigits(r.id[3..]) && Strings.DecimalValue(r.id[3..]) == now
    ensures 65.0 <= r.temperature < 95.0
    ensures 2.0 <= r.vibration < 6.0
    ensures 100.0 <= r.pressure < 120.0
    ensures 40.0 <= r.humidity < 60.0
    ensures 50.0 <= r.powerConsumption < 80.0
    ensures 80.0 <= r.throughput < 100.0
    ensures r.isAnomaly <==> d.anomaly > 0.9
    ensures 0.0 <= r.anomalyScore < 0.5
  {
    Strings.DecimalRoundTrip(now);
    var digits := Strings.NatToDecimal(now);
    assert ("sr-" + digits)[3..] == digits;
    SensorReading(
      "sr-" + digits, equipmentId, now,
      65.0 + d.temperature * 30.0,
      2.0 + d.vibration * 4.0,
      100.0 + d.pressure * 20.0,
      40.0 + d.humidity * 20.0,
      50.0 + d.power * 30.0,
      80.0 + d.throughput * 20.0,
      d.anomaly > 0.9,
      d.anomalyScore * 0.5)
  }

  /**
   * `[...prev.slice(-49), reading]`: the reading is appended and the window
   * keeps the latest fifty, dropping the oldest; the survivors keep their order.
   */
  function SlideWindow(prev: seq<SensorReading>, reading: SensorReading): (w: seq<SensorReading>)
    ensures |w| == Min(|prev| + 1, WindowSize)
    ensures w[|w| - 1] == reading
    ensures w[..|w| - 1] == prev[|prev| - (|w| - 1)..]
  {
    SliceFrom(prev, -(WindowSize - 1)) + [reading]
  }

  /** A window that is not yet full loses nothing. */
  lemma SlideWindowKeepsAll(prev: seq<SensorReading>, reading: SensorReading)
    requires |prev| < WindowSize
    ensures SlideWindow(prev, reading) == prev + [reading]
  {
  }

  /** Once full, the window stays full. */
  lemma {:induction false} SlideWindowStaysFull(prev: seq<SensorReading>, readings: seq<SensorReading>)
    requires |prev| == WindowSize
    ensures |Slide(prev, readings)| == WindowSize
    decreases |readings|
  {
    if readings != [] {
      SlideWindowStaysFull(SlideWindow(prev, readings[0]), readings[1..]);
    }
  }

  /** The window after a run of ticks, oldest tick first. */
  function Slide(prev: seq<SensorReading>, readings: seq<SensorReading>): seq<SensorReading>
    decreases |readings|
  {
    if readings == [] then prev else Slide(SlideWindow(prev, readings[0]), readings[1..])
  }

  /** The window never grows past fifty readings, however many ticks pass. */
  lemma {:induction false} SlideBounded(prev: seq<SensorReading>, readings: seq<SensorReading>)
    requires |prev| <= WindowSize
    ensures |Slide(prev, readings)| <= WindowSize
    ensures readings != [] ==> |Slide(prev, readings)| >= 1
    ensures readings != [] ==> Slide(prev, readings)[|Slide(prev, readings)| - 1] == readings[|readings| - 1]
    decreases |readings|
  {
    if readings != [] {
      SlideBounded(SlideWindow(prev, readings[0]), readings[1..]);
    }
  }

  /** The sensor state of `useSensorData(equipmentId)`. */
  class SensorStream {
    var equipmentId: string
    var readings: seq<SensorReading>
    var streaming: bool

    /** Mounting for an equipment id: a batch of thirty history readings, streaming on. */
    constructor (equipmentId: string, history: seq<SensorReading>)
      ensures this.equipmentId == equipmentId && readings == history && streaming
    {
      this.equipmentId := equipmentId;
      readings := history;
      streaming := true;
    }

    /**
     * The effect on `[equipmentId]`: a new id replaces the buffer by a fresh
     * history for that id. The streaming flag is other state and survives.
     */
    method ChangeEquipment(id: string, history: seq<SensorReading>)
      modifies this
      ensures equipmentId == id && readings == history && streaming == old(streaming)
    {
      equipmentId := id;
      readings := history;
    }

    /** `setIsStreaming(on)`: pausing clears the interval, resuming starts it again. */
    method SetStreaming(on: bool)
      modifies this
      ensures streaming == on && readings == old(readings) && equipmentId == old(equipmentId)
    {
      streaming := on;
    }

    /**
     * One firing of the two-second interval, which only runs while streaming.
     * The new reading carries the current id.
     */
    method Tick(now: nat, draws: SensorDraws)
      requires ValidSensorDraws(draws)
      modifies this
      ensures equipmentId == old(equipmentId) && streaming == old(streaming)
      ensures streaming ==> readings == SlideWindow(old(readings), NewReading(equipmentId, now, draws))
      ensures !streaming ==> readings == old(readings)
    {
      if streaming {
        readings := SlideWindow(readings, NewReading(equipmentId, now, draws));
      }
    }
  }

  // ---------------------------------------------------------------------------
  // Real-time alert feed
  // ---------------------------------------------------------------------------

  /** The updates kept by the feed. */
  const FeedSize: nat := 10

  /** The three canned updates the feed draws from, without their timestamp. */
  function AlertTemplates(): (t: seq<(UpdateKind, string, UpdateData)>)
    ensures |t| == 3
  {
    [ (AlertUpdate, "eq-001", UpdateData("Temperature threshold exceeded", "warning")),
      (PredictionUpdate, "eq-002", UpdateData("Failure probability increased to 62%", "error")),
      (HealthUpdate, "eq-003", UpdateData("Health score improved", "success")) ]
  }

  /** The update one tick of the feed emits, picked by the draw and stamped with `now`. */
  function PickUpdate(draw: real, now: Millis): (u: RealTimeUpdate)
    requires IsDraw(draw)
    ensures u.timestamp == now
    ensures exists i :: 0 <= i < 3 && (u.kind, u.equipmentId, u.data) == AlertTemplates()[i]
  {
    var i := RandomIndex(draw, |AlertTemplates()|);
    var t := AlertTemplates()[i];
    RealTimeUpdate(t.0, t.1, t.2, now)
  }

  /**
   * `[update, ...prev.slice(0, 9)]`: the newest update first, followed by the
   * nine most recent before it, in order.
   */
  function PushUpdate(prev: seq<RealTimeUpdate>, u: RealTimeUpdate): (r: seq<RealTimeUpdate>)
    ensures |r| == Min(|prev| + 1, FeedSize)
    ensures r[0] == u
    ensures r[1..] == prev[..|r| - 1]
  {
    [u] + SliceTo(prev, FeedSize - 1)
  }

  /** The alert list of `useRealTimeAlerts`, empty until the first tick. */
  class AlertFeed {
    var alerts: seq<RealTimeUpdate>

    constructor ()
      ensures alerts == []
    {
      alerts := [];
    }

    /** One firing of the eight-second interval. */
    method Tick(draw: real, now: Millis)
      requires IsDraw(draw)
      modifies this
      ensures alerts == PushUpdate(old(alerts), PickUpdate(draw, now))
      ensures |old(alerts)| <= FeedSize ==> |alerts| <= FeedSize
    {
      alerts := PushUpdate(alerts, PickUpdate(draw, now));
    }
  }
}
