/**
 * The landing page's live demo: a rotating alert message, five demo cards
 * whose health drifts randomly within [10, 100], a play/pause switch that
 * stops both timers, and a button that shows one of three emergency messages.
 */
module LandingDemo {
  import opened Seqs
  import opened EquipmentCard

  /** The five messages of the rotation, in order. */
  const Alerts: seq<string> := [
    "🚨 Press #3 - Temperature anomaly detected",
    "⚠️ Conveyor B2 - Vibration levels increasing",
    "🔧 Mixer #5 - Preventive maintenance scheduled",
    "📊 New prediction: Motor #7 failure in 3 days",
    "✅ Maintenance completed on Pump #12"
  ]

  /** The three messages the simulate button picks from. */
  const EmergencyAlerts: seq<string> := [
    "🚨 Emergency: Bearing failure predicted in 24h!",
    "⚠️ Warning: Temperature threshold exceeded",
    "🔧 Scheduled maintenance due tomorrow"
  ]

  /** The five demo cards the page starts with. */
  const MockEquipmentData: seq<DemoEquipment> := [
    DemoEquipment(1, "Press #3", 92.0, "critical", "Press", "2 days ago"),
    DemoEquipment(2, "Conveyor B2", 87.0, "warning", "Conveyor", "1 week ago"),
    DemoEquipment(3, "Mixer #5", 73.0, "warning", "Mixer", "2 weeks ago"),
    DemoEquipment(4, "Motor #7", 45.0, "critical", "Motor", "3 days ago"),
    DemoEquipment(5, "Pump #12", 95.0, "healthy", "Pump", "1 month ago")
  ]

  /**
   * The rotation index after `k` ticks of one playback: it starts at 0 and
   * each tick advances it by one modulo five. After `k` ticks it is
   * `k mod 5`, so tick `k` showed `alerts[(k - 1) mod 5]`.
   */
  function IndexAfter(k: nat): (index: nat)
    ensures index == k % |Alerts|
  {
    if k == 0 then 0 else (IndexAfter(k - 1) + 1) % |Alerts|
  }

  /**
   * One demo health step: `health + (random - 0.5) * 5` clamped to [10, 100];
   * a step moves the health by at most 2.5.
   */
  function NudgeDemoHealth(health: real, draw: real): (r: real)
    requires IsDraw(draw)
    ensures 10.0 <= r <= 100.0
    ensures 10.0 <= health <= 100.0 ==> -2.5 <= r - health <= 2.5
    ensures 10.0 <= health + (draw - 0.5) * 5.0 <= 100.0 ==> r == health + (draw - 0.5) * 5.0
  {
    MaxR(10.0, MinR(100.0, health + (draw - 0.5) * 5.0))
  }

  predicate HealthInRange(cards: seq<DemoEquipment>) {
    forall i :: 0 <= i < |cards| ==> 10.0 <= cards[i].health <= 100.0
  }

  /**
   * The nudge over every card: only the health changes, by the card's own
   * draw, and count and order stay as they were.
   */
  function NudgeCards(cards: seq<DemoEquipment>, draws: seq<real>): (r: seq<DemoEquipment>)
    requires |draws| == |cards| && forall i :: 0 <= i < |draws| ==> IsDraw(draws[i])
    ensures |r| == |cards|
    ensures forall i :: 0 <= i < |r| ==> r[i] == cards[i].(health := NudgeDemoHealth(cards[i].health, draws[i]))
    ensures HealthInRange(r)
  {
    seq(|cards|, i requires 0 <= i < |cards| => cards[i].(health := NudgeDemoHealth(cards[i].health, draws[i])))
  }

  /** The page's state: the switch, the banner text, the cards and the rotation. */
  class Demo {
    var isPlaying: bool
    var currentAlert: string
    var equipmentData: seq<DemoEquipment>
    /** The `currentIndex` of the running rotation timer. */
    var alertIndex: nat
    /** The ticks of the running rotation timer since it started. */
    ghost var ticks: nat

    ghost predicate Valid()
      reads this
    {
      && alertIndex == IndexAfter(ticks)
      && alertIndex < |Alerts|
      && HealthInRange(equipmentData)
    }

    /** The first render: playing, an empty banner, the five mock cards. */
    constructor()
      ensures Valid()
      ensures isPlaying && currentAlert == "" && equipmentData == MockEquipmentData
      ensures alertIndex == 0 && ticks == 0
    {
      isPlaying := true;
      currentAlert := "";
      equipmentData := MockEquipmentData;
      alertIndex := 0;
      ticks := 0;
    }

    /**
     * The play/pause button. Turning play back on starts a new rotation timer,
     * whose index starts again at 0.
     */
    method TogglePlay()
      requires Valid()
      modifies this
      ensures Valid()
      ensures isPlaying == !old(isPlaying)
      ensures isPlaying ==> alertIndex == 0 && ticks == 0
      ensures !isPlaying ==> alertIndex == old(alertIndex) && ticks == old(ticks)
      ensures currentAlert == old(currentAlert) && equipmentData == old(equipmentData)
    {
      isPlaying := !isPlaying;
      if isPlaying {
        alertIndex := 0;
        ticks := 0;
      }
    }

    /**
     * A three-second tick of the rotation: while playing, the banner shows the
     * message at the index and the index moves on; paused, nothing changes.
     * Tick `k` of a playback shows `alerts[(k - 1) mod 5]`.
     */
    method AlertTick()
      requires Valid()
      modifies this
      ensures Valid()
      ensures old(isPlaying) ==> ticks == old(ticks) + 1 && currentAlert == Alerts[(ticks - 1) % |Alerts|]
      ensures !old(isPlaying) ==> currentAlert == old(currentAlert) && ticks == old(ticks)
      ensures alertIndex == ticks % |Alerts|
      ensures isPlaying == old(isPlaying) && equipmentData == old(equipmentData)
    {
      if isPlaying {
        currentAlert := Alerts[alertIndex];
        alertIndex := (alertIndex + 1) % |Alerts|;
        ticks := ticks + 1;
      }
    }

    /** A two-second tick of the health drift: while playing, every card is nudged. */
    method HealthTick(draws: seq<real>)
      requires Valid()
      requires |draws| == |equipmentData| && forall i :: 0 <= i < |draws| ==> IsDraw(draws[i])
      modifies this
      ensures Valid()
      ensures old(isPlaying) ==> equipmentData == NudgeCards(old(equipmentData), draws)
      ensures !old(isPlaying) ==> equipmentData == old(equipmentData)
      ensures isPlaying == old(isPlaying) && currentAlert == old(currentAlert)
      ensures alertIndex == old(alertIndex) && ticks == old(ticks)
    {
      if isPlaying {
        equipmentData := NudgeCards(equipmentData, draws);
      }
    }

    /**
     * `handleSimulateAlert`: the banner shows the emergency message the draw
     * selects, whether or not the demo is playing.
     */
    method SimulateAlert(draw: real)
      requires Valid()
      requires IsDraw(draw)
      modifies this
      ensures Valid()
      ensures currentAlert in EmergencyAlerts
      ensures currentAlert == EmergencyAlerts[RandomIndex(draw, |EmergencyAlerts|)]
      ensures isPlaying == old(isPlaying) && equipmentData == old(equipmentData)
      ensures alertIndex == old(alertIndex) && ticks == old(ticks)
    {
      currentAlert := EmergencyAlerts[RandomIndex(draw, |EmergencyAlerts|)];
    }
  }

  /** The mock cards start within the drift range. */
  lemma MockHealthInRange()
    ensures HealthInRange(MockEquipmentData)
  {
  }

  /** Each emergency message is picked by a third of the draws. */
  lemma SimulatedAlertThirds(draw: real)
    requires IsDraw(draw)
    ensures draw < 1.0 / 3.0 ==> RandomIndex(draw, |EmergencyAlerts|) == 0
    ensures 1.0 / 3.0 <= draw < 2.0 / 3.0 ==> RandomIndex(draw, |EmergencyAlerts|) == 1
    ensures 2.0 / 3.0 <= draw ==> RandomIndex(draw, |EmergencyAlerts|) == 2
  {
  }
}
