/**
 * The maintenance-schedule panel: the equipment due within the next
 * `daysAhead` days, soonest first and at most five; the first three open work
 * orders; the day count and badge of each due item; the type and status styles.
 */
module MaintenanceSchedule {
  import opened Types
  import opened Seqs
  import opened Formatters

  /** Due in the window: not before `now` and at most `daysAhead` days after it, both ends included. */
  predicate InWindow(e: Equipment, now: Millis, daysAhead: int) {
    now <= e.nextScheduledMaintenance <= now + daysAhead * MillisPerDay
  }

  function WindowTest(now: Millis, daysAhead: int): Equipment -> bool {
    (e: Equipment) => InWindow(e, now, daysAhead)
  }

  /** The comparator on the next maintenance date, as "not after". */
  predicate ByNextMaintenance(a: Equipment, b: Equipment) {
    a.nextScheduledMaintenance <= b.nextScheduledMaintenance
  }

  /** The number of items the panel lists under each heading. */
  const MaxUpcoming: nat := 5
  const MaxOpenOrders: nat := 3

  /**
   * `upcomingMaintenance`, computed once with the clock reading `now`: the
   * equipment due in the window, soonest first, cut to five. It is the head of
   * the full sorted window, as long as the cut allows.
   */
  function UpcomingMaintenance(eqs: seq<Equipment>, now: Millis, daysAhead: int): (r: seq<Equipment>)
    ensures |r| == Min(MaxUpcoming, |Filter(eqs, WindowTest(now, daysAhead))|)
    ensures r == InsertionSort(Filter(eqs, WindowTest(now, daysAhead)), ByNextMaintenance)[..|r|]
    ensures forall e :: e in r ==> e in eqs && InWindow(e, now, daysAhead)
    ensures forall i, j :: 0 <= i < j < |r| ==> r[i].nextScheduledMaintenance <= r[j].nextScheduledMaintenance
  {
    var due := Filter(eqs, WindowTest(now, daysAhead));
    InsertionSortMembers(due, ByNextMaintenance);
    InsertionSortSorted(due, ByNextMaintenance);
    SliceTo(InsertionSort(due, ByNextMaintenance), MaxUpcoming)
  }

  predicate IsOpenOrder(r: MaintenanceRecord) {
    r.workOrderStatus == InProgress || r.workOrderStatus == Scheduled
  }

  /** `recentRecords`: the first three in-progress or scheduled records, in list order. */
  function RecentRecords(records: seq<MaintenanceRecord>): (r: seq<MaintenanceRecord>)
    ensures |r| == Min(MaxOpenOrders, |Filter(records, IsOpenOrder)|)
    ensures r == Filter(records, IsOpenOrder)[..|r|]
    ensures forall x :: x in r ==> x in records && (x.workOrderStatus == InProgress || x.workOrderStatus == Scheduled)
  {
    SliceTo(Filter(records, IsOpenOrder), MaxOpenOrders)
  }

  /** The header badge counts both lists, so it never exceeds eight. */
  function ItemCount(eqs: seq<Equipment>, records: seq<MaintenanceRecord>, now: Millis, daysAhead: int): (n: nat)
    ensures n == |UpcomingMaintenance(eqs, now, daysAhead)| + |RecentRecords(records)|
    ensures n <= MaxUpcoming + MaxOpenOrders
  {
    |UpcomingMaintenance(eqs, now, daysAhead)| + |RecentRecords(records)|
  }

  /**
   * The inline `Math.ceil((next - Date.now()) / day)` of a due item, read with
   * the clock at render time: the same number of days as `getDaysUntil`.
   */
  function DaysUntil(e: Equipment, renderNow: Millis): (days: int)
    ensures days == GetDaysUntil(e.nextScheduledMaintenance, renderNow)
  {
    (e.nextScheduledMaintenance - renderNow + MillisPerDay - 1) / MillisPerDay
  }

  /**
   * Read with the clock the list was computed with, a listed item is due in
   * 0 to `daysAhead` days. The list is memoised, so a later render reads a
   * later clock: the count can then reach 0 or below, but never exceeds
   * `daysAhead`.
   */
  lemma UpcomingDaysInRange(eqs: seq<Equipment>, now: Millis, daysAhead: int, renderNow: Millis)
    requires now <= renderNow
    ensures forall e :: e in UpcomingMaintenance(eqs, now, daysAhead) ==> DaysUntil(e, renderNow) <= daysAhead
    ensures forall e :: e in UpcomingMaintenance(eqs, now, daysAhead) ==> 0 <= DaysUntil(e, now) <= daysAhead
  {
    forall e | e in UpcomingMaintenance(eqs, now, daysAhead)
      ensures DaysUntil(e, renderNow) <= daysAhead && 0 <= DaysUntil(e, now) <= daysAhead
    {
      DueDays(e.nextScheduledMaintenance, now, daysAhead);
      DaysUntilMonotoneInNow(e.nextScheduledMaintenance, now, renderNow);
    }
  }

  /** A date in the window is 0 to `daysAhead` days away. */
  lemma DueDays(target: Millis, now: Millis, daysAhead: int)
    requires now <= target <= now + daysAhead * MillisPerDay
    ensures 0 <= GetDaysUntil(target, now) <= daysAhead
  {
    var d := GetDaysUntil(target, now);
    assert (d - 1) * MillisPerDay < daysAhead * MillisPerDay;
    assert 0 <= d * MillisPerDay;
  }

  /** A later clock never gives a later day count. */
  lemma DaysUntilMonotoneInNow(target: Millis, now1: Millis, now2: Millis)
    requires now1 <= now2
    ensures GetDaysUntil(target, now2) <= GetDaysUntil(target, now1)
  {
  }

  /** The day badge: destructive up to 2 days, default up to 5, secondary beyond. */
  function DaysBadge(days: int): (variant: string)
    ensures variant == "destructive" <==> days <= 2
    ensures variant == "default" <==> 2 < days <= 5
    ensures variant == "secondary" <==> days > 5
  {
    if days <= 2 then "destructive" else if days <= 5 then "default" else "secondary"
  }

  /** `getTypeColor`: one tinted style per maintenance type. */
  function GetTypeColor(t: MaintenanceType): (style: string)
    ensures style == "bg-primary/20 text-primary" <==> t == Predictive
    ensures style == "bg-success/20 text-success" <==> t == Preventive
    ensures style == "bg-warning/20 text-warning" <==> t == Corrective
    ensures style == "bg-destructive/20 text-destructive" <==> t == Emergency
  {
    match t
    case Predictive => "bg-primary/20 text-primary"
    case Preventive => "bg-success/20 text-success"
    case Corrective => "bg-warning/20 text-warning"
    case Emergency => "bg-destructive/20 text-destructive"
  }

  /** The four maintenance types get four different styles. */
  lemma TypeColorsDistinct(a: MaintenanceType, b: MaintenanceType)
    requires a != b
    ensures GetTypeColor(a) != GetTypeColor(b)
  {
  }

  /**
   * `getStatusColor` of the panel: scheduled and in-progress orders, the only
   * ones it lists, get different variants; completed is outlined and the
   * fallback case is secondary.
   */
  function GetOrderStatusColor(status: WorkOrderStatus): (variant: string)
    ensures variant == "secondary" <==> status == Scheduled || status == Cancelled
    ensures variant == "default" <==> status == InProgress
    ensures variant == "outline" <==> status == Completed
  {
    match status
    case Scheduled => "secondary"
    case InProgress => "default"
    case Completed => "outline"
    case _ => "secondary"
  }
}
