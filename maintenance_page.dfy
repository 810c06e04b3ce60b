/**
 * The maintenance page: the work-order counts by status, the total cost of
 * all records, and the status badge of each order.
 */
module MaintenancePage {
  import opened Types
  import opened Seqs

  predicate IsScheduled(r: MaintenanceRecord) { r.workOrderStatus == Scheduled }
  predicate IsInProgress(r: MaintenanceRecord) { r.workOrderStatus == InProgress }
  predicate IsCompleted(r: MaintenanceRecord) { r.workOrderStatus == Completed }
  predicate IsCancelled(r: MaintenanceRecord) { r.workOrderStatus == Cancelled }

  /**
   * `reduce((sum, m) => sum + m.totalCost, 0)`: the costs of every record,
   * whatever its status. Like the `reduce`, it starts at zero and adds the
   * costs from the left, the last record's cost to the sum of the others.
   * Costs are exact reals here.
   */
  function TotalCost(records: seq<MaintenanceRecord>): (total: real)
    ensures records == [] ==> total == 0.0
    ensures records != [] ==>
      total == TotalCost(records[..|records| - 1]) + records[|records| - 1].totalCost
  {
    if records == [] then 0.0
    else
      var rest := records[1..];
      assert rest != [] ==> records[..|records| - 1][1..] == rest[..|rest| - 1];
      assert rest == [] ==> records[..|records| - 1] == [];
      records[0].totalCost + TotalCost(rest)
  }

  /** The total is the cost of the records a filter keeps plus that of the rest. */
  lemma {:induction false} TotalCostSplit(records: seq<MaintenanceRecord>, p: MaintenanceRecord -> bool, q: MaintenanceRecord -> bool)
    requires forall r :: q(r) == !p(r)
    ensures TotalCost(Filter(records, p)) + TotalCost(Filter(records, q)) == TotalCost(records)
  {
    if records != [] {
      var r := records[0];
      TotalCostSplit(records[1..], p, q);
      TotalCostAppend(if p(r) then [r] else [], Filter(records[1..], p));
      TotalCostAppend(if q(r) then [r] else [], Filter(records[1..], q));
      assert [r][1..] == [];
    }
  }

  lemma {:induction false} TotalCostAppend(a: seq<MaintenanceRecord>, b: seq<MaintenanceRecord>)
    ensures TotalCost(a + b) == TotalCost(a) + TotalCost(b)
  {
    if a != [] {
      assert (a + b)[1..] == a[1..] + b;
      TotalCostAppend(a[1..], b);
    } else {
      assert a + b == b;
    }
  }

  /** Every record is in exactly one of the four status filters. */
  lemma {:induction false} StatusCountsPartition(records: seq<MaintenanceRecord>)
    ensures |Filter(records, IsScheduled)| + |Filter(records, IsInProgress)| + |Filter(records, IsCompleted)|
      + |Filter(records, IsCancelled)| == |records|
  {
    if records != [] {
      StatusCountsPartition(records[1..]);
    }
  }

  datatype MaintenanceStats = MaintenanceStats(scheduled: nat, inProgress: nat, completed: nat, totalCost: real)

  /**
   * The page's `stats`: each count is the number of records with that status;
   * the three counts leave out exactly the cancelled records, while the total
   * cost includes them.
   */
  function StatsOf(records: seq<MaintenanceRecord>): (s: MaintenanceStats)
    ensures s.scheduled == |Filter(records, IsScheduled)|
    ensures s.inProgress == |Filter(records, IsInProgress)|
    ensures s.completed == |Filter(records, IsCompleted)|
    ensures s.totalCost == TotalCost(records)
    ensures s.scheduled + s.inProgress + s.completed + |Filter(records, IsCancelled)| == |records|
    ensures s.scheduled + s.inProgress + s.completed <= |records|
    ensures s.totalCost == TotalCost(Filter(records, (r: MaintenanceRecord) => !IsCancelled(r)))
      + TotalCost(Filter(records, IsCancelled))
  {
    StatusCountsPartition(records);
    TotalCostSplit(records, (r: MaintenanceRecord) => !IsCancelled(r), IsCancelled);
    MaintenanceStats(
      |Filter(records, IsScheduled)|,
      |Filter(records, IsInProgress)|,
      |Filter(records, IsCompleted)|,
      TotalCost(records))
  }

  datatype Badge = Badge(variant: string, text: string)

  /** `getStatusBadge`: one badge per work-order status, each with its own text. */
  function GetStatusBadge(status: WorkOrderStatus): (badge: Badge)
    ensures badge.text == "Scheduled" <==> status == Scheduled
    ensures badge.text == "In Progress" <==> status == InProgress
    ensures badge.text == "Completed" <==> status == Completed
    ensures badge.text == "Cancelled" <==> status == Cancelled
    ensures badge.variant == "destructive" <==> status == Cancelled
    ensures badge.variant == "outline" <==> status == Completed
  {
    match status
    case Scheduled => Badge("secondary", "Scheduled")
    case InProgress => Badge("default", "In Progress")
    case Completed => Badge("outline", "Completed")
    case Cancelled => Badge("destructive", "Cancelled")
  }

  /** Different statuses get different badge texts, and different variants. */
  lemma StatusBadgesDistinct(a: WorkOrderStatus, b: WorkOrderStatus)
    requires a != b
    ensures GetStatusBadge(a).text != GetStatusBadge(b).text
    ensures GetStatusBadge(a).variant != GetStatusBadge(b).variant
  {
  }
}
