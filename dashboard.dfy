/**
 * The dashboard page: the stat cards computed from the dashboard summary, the
 * critical-condition banner, and the equipment grid sorted by health.
 */
module Dashboard {
  import opened Optional
  import opened Types
  import opened Seqs
  import opened Formatters
  import Strings
  import EquipmentData

  datatype StatCard = StatCard(title: string, value: string, subtext: string, color: string)

  /** The Active Alerts card: it counts the critical equipment and mentions the warnings. */
  function ActiveAlertsCard(stats: DashboardStats): (card: StatCard)
    ensures card.title == "Active Alerts" && card.color == "text-warning"
    ensures Strings.IsDigits(card.value) && Strings.DecimalValue(card.value) == stats.critical
    ensures |card.subtext| > 9 && card.subtext[|card.subtext| - 9..] == " warnings"
    ensures var n := card.subtext[..|card.subtext| - 9];
      Strings.IsDigits(n) && Strings.DecimalValue(n) == stats.warning
  {
    Strings.DecimalRoundTrip(stats.critical);
    Strings.DecimalRoundTrip(stats.warning);
    var w := Strings.NatToDecimal(stats.warning);
    assert (w + " warnings")[..|w|] == w;
    StatCard("Active Alerts", Strings.NatToDecimal(stats.critical), w + " warnings", "text-warning")
  }

  /** The critical banner: shown, with the critical count, exactly when that count is positive. */
  function CriticalBanner(stats: DashboardStats): (shown: Option<nat>)
    ensures shown.Some? <==> stats.critical > 0
    ensures shown.Some? ==> shown.value == stats.critical
  {
    if stats.critical > 0 then Some(stats.critical) else None
  }

  /** The grid comparator `a.currentHealthScore - b.currentHealthScore`, as "not after". */
  function ByHealthAsc(a: Equipment, b: Equipment): bool {
    a.currentHealthScore <= b.currentHealthScore
  }

  lemma ByHealthAscTotalPreorder()
    ensures TotalPreorder(ByHealthAsc)
  {
  }

  /**
   * The grid order is the least healthy first, and the grid holds exactly the
   * hook's equipment.
   */
  lemma GridOrder(eqs: seq<Equipment>)
    ensures SortedBy(InsertionSort(eqs, ByHealthAsc), ByHealthAsc)
    ensures forall i, j :: 0 <= i < j < |eqs| ==>
      InsertionSort(eqs, ByHealthAsc)[i].currentHealthScore <= InsertionSort(eqs, ByHealthAsc)[j].currentHealthScore
    ensures multiset(InsertionSort(eqs, ByHealthAsc)) == multiset(eqs)
  {
    ByHealthAscTotalPreorder();
    InsertionSortSorted(eqs, ByHealthAsc);
    InsertionSortPermutes(eqs, ByHealthAsc);
  }

  /**
   * `equipment.sort(...)` as the page writes it: the hook's state array is
   * sorted in place. While that array is still `mockEquipment` itself (before
   * the first health tick, and after every refresh) the module-level mock list
   * is reordered with it.
   */
  method SortEquipmentGrid(store: EquipmentData.EquipmentStore)
    modifies store.equipment
    ensures store.equipment[..] == InsertionSort(old(store.equipment[..]), ByHealthAsc)
    ensures store.mock == store.equipment ==> store.mock[..] == InsertionSort(old(store.mock[..]), ByHealthAsc)
  {
    SortInPlace(store.equipment, ByHealthAsc);
  }

  function SampleEquipment(id: string, health: real): Equipment {
    Equipment(id, id, id, Pump, "", "", "", "", Location(0.0, 0.0, ""), 0, 0.5,
      Operational, health, 0, 0, 0.0, [], None)
  }

  /**
   * On the page's first render the hook still hands out `mockEquipment`, so
   * sorting the grid rewrites the shared mock list: a healthy unit listed
   * before a critical one is moved behind it.
   */
  method FirstRenderReordersMock() returns (before: seq<Equipment>, after: seq<Equipment>)
    ensures |before| == |after| == 2
    ensures before[0] == after[1] && before[1] == after[0] && before != after
  {
    var healthy := SampleEquipment("eq-a", 0.9);
    var critical := SampleEquipment("eq-b", 0.3);
    var mock := new Equipment[2](i requires 0 <= i < 2 => if i == 0 then healthy else critical);
    before := mock[..];
    assert before == [healthy, critical];
    var store := new EquipmentData.EquipmentStore(mock);
    SortEquipmentGrid(store);
    after := mock[..];
    assert [healthy, critical][..1] == [healthy];
    assert [healthy][..0] == [];
    assert InsertionSort([healthy], ByHealthAsc) == [healthy];
    assert !ByHealthAsc(healthy, critical);
    assert Insert([healthy], critical, ByHealthAsc) == [critical, healthy];
    assert after == [critical, healthy];
  }

  /**
   * The grid as evidently intended: the same order, computed on a copy, so
   * neither the hook's state nor the mock list is reordered.
   */
  method SortedGrid(store: EquipmentData.EquipmentStore) returns (grid: seq<Equipment>)
    ensures grid == InsertionSort(store.equipment[..], ByHealthAsc)
    ensures SortedBy(grid, ByHealthAsc) && multiset(grid) == multiset(store.equipment[..])
  {
    grid := SortedCopy(store.equipment[..], ByHealthAsc);
    GridOrder(store.equipment[..]);
  }

  /** The health-trend chart on the dashboard plots the first three units of the grid. */
  function TrendChartIds(grid: seq<Equipment>): (ids: seq<string>)
    ensures |ids| == Min(3, |grid|)
    ensures forall i :: 0 <= i < |ids| ==> ids[i] == grid[i].id
  {
    var head := SliceTo(grid, 3);
    seq(|head|, i requires 0 <= i < |head| => head[i].id)
  }
}
