/**
 * The equipment inventory page: the search, status, type and health filters
 * applied one after another, the sort by the chosen key and order, the header
 * counts and the health bar colour.
 */
module EquipmentPage {
  import opened Optional
  import opened Types
  import opened Seqs
  import opened Formatters
  import opened Strings

  // ---------------------------------------------------------------------------
  // Filters
  // ---------------------------------------------------------------------------

  /**
   * The search test: an empty query keeps everything; otherwise the lower-cased
   * name, equipment code or factory id must contain the lower-cased query.
   */
  predicate MatchesSearch(e: Equipment, query: string)
    ensures query == "" ==> MatchesSearch(e, query)
    ensures query != "" ==> (MatchesSearch(e, query) <==>
      (Occurs(ToLower(e.name), ToLower(query))
       || Occurs(ToLower(e.equipmentId), ToLower(query))
       || Occurs(ToLower(e.factoryId), ToLower(query))))
  {
    var q := ToLower(query);
    IncludesIffOccurs(ToLower(e.name), q);
    IncludesIffOccurs(ToLower(e.equipmentId), q);
    IncludesIffOccurs(ToLower(e.factoryId), q);
    query == "" || Includes(ToLower(e.name), q) || Includes(ToLower(e.equipmentId), q) || Includes(ToLower(e.factoryId), q)
  }

  /**
   * The status select: "all" keeps everything, a status's name the items with
   * that status, and any other value nothing.
   */
  predicate MatchesStatus(e: Equipment, statusFilter: string)
    ensures statusFilter == "all" ==> MatchesStatus(e, statusFilter)
    ensures statusFilter != "all" ==> (MatchesStatus(e, statusFilter) <==> ParseStatus(statusFilter) == Some(e.status))
  {
    statusFilter == "all" || StatusName(e.status) == statusFilter
  }

  /** The type select, the same way over the equipment type. */
  predicate MatchesType(e: Equipment, typeFilter: string)
    ensures typeFilter == "all" ==> MatchesType(e, typeFilter)
    ensures typeFilter != "all" ==> (MatchesType(e, typeFilter) <==> ParseEquipmentType(typeFilter) == Some(e.equipmentType))
  {
    typeFilter == "all" || EquipmentTypeName(e.equipmentType) == typeFilter
  }

  /** The page's three score tests, also used for the header counts. */
  predicate CriticalScore(e: Equipment) { e.currentHealthScore < 0.6 }
  predicate WarningScore(e: Equipment) { e.currentHealthScore >= 0.6 && e.currentHealthScore < 0.8 }
  predicate HealthyScore(e: Equipment) { e.currentHealthScore >= 0.8 }

  /**
   * The health select keeps exactly the items whose health label it names. A
   * value other than "critical", "warning" and "healthy" (including "all")
   * keeps everything.
   */
  predicate MatchesHealth(e: Equipment, healthFilter: string)
    ensures healthFilter == "critical" ==> (MatchesHealth(e, healthFilter) <==> GetHealthLabel(e.currentHealthScore) == "Critical")
    ensures healthFilter == "warning" ==> (MatchesHealth(e, healthFilter) <==> GetHealthLabel(e.currentHealthScore) == "Warning")
    ensures healthFilter == "healthy" ==> (MatchesHealth(e, healthFilter) <==> GetHealthLabel(e.currentHealthScore) == "Healthy")
    ensures healthFilter !in {"critical", "warning", "healthy"} ==> MatchesHealth(e, healthFilter)
  {
    if healthFilter == "critical" then CriticalScore(e)
    else if healthFilter == "warning" then WarningScore(e)
    else if healthFilter == "healthy" then HealthyScore(e)
    else true
  }

  /** The four filter settings of the page. */
  datatype Filters = Filters(query: string, status: string, equipmentType: string, health: string)

  /** An item survives the filters when it passes all four. */
  predicate Selected(e: Equipment, f: Filters) {
    MatchesSearch(e, f.query) && MatchesStatus(e, f.status) && MatchesType(e, f.equipmentType)
    && MatchesHealth(e, f.health)
  }

  // ---------------------------------------------------------------------------
  // Sort
  // ---------------------------------------------------------------------------

  datatype SortKey = ByHealth | ByName | ByCriticality

  datatype SortOrder = Asc | Desc

  /** The ascending comparison of the chosen key, as "not after". */
  predicate KeyLe(key: SortKey, a: Equipment, b: Equipment) {
    match key
    case ByHealth => a.currentHealthScore <= b.currentHealthScore
    case ByName => StrLe(a.name, b.name)
    case ByCriticality => a.criticalityScore <= b.criticalityScore
  }

  /**
   * The page's comparator: the key's comparison for "asc", its negation for
   * "desc", as "not after". Every key and order gives a consistent
   * comparator, so the sort is well defined.
   */
  function OrderLe(key: SortKey, order: SortOrder): (le: (Equipment, Equipment) -> bool)
    ensures TotalPreorder(le)
  {
    StrLePreorder();
    if order == Asc then (a, b) => KeyLe(key, a, b) else (a, b) => KeyLe(key, b, a)
  }

  /** The filter tests as function values, one per setting, and their running conjunctions. */
  function SearchTest(query: string): Equipment -> bool { (e: Equipment) => MatchesSearch(e, query) }
  function StatusTest(statusFilter: string): Equipment -> bool { (e: Equipment) => MatchesStatus(e, statusFilter) }
  function TypeTest(typeFilter: string): Equipment -> bool { (e: Equipment) => MatchesType(e, typeFilter) }
  function HealthTest(healthFilter: string): Equipment -> bool { (e: Equipment) => MatchesHealth(e, healthFilter) }
  function UpToStatus(f: Filters): Equipment -> bool { (e: Equipment) => MatchesSearch(e, f.query) && MatchesStatus(e, f.status) }
  function UpToType(f: Filters): Equipment -> bool { (e: Equipment) => UpToStatus(f)(e) && MatchesType(e, f.equipmentType) }
  function Keep(f: Filters): Equipment -> bool { (e: Equipment) => Selected(e, f) }

  /**
   * The list the page renders: exactly the equipment that passes every filter,
   * each item at most as often as in the input, ordered by the key
   * (non-decreasing for "asc", non-increasing for "desc").
   */
  function FilteredEquipment(eqs: seq<Equipment>, f: Filters, key: SortKey, order: SortOrder): (r: seq<Equipment>)
    ensures forall e :: e in r <==> e in eqs && Selected(e, f)
    ensures multiset(r) <= multiset(eqs)
    ensures forall i, j :: 0 <= i < j < |r| ==> if order == Asc then KeyLe(key, r[i], r[j]) else KeyLe(key, r[j], r[i])
  {
    var selected := Filter(eqs, Keep(f));
    InsertionSortMembers(selected, OrderLe(key, order));
    FilterSubMultiset(eqs, Keep(f));
    InsertionSortSorted(selected, OrderLe(key, order));
    InsertionSort(selected, OrderLe(key, order))
  }

  /** Items that tie on the chosen key: either may precede the other. */
  function SameKey(key: SortKey, order: SortOrder, k: Equipment): Equipment -> bool {
    (e: Equipment) => OrderLe(key, order)(e, k) && OrderLe(key, order)(k, e)
  }

  /**
   * The sort is stable: the selected items that tie with `k` on the key keep
   * their list order.
   */
  lemma FilteredEquipmentStable(eqs: seq<Equipment>, f: Filters, key: SortKey, order: SortOrder, k: Equipment)
    ensures Filter(FilteredEquipment(eqs, f, key, order), SameKey(key, order, k))
         == Filter(Filter(eqs, Keep(f)), SameKey(key, order, k))
  {
    InsertionSortStable(Filter(eqs, Keep(f)), OrderLe(key, order), SameKey(key, order, k));
  }

  /** With an empty query and every select at "all" the list is a reordering of the input. */
  lemma NoFilterKeepsEverything(eqs: seq<Equipment>, key: SortKey, order: SortOrder)
    ensures multiset(FilteredEquipment(eqs, Filters("", "all", "all", "all"), key, order)) == multiset(eqs)
  {
    FilterAll(eqs, Keep(Filters("", "all", "all", "all")));
    InsertionSortPermutes(eqs, OrderLe(key, order));
  }

  /**
   * The health block of the pipeline: the critical, warning or healthy
   * filter when one is chosen; any other value keeps the list as it is.
   */
  method ApplyHealthFilter(filtered: seq<Equipment>, health: string) returns (r: seq<Equipment>)
    ensures r == Filter(filtered, HealthTest(health))
  {
    r := filtered;
    if health != "all" {
      if health == "critical" {
        r := Filter(filtered, CriticalScore);
        FilterExtensional(filtered, CriticalScore, HealthTest(health));
      } else if health == "warning" {
        r := Filter(filtered, WarningScore);
        FilterExtensional(filtered, WarningScore, HealthTest(health));
      } else if health == "healthy" {
        r := Filter(filtered, HealthyScore);
        FilterExtensional(filtered, HealthyScore, HealthTest(health));
      }
    }
    if health != "critical" && health != "warning" && health != "healthy" {
      FilterAll(filtered, HealthTest(health));
    }
  }

  /** The search and status blocks of the pipeline, each applied only when set. */
  method ApplySearchAndStatus(eqs: seq<Equipment>, f: Filters) returns (filtered: seq<Equipment>)
    ensures filtered == Filter(eqs, UpToStatus(f))
  {
    filtered := eqs;
    if f.query != "" {
      filtered := Filter(filtered, SearchTest(f.query));
    } else {
      FilterAll(eqs, SearchTest(f.query));
    }
    if f.status != "all" {
      filtered := Filter(filtered, StatusTest(f.status));
    } else {
      FilterAll(filtered, StatusTest(f.status));
    }
    FilterFilter(eqs, SearchTest(f.query), StatusTest(f.status), UpToStatus(f));
  }

  /** The type block of the pipeline, applied only when set. */
  method ApplyType(filtered: seq<Equipment>, typeFilter: string) returns (r: seq<Equipment>)
    ensures r == Filter(filtered, TypeTest(typeFilter))
  {
    r := filtered;
    if typeFilter != "all" {
      r := Filter(filtered, TypeTest(typeFilter));
    } else {
      FilterAll(filtered, TypeTest(typeFilter));
    }
  }

  /**
   * The page's `useMemo`: a copy of the list is narrowed filter by filter, each
   * filter applied only when its setting asks for it, and then sorted in place.
   */
  method ComputeFilteredEquipment(eqs: seq<Equipment>, f: Filters, key: SortKey, order: SortOrder)
    returns (r: seq<Equipment>)
    ensures r == FilteredEquipment(eqs, f, key, order)
  {
    var filtered := ApplySearchAndStatus(eqs, f);
    filtered := ApplyType(filtered, f.equipmentType);
    FilterFilter(eqs, UpToStatus(f), TypeTest(f.equipmentType), UpToType(f));
    filtered := ApplyHealthFilter(filtered, f.health);
    FilterFilter(eqs, UpToType(f), HealthTest(f.health), Keep(f));
    r := SortedCopy(filtered, OrderLe(key, order));
  }

  // ---------------------------------------------------------------------------
  // Header counts and bar colour
  // ---------------------------------------------------------------------------

  datatype InventoryStats = InventoryStats(total: nat, healthy: nat, warning: nat, critical: nat)

  /** Every score falls in exactly one of the three count filters. */
  lemma {:induction false} HealthBucketsPartition(s: seq<Equipment>)
    ensures |Filter(s, HealthyScore)| + |Filter(s, WarningScore)| + |Filter(s, CriticalScore)| == |s|
  {
    if s != [] {
      HealthBucketsPartition(s[1..]);
    }
  }

  /** An item's health label, as a test on the item. */
  function LabelTest(text: string): Equipment -> bool { (e: Equipment) => GetHealthLabel(e.currentHealthScore) == text }

  /**
   * The page's `stats`: each count is the number of items with that health
   * label, and the three counts add up to the total.
   */
  function StatsOf(eqs: seq<Equipment>): (s: InventoryStats)
    ensures s.total == |eqs|
    ensures s.healthy + s.warning + s.critical == s.total
    ensures s.healthy == |Filter(eqs, LabelTest("Healthy"))|
    ensures s.warning == |Filter(eqs, LabelTest("Warning"))|
    ensures s.critical == |Filter(eqs, LabelTest("Critical"))|
  {
    HealthBucketsPartition(eqs);
    FilterExtensional(eqs, HealthyScore, LabelTest("Healthy"));
    FilterExtensional(eqs, WarningScore, LabelTest("Warning"));
    FilterExtensional(eqs, CriticalScore, LabelTest("Critical"));
    InventoryStats(|eqs|, |Filter(eqs, HealthyScore)|, |Filter(eqs, WarningScore)|, |Filter(eqs, CriticalScore)|)
  }
}
