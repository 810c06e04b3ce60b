/**
 * The alerts page: the active predictions split into acknowledged and pending,
 * the high-risk subset, the header counts, and the list of active predictions
 * sorted in place by failure probability.
 */
module AlertsPage {
  import opened Types
  import opened Seqs
  import opened PredictiveAlerts

  predicate IsAcknowledged(p: FailurePrediction) { p.isAcknowledged }
  predicate IsPending(p: FailurePrediction) { !p.isAcknowledged }

  /** The high-risk threshold of this page is 0.7, not the 0.8 of the styles. */
  predicate IsHighRisk(p: FailurePrediction) { p.failureProbability >= 0.7 }

  /** `activeAlerts`: the active predictions, in list order. */
  function ActiveAlerts(preds: seq<FailurePrediction>): (r: seq<FailurePrediction>)
    ensures forall p :: p in r <==> p in preds && p.predictionStatus == Active
  {
    Filter(preds, IsActive)
  }

  /** The four numbers of the header and the stat cards. */
  datatype AlertStats = AlertStats(active: nat, highRisk: nat, acknowledged: nat, pending: nat)

  /**
   * The page's counts: acknowledged and pending split the active predictions
   * between them, and the high-risk ones are some of the active ones.
   */
  function AlertStatsOf(preds: seq<FailurePrediction>): (s: AlertStats)
    ensures s.active == |ActiveAlerts(preds)|
    ensures s.highRisk == |Filter(ActiveAlerts(preds), IsHighRisk)|
    ensures s.acknowledged == |Filter(ActiveAlerts(preds), IsAcknowledged)|
    ensures s.pending == |Filter(ActiveAlerts(preds), IsPending)|
    ensures s.acknowledged + s.pending == s.active
    ensures s.highRisk <= s.active
  {
    var active := ActiveAlerts(preds);
    FilterPartition(active, IsAcknowledged, IsPending);
    FilterMonotone(active, IsHighRisk, (p: FailurePrediction) => true);
    FilterAll(active, (p: FailurePrediction) => true);
    AlertStats(
      |active|,
      |Filter(active, IsHighRisk)|,
      |Filter(active, IsAcknowledged)|,
      |Filter(active, IsPending)|)
  }

  /**
   * Acknowledged and pending alerts share no prediction, and together they
   * are the active alerts; the high-risk alerts are the active ones at 0.7 or
   * above.
   */
  lemma AlertPartitions(preds: seq<FailurePrediction>)
    ensures var active := ActiveAlerts(preds);
      && multiset(Filter(active, IsAcknowledged)) + multiset(Filter(active, IsPending)) == multiset(active)
      && (forall p :: !(p in Filter(active, IsAcknowledged) && p in Filter(active, IsPending)))
      && (forall p :: p in Filter(active, IsHighRisk) <==> p in active && p.failureProbability >= 0.7)
  {
    FilterPartition(ActiveAlerts(preds), IsAcknowledged, IsPending);
  }

  /** `activeAlerts.sort(...)`: the page's own filtered array is reordered in place. */
  method SortActiveAlerts(activeAlerts: array<FailurePrediction>)
    modifies activeAlerts
    ensures activeAlerts[..] == InsertionSort(old(activeAlerts[..]), ByProbabilityDesc)
  {
    SortInPlace(activeAlerts, ByProbabilityDesc);
  }

  /**
   * The rendered list: the active predictions are collected into a fresh
   * array, which is then sorted in place. The result is the full ranking.
   */
  method RenderedAlerts(preds: seq<FailurePrediction>) returns (r: seq<FailurePrediction>)
    ensures r == ActiveByRisk(preds)
    ensures forall i, j :: 0 <= i < j < |r| ==> r[i].failureProbability >= r[j].failureProbability
    ensures multiset(r) == multiset(ActiveAlerts(preds))
  {
    var active := ActiveAlerts(preds);
    var activeAlerts := new FailurePrediction[|active|](i requires 0 <= i < |active| => active[i]);
    assert activeAlerts[..] == active;
    SortActiveAlerts(activeAlerts);
    r := activeAlerts[..];
  }

  /** The card's border, icon and badge are destructive exactly at 0.8 and above. */
  function AlertBadge(p: FailurePrediction): (variant: string)
    ensures variant == "destructive" <==> RiskOf(p.failureProbability) == HighRisk
    ensures variant == "default" <==> RiskOf(p.failureProbability) != HighRisk
  {
    if p.failureProbability >= 0.8 then "destructive" else "default"
  }
}
