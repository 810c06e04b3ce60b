/**
 * The predictive-alerts panel: the active predictions ranked by failure
 * probability and cut to the first `maxAlerts`, the equipment-name lookup
 * with its fallback to the raw id, and the two priority styles.
 */
module PredictiveAlerts {
  import opened Optional
  import opened Types
  import opened Seqs

  predicate IsActive(p: FailurePrediction) { p.predictionStatus == Active }

  /** The ranking comparator `b.failureProbability - a.failureProbability`, as "not after". */
  predicate ByProbabilityDesc(a: FailurePrediction, b: FailurePrediction) {
    a.failureProbability >= b.failureProbability
  }

  lemma ByProbabilityDescTotalPreorder()
    ensures TotalPreorder(ByProbabilityDesc)
  {
  }

  /**
   * All active predictions, the most probable failure first: every active
   * prediction exactly as often as the list holds it, nothing else, in
   * non-increasing order of failure probability.
   */
  function ActiveByRisk(preds: seq<FailurePrediction>): (r: seq<FailurePrediction>)
    ensures multiset(r) == multiset(Filter(preds, IsActive))
    ensures forall p :: p in r <==> p in preds && IsActive(p)
    ensures forall i, j :: 0 <= i < j < |r| ==> r[i].failureProbability >= r[j].failureProbability
  {
    InsertionSortMembers(Filter(preds, IsActive), ByProbabilityDesc);
    ByProbabilityDescTotalPreorder();
    InsertionSortSorted(Filter(preds, IsActive), ByProbabilityDesc);
    InsertionSort(Filter(preds, IsActive), ByProbabilityDesc)
  }

  /** Predictions with the same failure probability as `q`. */
  function SameProbability(q: FailurePrediction): FailurePrediction -> bool {
    (p: FailurePrediction) => p.failureProbability == q.failureProbability
  }

  /** The ranking is stable: active predictions of equal probability keep their list order. */
  lemma ActiveByRiskStable(preds: seq<FailurePrediction>, q: FailurePrediction)
    ensures Filter(ActiveByRisk(preds), SameProbability(q)) == Filter(Filter(preds, IsActive), SameProbability(q))
  {
    InsertionSortStable(Filter(preds, IsActive), ByProbabilityDesc, SameProbability(q));
  }

  /** The number of active predictions. */
  function ActiveCount(preds: seq<FailurePrediction>): nat {
    |Filter(preds, IsActive)|
  }

  /**
   * `sortedPredictions`: the first `maxAlerts` entries of the ranking (a
   * negative `maxAlerts` counting from the end, as `slice` does). Every entry
   * is active, the order is by non-increasing probability, and the list is
   * as long as the cut allows.
   */
  function TopActive(preds: seq<FailurePrediction>, maxAlerts: int): (r: seq<FailurePrediction>)
    ensures |r| == if maxAlerts >= 0 then Min(maxAlerts, ActiveCount(preds)) else Max(0, ActiveCount(preds) + maxAlerts)
    ensures r == ActiveByRisk(preds)[..|r|]
    ensures forall p :: p in r ==> p in preds && IsActive(p)
    ensures forall i, j :: 0 <= i < j < |r| ==> r[i].failureProbability >= r[j].failureProbability
  {
    SliceTo(ActiveByRisk(preds), maxAlerts)
  }

  /** A cut of at least the number of active predictions shows them all. */
  lemma TopActiveAll(preds: seq<FailurePrediction>, maxAlerts: int)
    requires maxAlerts >= ActiveCount(preds)
    ensures TopActive(preds, maxAlerts) == ActiveByRisk(preds)
  {
  }

  /**
   * The panel's `useMemo` over the module-level prediction array: the array
   * is spread into a copy before it is filtered and sorted, so the shared
   * array keeps its order.
   */
  method SortedPredictions(mockPredictions: array<FailurePrediction>, maxAlerts: int)
    returns (r: seq<FailurePrediction>)
    ensures r == TopActive(mockPredictions[..], maxAlerts)
  {
    var copy := mockPredictions[..];
    var ranked := SortedCopy(Filter(copy, IsActive), ByProbabilityDesc);
    r := SliceTo(ranked, maxAlerts);
  }

  /** The test `e => e.id === equipmentId`. */
  function HasId(id: string): Equipment -> bool { (e: Equipment) => e.id == id }

  /**
   * `getEquipmentName`: the name of the first equipment with that id; the id
   * itself when no equipment has it or the first match has an empty name.
   */
  function EquipmentName(eqs: seq<Equipment>, id: string): (name: string)
    ensures forall i :: 0 <= i < |eqs| && eqs[i].id == id && (forall j :: 0 <= j < i ==> eqs[j].id != id) ==>
      name == if eqs[i].name != "" then eqs[i].name else id
    ensures (forall e :: e in eqs ==> e.id != id) ==> name == id
  {
    match Find(eqs, HasId(id))
    case Some(e) => if e.name != "" then e.name else id
    case None => id
  }

  /** The three risk levels a failure probability falls in. */
  datatype Risk = HighRisk | ElevatedRisk | LowRisk

  /** The reference classification: 0.8 and above is high, from 0.6 up to 0.8 elevated. */
  function RiskOf(probability: real): (r: Risk)
    ensures r == HighRisk <==> probability >= 0.8
    ensures r == ElevatedRisk <==> 0.6 <= probability < 0.8
    ensures r == LowRisk <==> probability < 0.6
  {
    if probability >= 0.8 then HighRisk
    else if probability >= 0.6 then ElevatedRisk
    else LowRisk
  }

  /** `getPriorityColor`: the badge variant of each risk level. */
  function GetPriorityColor(probability: real): (variant: string)
    ensures variant == "destructive" <==> RiskOf(probability) == HighRisk
    ensures variant == "default" <==> RiskOf(probability) == ElevatedRisk
    ensures variant == "secondary" <==> RiskOf(probability) == LowRisk
  {
    if probability >= 0.8 then "destructive"
    else if probability >= 0.6 then "default"
    else "secondary"
  }

  /** `getPriorityBg`: the card style, in step with the badge. */
  function GetPriorityBg(probability: real): (style: string)
    ensures style == "bg-destructive/10 border-destructive/30" <==> GetPriorityColor(probability) == "destructive"
    ensures style == "bg-warning/10 border-warning/30" <==> GetPriorityColor(probability) == "default"
    ensures style == "bg-secondary/50 border-border" <==> GetPriorityColor(probability) == "secondary"
  {
    if probability >= 0.8 then "bg-destructive/10 border-destructive/30"
    else if probability >= 0.6 then "bg-warning/10 border-warning/30"
    else "bg-secondary/50 border-border"
  }
}
