/**
 * The equipment detail page: the lookup by the route's id with its not-found
 * view, the predictions and maintenance history of that equipment, the
 * criticality label, the high-risk count and the per-prediction styles.
 */
module EquipmentDetail {
  import opened Optional
  import opened Types
  import opened Seqs
  import opened PredictiveAlerts
  import opened AlertsPage

  function ForPrediction(id: string): FailurePrediction -> bool {
    (p: FailurePrediction) => p.equipmentId == id
  }

  function ForRecord(id: string): MaintenanceRecord -> bool {
    (m: MaintenanceRecord) => m.equipmentId == id
  }

  /** What the page renders: the not-found view, or the page of one equipment. */
  datatype DetailView =
    | NotFound
    | Found(equipment: Equipment, predictions: seq<FailurePrediction>, history: seq<MaintenanceRecord>)

  /**
   * The page for the route id: not found exactly when no equipment has the id;
   * otherwise the first equipment with it, and exactly the predictions and
   * records of that id, in list order.
   */
  function DetailOf(eqs: seq<Equipment>, preds: seq<FailurePrediction>, records: seq<MaintenanceRecord>,
                    id: string): (v: DetailView)
    ensures v.NotFound? <==> forall e :: e in eqs ==> e.id != id
    ensures v.Found? ==> v.equipment in eqs && v.equipment.id == id
    ensures v.Found? ==> exists i :: 0 <= i < |eqs| && eqs[i] == v.equipment && forall j :: 0 <= j < i ==> eqs[j].id != id
    ensures v.Found? ==> forall p :: p in v.predictions <==> p in preds && p.equipmentId == id
    ensures v.Found? ==> forall m :: m in v.history <==> m in records && m.equipmentId == id
    ensures v.Found? ==> v.predictions == Filter(preds, ForPrediction(id)) && v.history == Filter(records, ForRecord(id))
  {
    match Find(eqs, HasId(id))
    case None => NotFound
    case Some(e) => Found(e, Filter(preds, ForPrediction(id)), Filter(records, ForRecord(id)))
  }

  /** The criticality label: High from 0.8, Medium from 0.5, Low below. */
  function CriticalityLabel(score: real): (text: string)
    ensures text == "High Priority" <==> score >= 0.8
    ensures text == "Medium Priority" <==> 0.5 <= score < 0.8
    ensures text == "Low Priority" <==> score < 0.5
  {
    if score >= 0.8 then "High Priority"
    else if score >= 0.5 then "Medium Priority"
    else "Low Priority"
  }

  /**
   * The "high risk" line: the predictions at 0.7 or above, never more than
   * the page lists.
   */
  function HighRiskCount(predictions: seq<FailurePrediction>): (n: nat)
    ensures n <= |predictions|
    ensures n == |Filter(predictions, IsHighRisk)|
  {
    |Filter(predictions, IsHighRisk)|
  }

  /** A prediction's icon colour: destructive exactly where its badge is. */
  function PredictionIconColor(p: FailurePrediction): (cls: string)
    ensures cls == "text-destructive" <==> AlertBadge(p) == "destructive"
    ensures cls == "text-warning" <==> AlertBadge(p) == "default"
  {
    if p.failureProbability >= 0.8 then "text-destructive" else "text-warning"
  }

  /**
   * Counted at 0.7 but styled at 0.8: a prediction of 0.75 counts as high
   * risk yet gets the warning styles.
   */
  lemma HighRiskNotAlwaysDestructive(p: FailurePrediction)
    requires p.failureProbability == 0.75
    ensures IsHighRisk(p) && AlertBadge(p) == "default" && PredictionIconColor(p) == "text-warning"
  {
  }
}
