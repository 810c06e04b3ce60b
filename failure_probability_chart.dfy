/**
 * The failure-probability bar chart: the same ranking and cut as the alerts
 * panel, each prediction turned into a row with a short label, percentages
 * and the full name, and the bar colour on the percent scale.
 */
module FailureProbabilityChart {
  import opened Optional
  import opened Types
  import opened Seqs
  import opened Strings
  import opened PredictiveAlerts

  /**
   * `name.split(' ').slice(0, 2).join(' ')`: the first two space-separated
   * words. The short label is a prefix of the name, is the whole name when
   * the name has at most one space, and is empty only when the name is.
   */
  function ShortName(name: string): (short: string)
    ensures |short| <= |name| && short == name[..|short|]
    ensures |Split(name)| <= 2 ==> short == name
    ensures short == "" <==> name == ""
  {
    var words := Split(name);
    var k := if |words| < 2 then |words| else 2;
    var short := Join(SliceTo(words, 2));
    assert SliceTo(words, 2) == words[..k];
    JoinPrefix(words, k);
    JoinSplit(name);
    if k == 2 then
      assert words[..2][1..] == [words[1]];
      assert short == words[0] + " " + words[1];
      short
    else
      assert words[..k] == words;
      short
  }

  /** One bar of the chart. */
  datatype ChartRow = ChartRow(name: string, probability: real, confidence: real, fullName: string)

  /**
   * The row of one prediction. Its label is the short name of the matching
   * equipment, or the equipment id when there is no match or the short name
   * is empty; the percentages are the fractions times 100.
   */
  function RowOf(eqs: seq<Equipment>, p: FailurePrediction): (row: ChartRow)
    ensures row.probability == p.failureProbability * 100.0
    ensures row.confidence == p.confidenceScore * 100.0
    ensures row.fullName == EquipmentName(eqs, p.equipmentId)
    ensures (forall e :: e in eqs ==> e.id != p.equipmentId) ==> row.name == p.equipmentId
    ensures row.name == p.equipmentId
      || exists e :: e in eqs && e.id == p.equipmentId && row.name == ShortName(e.name) && row.name != ""
  {
    var short :=
      match Find(eqs, HasId(p.equipmentId))
      case Some(e) => if ShortName(e.name) != "" then ShortName(e.name) else p.equipmentId
      case None => p.equipmentId;
    ChartRow(short, p.failureProbability * 100.0, p.confidenceScore * 100.0, EquipmentName(eqs, p.equipmentId))
  }

  /** A row is labelled with the id exactly when the lookup fails or finds an empty name. */
  lemma RowLabelFallback(eqs: seq<Equipment>, p: FailurePrediction)
    ensures var m := Find(eqs, HasId(p.equipmentId));
      (m.None? || m.value.name == "") ==> RowOf(eqs, p).name == p.equipmentId
    ensures var m := Find(eqs, HasId(p.equipmentId));
      m.Some? && m.value.name != "" ==> RowOf(eqs, p).name == ShortName(m.value.name)
  {
  }

  /**
   * `data`: one row per entry of the alerts panel's ranking cut at `limit`,
   * in that order.
   */
  function ChartData(preds: seq<FailurePrediction>, eqs: seq<Equipment>, limit: int): (rows: seq<ChartRow>)
    ensures |rows| == |TopActive(preds, limit)|
    ensures forall i :: 0 <= i < |rows| ==> rows[i] == RowOf(eqs, TopActive(preds, limit)[i])
  {
    var top := TopActive(preds, limit);
    seq(|top|, i requires 0 <= i < |top| => RowOf(eqs, top[i]))
  }

  /** Every bar belongs to an active prediction and the bars run from the longest down. */
  lemma ChartDataOrder(preds: seq<FailurePrediction>, eqs: seq<Equipment>, limit: int)
    ensures var rows := ChartData(preds, eqs, limit);
      forall i, j :: 0 <= i < j < |rows| ==> rows[i].probability >= rows[j].probability
  {
    var top := TopActive(preds, limit);
    forall i, j | 0 <= i < j < |top|
      ensures top[i].failureProbability * 100.0 >= top[j].failureProbability * 100.0
    {
    }
  }

  /** `getBarColor` on the percent scale: the panel's risk levels at 80 and 60. */
  function GetBarColor(percent: real): (color: string)
    ensures color == "hsl(var(--destructive))" <==> RiskOf(percent / 100.0) == HighRisk
    ensures color == "hsl(var(--warning))" <==> RiskOf(percent / 100.0) == ElevatedRisk
    ensures color == "hsl(var(--primary))" <==> RiskOf(percent / 100.0) == LowRisk
  {
    if percent >= 80.0 then "hsl(var(--destructive))"
    else if percent >= 60.0 then "hsl(var(--warning))"
    else "hsl(var(--primary))"
  }

  /** A bar is coloured by the risk level of its prediction. */
  lemma BarColorOfRow(eqs: seq<Equipment>, p: FailurePrediction)
    ensures GetBarColor(RowOf(eqs, p).probability) == "hsl(var(--destructive))" <==> RiskOf(p.failureProbability) == HighRisk
  {
    assert RowOf(eqs, p).probability / 100.0 == p.failureProbability;
  }
}
