/**
 * The landing page's equipment card: health on a 0 to 100 scale, a bar colour
 * and an icon colour bucketed at 80 and 60, a status badge chosen by the status
 * text alone, and the health shown as a rounded percentage.
 */
module EquipmentCard {
  import Formatters

  /** The card's own equipment record; health is on a 0 to 100 scale. */
  datatype DemoEquipment = DemoEquipment(
    id: int,
    name: string,
    health: real,
    status: string,
    equipmentType: string,
    lastMaintenance: string)

  /**
   * `getHealthColor` of the bar: the thresholds of the dashboard's health
   * categories, on the percent scale.
   */
  function GetHealthColor(health: real): (color: string)
    ensures color == "bg-success" <==> Formatters.HealthCategoryOf(health / 100.0) == Formatters.Healthy
    ensures color == "bg-warning" <==> Formatters.HealthCategoryOf(health / 100.0) == Formatters.Warning
    ensures color == "bg-destructive" <==> Formatters.HealthCategoryOf(health / 100.0) == Formatters.Critical
  {
    if health >= 80.0 then "bg-success"
    else if health >= 60.0 then "bg-warning"
    else "bg-destructive"
  }

  /** `getIconColor`: the text colour of the same bucket as the bar. */
  function GetIconColor(health: real): (color: string)
    ensures color == "text-success" <==> GetHealthColor(health) == "bg-success"
    ensures color == "text-warning" <==> GetHealthColor(health) == "bg-warning"
    ensures color == "text-destructive" <==> GetHealthColor(health) == "bg-destructive"
  {
    if health >= 80.0 then "text-success"
    else if health >= 60.0 then "text-warning"
    else "text-destructive"
  }

  /** The badge of a card: its text and style. */
  datatype CardBadge = CardBadge(text: string, style: string)

  /**
   * `getStatusBadge`: "critical" and "warning" get their own badge; any other
   * status text reads Healthy.
   */
  function GetStatusBadge(status: string): (b: CardBadge)
    ensures b.text == "Critical" <==> status == "critical"
    ensures b.text == "Warning" <==> status == "warning"
    ensures b.text == "Healthy" <==> status != "critical" && status != "warning"
  {
    if status == "critical" then CardBadge("Critical", "destructive")
    else if status == "warning" then CardBadge("Warning", "bg-warning text-warning-foreground")
    else CardBadge("Healthy", "bg-success text-success-foreground")
  }

  /**
   * The badge follows the status and the colours follow the health, with
   * nothing tying the two: the first landing card, "Press #3" at 92 with
   * status "critical", shows a Critical badge in the success colour.
   */
  lemma BadgeIndependentOfHealth()
    ensures var press := DemoEquipment(1, "Press #3", 92.0, "critical", "Press", "2 days ago");
      GetStatusBadge(press.status).text == "Critical" && GetHealthColor(press.health) == "bg-success"
  {
  }

  /**
   * `Math.round(health)`: the nearest integer, halves rounded up, as
   * JavaScript rounds.
   */
  function RoundedPercent(health: real): (r: int)
    ensures r as real - 0.5 <= health < r as real + 0.5
  {
    (health + 0.5).Floor
  }

  /** A health within [10, 100] is shown as a whole percentage within [10, 100]. */
  lemma RoundedPercentInRange(health: real)
    requires 10.0 <= health <= 100.0
    ensures 10 <= RoundedPercent(health) <= 100
  {
  }
}
