/**
 * The style classes the pages pick from a health score in [0, 1]. Every page
 * uses the thresholds 0.8 and 0.6, so each class family is one function of the
 * health category, and the families always agree with each other and with the
 * health label.
 */
module HealthStyles {
  import opened Formatters

  /** The text colour of a score: the Average Health card, the health figures of the cards and the detail page. */
  function TextClass(score: real): (cls: string)
    ensures cls == "text-success" <==> HealthCategoryOf(score) == Healthy
    ensures cls == "text-warning" <==> HealthCategoryOf(score) == Warning
    ensures cls == "text-destructive" <==> HealthCategoryOf(score) == Critical
  {
    if score >= 0.8 then "text-success"
    else if score >= 0.6 then "text-warning"
    else "text-destructive"
  }

  /** The progress-bar fill of a score. */
  function BgClass(score: real): (cls: string)
    ensures cls == "bg-success" <==> HealthCategoryOf(score) == Healthy
    ensures cls == "bg-warning" <==> HealthCategoryOf(score) == Warning
    ensures cls == "bg-destructive" <==> HealthCategoryOf(score) == Critical
  {
    if score >= 0.8 then "bg-success"
    else if score >= 0.6 then "bg-warning"
    else "bg-destructive"
  }

  /** The left border of a full health card. */
  function BorderClass(score: real): (cls: string)
    ensures cls == "border-l-success" <==> HealthCategoryOf(score) == Healthy
    ensures cls == "border-l-warning" <==> HealthCategoryOf(score) == Warning
    ensures cls == "border-l-destructive" <==> HealthCategoryOf(score) == Critical
  {
    if score >= 0.8 then "border-l-success"
    else if score >= 0.6 then "border-l-warning"
    else "border-l-destructive"
  }

  /** The tinted icon box of a compact health card. */
  function TintClass(score: real): (cls: string)
    ensures cls == "bg-success/20 text-success" <==> HealthCategoryOf(score) == Healthy
    ensures cls == "bg-warning/20 text-warning" <==> HealthCategoryOf(score) == Warning
    ensures cls == "bg-destructive/20 text-destructive" <==> HealthCategoryOf(score) == Critical
  {
    if score >= 0.8 then "bg-success/20 text-success"
    else if score >= 0.6 then "bg-warning/20 text-warning"
    else "bg-destructive/20 text-destructive"
  }

  /**
   * Whatever family a page uses, a score gets the same colour in all of them,
   * and it is the colour of the score's label.
   */
  lemma StylesAgree(score: real)
    ensures TextClass(score) == "text-success" <==> BgClass(score) == "bg-success"
    ensures BgClass(score) == "bg-success" <==> BorderClass(score) == "border-l-success"
    ensures BorderClass(score) == "border-l-success" <==> TintClass(score) == "bg-success/20 text-success"
    ensures TextClass(score) == "text-warning" <==> BgClass(score) == "bg-warning"
    ensures BgClass(score) == "bg-warning" <==> BorderClass(score) == "border-l-warning"
    ensures BorderClass(score) == "border-l-warning" <==> TintClass(score) == "bg-warning/20 text-warning"
    ensures TextClass(score) == "text-success" <==> GetHealthLabel(score) == "Healthy"
    ensures TextClass(score) == "text-warning" <==> GetHealthLabel(score) == "Warning"
    ensures TextClass(score) == "text-destructive" <==> GetHealthLabel(score) == "Critical"
  {
  }
}
