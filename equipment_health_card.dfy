/**
 * The dashboard's equipment health card: the status icon chosen by the
 * equipment status, and the status badge, which despite its name is chosen
 * by the health score alone.
 */
module EquipmentHealthCard {
  import opened Types
  import opened Formatters

  /** An icon and its colour. */
  datatype StatusIcon = StatusIcon(icon: string, color: string)

  /** `getStatusIcon`: one icon for each of the five statuses. */
  function GetStatusIcon(status: EquipmentStatus): (r: StatusIcon)
    ensures r.color == "text-success" <==> GetStatusColor(status) == "hsl(var(--success))"
    ensures r.color == "text-warning" <==> GetStatusColor(status) == "hsl(var(--warning))"
    ensures r.color == "text-primary" <==> GetStatusColor(status) == "hsl(var(--primary))"
    ensures r.color == "text-destructive" <==> GetStatusColor(status) == "hsl(var(--destructive))"
    ensures r.color == "text-muted-foreground" <==> GetStatusColor(status) == "hsl(var(--muted-foreground))"
  {
    match status
    case Operational => StatusIcon("CheckCircle", "text-success")
    case Degraded => StatusIcon("AlertTriangle", "text-warning")
    case Maintenance => StatusIcon("Wrench", "text-primary")
    case Failed => StatusIcon("XCircle", "text-destructive")
    case Idle => StatusIcon("Pause", "text-muted-foreground")
  }

  /** Different statuses get different icons. */
  lemma StatusIconsDistinct(a: EquipmentStatus, b: EquipmentStatus)
    requires a != b
    ensures GetStatusIcon(a).icon != GetStatusIcon(b).icon
  {
  }

  /** A badge: its text and style. */
  datatype Badge = Badge(text: string, style: string)

  /**
   * `getStatusBadge(status, health)`: Critical below 0.6, Warning below 0.8,
   * Healthy otherwise. The status argument is not read, so the badge always
   * carries the health label.
   */
  function GetStatusBadge(status: EquipmentStatus, health: real): (b: Badge)
    ensures b.text == GetHealthLabel(health)
  {
    if health < 0.6 then Badge("Critical", "destructive")
    else if health < 0.8 then Badge("Warning", "bg-warning text-warning-foreground")
    else Badge("Healthy", "bg-success text-success-foreground")
  }

  /**
   * The badge ignores the status: a failed machine with a high score reads
   * Healthy, an operational one with a low score reads Critical.
   */
  lemma StatusBadgeIgnoresStatus(a: EquipmentStatus, b: EquipmentStatus, health: real)
    ensures GetStatusBadge(a, health) == GetStatusBadge(b, health)
  {
  }

  /** A failed machine at 0.9 shows a Healthy badge. */
  lemma FailedCanReadHealthy()
    ensures GetStatusBadge(Failed, 0.9).text == "Healthy"
  {
  }
}
