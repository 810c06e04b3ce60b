/**
 * The shared display helpers: health buckets and their colours, the status
 * colour, the day count until a date and the relative-time label.
 * The current time is a parameter wherever the dashboard reads the clock.
 */
module Formatters {
  import opened Types
  import Strings

  /** The three health categories every page uses. */
  datatype HealthCategory = Healthy | Warning | Critical

  /**
   * The reference classification, written as the interval tests the equipment
   * page filters and counts with: below 0.6 is critical, from 0.6 up to 0.8 is
   * a warning, 0.8 and above is healthy.
   */
  function HealthCategoryOf(score: real): (c: HealthCategory)
    ensures c == Critical <==> score < 0.6
    ensures c == Warning <==> 0.6 <= score < 0.8
    ensures c == Healthy <==> score >= 0.8
  {
    if score < 0.6 then Critical
    else if score >= 0.6 && score < 0.8 then Warning
    else Healthy
  }

  /** A higher score never falls into a worse category. */
  lemma HealthCategoryMonotone(a: real, b: real)
    requires a <= b
    ensures HealthCategoryOf(a) == Healthy ==> HealthCategoryOf(b) == Healthy
    ensures HealthCategoryOf(b) == Critical ==> HealthCategoryOf(a) == Critical
  {
  }

  /** `getHealthLabel`: each boundary goes to the higher category. */
  function GetHealthLabel(score: real): (text: string)
    ensures text == "Healthy" <==> HealthCategoryOf(score) == Healthy
    ensures text == "Warning" <==> HealthCategoryOf(score) == Warning
    ensures text == "Critical" <==> HealthCategoryOf(score) == Critical
  {
    if score >= 0.8 then "Healthy"
    else if score >= 0.6 then "Warning"
    else "Critical"
  }

  /** `getHealthColor`: the same thresholds, so the colour always matches the label. */
  function GetHealthColor(score: real): (color: string)
    ensures color == "hsl(var(--success))" <==> GetHealthLabel(score) == "Healthy"
    ensures color == "hsl(var(--warning))" <==> GetHealthLabel(score) == "Warning"
    ensures color == "hsl(var(--destructive))" <==> GetHealthLabel(score) == "Critical"
  {
    if score >= 0.8 then "hsl(var(--success))"
    else if score >= 0.6 then "hsl(var(--warning))"
    else "hsl(var(--destructive))"
  }

  /**
   * `getStatusColor`: one colour per status. The enumeration is closed, so
   * the `default` branch is never taken.
   */
  function GetStatusColor(status: EquipmentStatus): (colour: string)
    ensures colour == "hsl(var(--success))" <==> status == Operational
    ensures colour == "hsl(var(--warning))" <==> status == Degraded
    ensures colour == "hsl(var(--primary))" <==> status == Maintenance
    ensures colour == "hsl(var(--destructive))" <==> status == Failed
    ensures colour == "hsl(var(--muted-foreground))" <==> status == Idle
  {
    match status
    case Operational => "hsl(var(--success))"
    case Degraded => "hsl(var(--warning))"
    case Maintenance => "hsl(var(--primary))"
    case Failed => "hsl(var(--destructive))"
    case Idle => "hsl(var(--muted-foreground))"
  }

  /** The five statuses get five different colours. */
  lemma StatusColorsDistinct(a: EquipmentStatus, b: EquipmentStatus)
    requires a != b
    ensures GetStatusColor(a) != GetStatusColor(b)
  {
  }

  const MillisPerDay: int := 1000 * 60 * 60 * 24

  /**
   * `getDaysUntil`: the ceiling of the distance from `now` to `target` in days,
   * negative for past dates. The result is the unique whole number of days whose
   * span first reaches the target.
   */
  function GetDaysUntil(target: Millis, now: Millis): (days: int)
    ensures (days - 1) * MillisPerDay < target - now <= days * MillisPerDay
  {
    -((now - target) / MillisPerDay)
  }

  /** A target exactly `k` days ahead (or behind) gives `k`. */
  lemma DaysUntilWholeDays(now: Millis, k: int)
    ensures GetDaysUntil(now + k * MillisPerDay, now) == k
  {
    var d := GetDaysUntil(now + k * MillisPerDay, now);
    assert (d - 1) * MillisPerDay < k * MillisPerDay <= d * MillisPerDay;
  }

  /** Any target in the next day, up to and including exactly one day ahead, gives 1. */
  lemma DaysUntilWithinOneDay(target: Millis, now: Millis)
    requires now < target <= now + MillisPerDay
    ensures GetDaysUntil(target, now) == 1
  {
  }

  /** A later target never gives fewer days. */
  lemma DaysUntilMonotone(t1: Millis, t2: Millis, now: Millis)
    requires t1 <= t2
    ensures GetDaysUntil(t1, now) <= GetDaysUntil(t2, now)
  {
  }

  /** A target in the past (or now) gives zero or a negative count, never an error. */
  lemma DaysUntilPast(target: Millis, now: Millis)
    requires target <= now
    ensures GetDaysUntil(target, now) <= 0
  {
  }

  /** The label `getRelativeTime` picks. */
  datatype RelativeTime = JustNow | MinutesAgo(minutes: nat) | HoursAgo(hours: nat) | DaysAgo(days: nat)

  /**
   * `getRelativeTime` before rendering: whole minutes, hours and days elapsed are
   * successive floor divisions of the elapsed milliseconds; the first bucket that
   * fits is chosen.
   */
  function RelativeTimeOf(date: Millis, now: Millis): (r: RelativeTime)
    ensures r == JustNow <==> now - date < 60000
    ensures r.MinutesAgo? ==> 1 <= r.minutes < 60 && r.minutes * 60000 <= now - date < (r.minutes + 1) * 60000
    ensures r.HoursAgo? ==> 1 <= r.hours < 24 && r.hours * 3600000 <= now - date < (r.hours + 1) * 3600000
    ensures r.DaysAgo? ==> 1 <= r.days && r.days * 86400000 <= now - date < (r.days + 1) * 86400000
  {
    var diff := now - date;
    var minutes := diff / 60000;
    var hours := minutes / 60;
    var days := hours / 24;
    if minutes < 1 then JustNow
    else if minutes < 60 then MinutesAgo(minutes)
    else if hours < 24 then HoursAgo(hours)
    else DaysAgo(days)
  }

  /** A date in the future reads "Just now": a negative difference floors below one minute. */
  lemma FutureIsJustNow(date: Millis, now: Millis)
    requires date > now
    ensures RelativeTimeOf(date, now) == JustNow
    ensures GetRelativeTime(date, now) == "Just now"
  {
  }

  /** The label's text, as the template literals write it. */
  function RenderRelativeTime(r: RelativeTime): string
  {
    match r
    case JustNow => "Just now"
    case MinutesAgo(m) => Strings.NatToDecimal(m) + "m ago"
    case HoursAgo(h) => Strings.NatToDecimal(h) + "h ago"
    case DaysAgo(d) => Strings.NatToDecimal(d) + "d ago"
  }

  /**
   * `getRelativeTime`: "Just now" exactly under a minute (so for every future
   * date too); otherwise the elapsed time in whole minutes under an hour, in
   * whole hours under a day, and in whole days beyond. The successive floor
   * divisions give the same counts as dividing the elapsed milliseconds once.
   */
  function GetRelativeTime(date: Millis, now: Millis): (text: string)
    ensures text == "Just now" <==> now - date < 60000
    ensures 60000 <= now - date < 3600000 ==> text == Strings.NatToDecimal((now - date) / 60000) + "m ago"
    ensures 3600000 <= now - date < 86400000 ==> text == Strings.NatToDecimal((now - date) / 3600000) + "h ago"
    ensures 86400000 <= now - date ==> text == Strings.NatToDecimal((now - date) / 86400000) + "d ago"
  {
    var r := RelativeTimeOf(date, now);
    var text := RenderRelativeTime(r);
    OnlyJustNowReadsSo(r);
    match r
    case JustNow => text
    case MinutesAgo(m) => DivUnique(now - date, 60000, m); text
    case HoursAgo(h) => DivUnique(now - date, 3600000, h); text
    case DaysAgo(d) => DivUnique(now - date, 86400000, d); text
  }

  /** Only the "just now" bucket renders as "Just now". */
  lemma OnlyJustNowReadsSo(r: RelativeTime)
    ensures RenderRelativeTime(r) == "Just now" <==> r == JustNow
  {
    if RenderRelativeTime(r) == "Just now" {
      RenderInjective(r, JustNow);
    }
  }

  /** The quotient is the one whole number whose multiples bracket the dividend. */
  lemma DivUnique(x: int, d: int, q: int)
    requires d > 0 && q * d <= x < (q + 1) * d
    ensures x / d == q
  {
    var k := x / d;
    assert k * d + x % d == x;
    if k > q {
      MulMonotone(q + 1, k, d);
    } else if k < q {
      MulMonotone(k + 1, q, d);
    }
  }

  lemma MulMonotone(a: int, b: int, d: int)
    requires a <= b && d > 0
    ensures a * d <= b * d
  {
    assert b * d == a * d + (b - a) * d;
  }

  /** Different labels render differently, so the text determines the bucket and its count. */
  lemma RenderInjective(a: RelativeTime, b: RelativeTime)
    requires RenderRelativeTime(a) == RenderRelativeTime(b)
    ensures a == b
  {
    var t := RenderRelativeTime(a);
    if a.JustNow? || b.JustNow? {
      // "Just now" starts with a letter, every other label with a digit.
      assert t[0] == 'J';
    } else {
      var na := match a case MinutesAgo(m) => m case HoursAgo(h) => h case DaysAgo(d) => d case JustNow => 0;
      var nb := match b case MinutesAgo(m) => m case HoursAgo(h) => h case DaysAgo(d) => d case JustNow => 0;
      var da, db := Strings.NatToDecimal(na), Strings.NatToDecimal(nb);
      assert |da| == |db| && t[|da|] == t[|db|];
      assert da == t[..|da|] && db == t[..|db|];
      Strings.DecimalRoundTrip(na);
      Strings.DecimalRoundTrip(nb);
    }
  }
}
