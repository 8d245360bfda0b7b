/**
  Formatting and distance helpers shared by the interface: durations as days, hours, minutes
  and seconds, the magnitude suffix of large numbers, the distance between two points and the
  travel time over a distance.
 */
module Utils {
  import opened Wrappers
  import opened Numeric

  /** The four shapes formatDuration prints. */
  datatype Duration =
    | Seconds(seconds: int)
    | MinutesSeconds(minutes: int, seconds: int)
    | HoursMinutes(hours: int, minutes: int)
    | DaysHours(days: int, hours: int)

  /** formatDuration on a whole number of seconds, before it is printed. */
  function FormatDuration(seconds: int): Duration
  {
    if seconds < 60 then Seconds(seconds)
    else if seconds < 3600 then MinutesSeconds(seconds / 60, seconds % 60)
    else if seconds < 86400 then HoursMinutes(seconds / 3600, (seconds % 3600) / 60)
    else DaysHours(seconds / 86400, (seconds % 86400) / 3600)
  }

  /**
    Each shape is chosen by its threshold, its smaller unit stays below the next unit, and
    the printed parts give back the duration up to the unit left out.
   */
  lemma FormatDurationShape(seconds: int)
    ensures seconds < 60 <==> FormatDuration(seconds) == Seconds(seconds)
    ensures 60 <= seconds < 3600 <==> FormatDuration(seconds).MinutesSeconds?
    ensures 3600 <= seconds < 86400 <==> FormatDuration(seconds).HoursMinutes?
    ensures 86400 <= seconds <==> FormatDuration(seconds).DaysHours?
    ensures FormatDuration(seconds).MinutesSeconds? ==>
      var d := FormatDuration(seconds);
      1 <= d.minutes < 60 && 0 <= d.seconds < 60 && 60 * d.minutes + d.seconds == seconds
    ensures FormatDuration(seconds).HoursMinutes? ==>
      var d := FormatDuration(seconds);
      && 1 <= d.hours < 24 && 0 <= d.minutes < 60
      && 3600 * d.hours + 60 * d.minutes <= seconds < 3600 * d.hours + 60 * d.minutes + 60
    ensures FormatDuration(seconds).DaysHours? ==>
      var d := FormatDuration(seconds);
      && 1 <= d.days && 0 <= d.hours < 24
      && 86400 * d.days + 3600 * d.hours <= seconds < 86400 * d.days + 3600 * d.hours + 3600
  {
  }

  /** An integer as a template string prints it. */
  function IntToString(n: int): string
  {
    if n < 0 then "-" + NatToString(-n) else NatToString(n)
  }

  /** The text formatDuration returns. */
  function RenderDuration(d: Duration): string
  {
    match d
    case Seconds(s) => IntToString(s) + "s"
    case MinutesSeconds(m, s) => IntToString(m) + "m " + IntToString(s) + "s"
    case HoursMinutes(h, m) => IntToString(h) + "h " + IntToString(m) + "m"
    case DaysHours(days, h) => IntToString(days) + "d " + IntToString(h) + "h"
  }

  /** Under a minute the text is the number of seconds followed by "s". */
  lemma ShortDurationText(seconds: nat)
    requires seconds < 60
    ensures RenderDuration(FormatDuration(seconds)) == NatToString(seconds) + "s"
  {
  }

  /** The suffix formatNumber appends, and the divisor of the number it shows. */
  datatype Magnitude = Billions | Millions | Thousands | Units

  function MagnitudeOf(num: real): Magnitude
  {
    if num >= 1000000000.0 then Billions
    else if num >= 1000000.0 then Millions
    else if num >= 1000.0 then Thousands
    else Units
  }

  function Divisor(m: Magnitude): real
  {
    match m
    case Billions => 1000000000.0
    case Millions => 1000000.0
    case Thousands => 1000.0
    case Units => 1.0
  }

  function Suffix(m: Magnitude): string
  {
    match m
    case Billions => "B"
    case Millions => "M"
    case Thousands => "K"
    case Units => ""
  }

  /**
    formatNumber's choice: the number shown before the suffix is at least 1 under every
    suffix and below 1000 under K and M, so the largest suffix that keeps it at least 1 is used.
   */
  lemma MagnitudeChoice(num: real)
    ensures var m := MagnitudeOf(num);
      && (m != Units ==> 1.0 <= num / Divisor(m))
      && (m == Thousands || m == Millions ==> num / Divisor(m) < 1000.0)
      && (m == Units <==> num < 1000.0)
  {
    var m := MagnitudeOf(num);
    if m != Units {
      assert num >= Divisor(m);
      assert num / Divisor(m) * Divisor(m) == num;
    }
    if m == Thousands || m == Millions {
      assert num < 1000.0 * Divisor(m);
      assert num / Divisor(m) * Divisor(m) == num;
    }
  }

  /** calculateDistance: the Euclidean distance between two points. */
  function Distance(tr: Transcendentals, x1: real, y1: real, x2: real, y2: real): real
  {
    tr.sqrt((x2 - x1) * (x2 - x1) + (y2 - y1) * (y2 - y1))
  }

  lemma DistanceSymmetric(tr: Transcendentals, x1: real, y1: real, x2: real, y2: real)
    ensures Distance(tr, x1, y1, x2, y2) == Distance(tr, x2, y2, x1, y1)
  {
    assert (x2 - x1) * (x2 - x1) == (x1 - x2) * (x1 - x2);
    assert (y2 - y1) * (y2 - y1) == (y1 - y2) * (y1 - y2);
  }

  lemma DistanceToItself(tr: Transcendentals, x: real, y: real)
    requires Lawful(tr)
    ensures Distance(tr, x, y, x, y) == 0.0
  {
  }

  lemma DistanceNonNegative(tr: Transcendentals, x1: real, y1: real, x2: real, y2: real)
    requires Lawful(tr)
    ensures Distance(tr, x1, y1, x2, y2) >= 0.0
  {
    ProductNonNegative(x2 - x1, x2 - x1);
    ProductNonNegative(x1 - x2, x1 - x2);
    ProductNonNegative(y2 - y1, y2 - y1);
    ProductNonNegative(y1 - y2, y1 - y2);
    assert (x2 - x1) * (x2 - x1) == (x1 - x2) * (x1 - x2);
    assert (y2 - y1) * (y2 - y1) == (y1 - y2) * (y1 - y2);
  }

  /** Seconds of flight per unit of distance at speed 1. */
  const SecondsPerUnit: real := 600.0

  /**
    calculateTravelTime: ten minutes per unit of distance divided by the speed (1 when none is
    given), rounded up; a speed of 0 gives no finite time.
   */
  function TravelTime(distance: real, speed: Option<real>): Option<int>
  {
    var v := speed.GetOr(1.0);
    if v == 0.0 then None else Some(Ceil(distance * SecondsPerUnit / v))
  }

  lemma TravelTimeDefaultSpeed(distance: real)
    ensures TravelTime(distance, None) == TravelTime(distance, Some(1.0))
    ensures TravelTime(distance, None) == Some(Ceil(distance * 600.0))
  {
  }

  /** At a positive speed, a longer way never takes less time and a faster fleet never more. */
  lemma TravelTimeMonotone(d1: real, d2: real, v1: real, v2: real)
    requires 0.0 <= d1 <= d2 && 0.0 < v1 <= v2
    ensures TravelTime(d1, Some(v1)).value <= TravelTime(d2, Some(v1)).value
    ensures TravelTime(d2, Some(v2)).value <= TravelTime(d2, Some(v1)).value
  {
    QuotientGrowsWithDividend(d1 * 600.0, d2 * 600.0, v1);
    CeilMonotone(d1 * 600.0 / v1, d2 * 600.0 / v1);
    var x := d2 * 600.0;
    QuotientFallsWithDivisor(x, v1, v2);
    CeilMonotone(x / v2, x / v1);
  }
}
