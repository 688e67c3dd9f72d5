/**
 * `formatTime`, the relative timestamp of a post or a reply. The backend
 * stamps in nanoseconds; the label is chosen from the elapsed milliseconds.
 * The computation is on exact rationals, and the current time is an input.
 */
module RelativeTime {
  import opened Text

  const NanosPerMilli: real := 1000000.0
  const MinuteMs: real := 60000.0
  const HourMs: real := 3600000.0
  const DayMs: real := 86400000.0
  const WeekMs: real := 604800000.0

  datatype TimeLabel =
    | JustNow
    | MinutesAgo(minutes: nat)
    | HoursAgo(hours: nat)
    | DaysAgo(days: nat)
    | OnDate(ms: real)   // rendered by `toLocaleDateString`

  /** `Number(timestamp) / 1_000_000` */
  function TimestampMs(timestamp: int): real {
    timestamp as real / NanosPerMilli
  }

  /** `Date.now() - ms` */
  function ElapsedMs(timestamp: int, nowMs: int): real {
    nowMs as real - TimestampMs(timestamp)
  }

  /** `Math.floor(diff / unit)` for a positive diff */
  function WholeUnits(diff: real, unit: real): (n: nat)
    requires unit > 0.0 && diff >= unit
    ensures n >= 1
    ensures n as real * unit <= diff < (n + 1) as real * unit
  {
    var q := diff / unit;
    assert q * unit == diff;
    assert q >= 1.0;
    var n := q.Floor;
    var lo, hi := n as real, (n + 1) as real;
    assert lo <= q < hi;
    MultiplyMonotone(lo, q, unit);
    MultiplyStrict(q, hi, unit);
    assert diff < hi * unit;
    assert hi == (n + 1) as real;
    n
  }

  lemma MultiplyMonotone(a: real, b: real, c: real)
    requires a <= b && c > 0.0
    ensures a * c <= b * c
  {
  }

  lemma MultiplyStrict(a: real, b: real, c: real)
    requires a < b && c > 0.0
    ensures a * c < b * c
  {
  }

  /** The bucket of `formatTime`. */
  function FormatTime(timestamp: int, nowMs: int): (l: TimeLabel)
    ensures var diff := ElapsedMs(timestamp, nowMs);
      && (l.JustNow? <==> diff < MinuteMs)
      && (l.MinutesAgo? <==> MinuteMs <= diff < HourMs)
      && (l.HoursAgo? <==> HourMs <= diff < DayMs)
      && (l.DaysAgo? <==> DayMs <= diff < WeekMs)
      && (l.OnDate? <==> WeekMs <= diff)
    ensures var diff := ElapsedMs(timestamp, nowMs);
      && (l.MinutesAgo? ==> 1 <= l.minutes <= 59 && l.minutes as real * MinuteMs <= diff < (l.minutes + 1) as real * MinuteMs)
      && (l.HoursAgo? ==> 1 <= l.hours <= 23 && l.hours as real * HourMs <= diff < (l.hours + 1) as real * HourMs)
      && (l.DaysAgo? ==> 1 <= l.days <= 6 && l.days as real * DayMs <= diff < (l.days + 1) as real * DayMs)
      && (l.OnDate? ==> l.ms == TimestampMs(timestamp))
  {
    var diff := ElapsedMs(timestamp, nowMs);
    if diff < MinuteMs then JustNow
    else if diff < HourMs then MinutesAgo(WholeUnits(diff, MinuteMs))
    else if diff < DayMs then HoursAgo(WholeUnits(diff, HourMs))
    else if diff < WeekMs then DaysAgo(WholeUnits(diff, DayMs))
    else OnDate(TimestampMs(timestamp))
  }

  /** A post stamped in the future is shown as 'just now'. */
  lemma FutureIsJustNow(timestamp: int, nowMs: int)
    requires TimestampMs(timestamp) > nowMs as real
    ensures FormatTime(timestamp, nowMs) == JustNow
  {
  }

  /** The label text; the date form is left to the locale formatter and not modelled. */
  function LabelText(l: TimeLabel): (s: string)
    requires !l.OnDate?
  {
    match l
    case JustNow => "just now"
    case MinutesAgo(n) => NatToString(n) + "m ago"
    case HoursAgo(n) => NatToString(n) + "h ago"
    case DaysAgo(n) => NatToString(n) + "d ago"
  }

  /** The number in a relative label reads back as the bucket's count. */
  lemma LabelTextReadsBack(l: TimeLabel)
    requires l.MinutesAgo? || l.HoursAgo? || l.DaysAgo?
    ensures var n := if l.MinutesAgo? then l.minutes else if l.HoursAgo? then l.hours else l.days;
      var s := LabelText(l);
      var k := |NatToString(n)|;
      && k + 5 == |s|
      && (forall i | 0 <= i < k :: '0' <= s[i] <= '9')
      && DigitsValue(s[..k]) == n
      && s[k..] == (if l.MinutesAgo? then "m ago" else if l.HoursAgo? then "h ago" else "d ago")
  {
    var n := if l.MinutesAgo? then l.minutes else if l.HoursAgo? then l.hours else l.days;
    NatToStringRoundTrip(n);
    assert LabelText(l)[..|NatToString(n)|] == NatToString(n);
  }
}
