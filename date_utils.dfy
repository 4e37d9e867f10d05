/** Time arithmetic on millisecond instants: countdown split, "time ago" buckets, past/upcoming. */
module DateUtils {
  import opened Types
  import opened Decimal
  import opened Arith

  /** `getTimeUntil`'s result. */
  datatype TimeUntil = TimeUntil(days: int, hours: int, minutes: int, seconds: int, total: int)

  /**
   * `getTimeUntil(target)` at instant `now`: the time left split into whole
   * days, hours, minutes and seconds; all zero once the target has passed.
   */
  function GetTimeUntil(target: Instant, now: Instant): (t: TimeUntil)
    ensures target - now <= 0 ==> t == TimeUntil(0, 0, 0, 0, 0)
    ensures target - now > 0 ==>
      && t.total == target - now
      && t.days >= 0
      && 0 <= t.hours < 24 && 0 <= t.minutes < 60 && 0 <= t.seconds < 60
      && t.days * MsPerDay + t.hours * MsPerHour + t.minutes * MsPerMinute
         + t.seconds * MsPerSecond + (target - now) % 1000 == target - now
  {
    var diff := target - now;
    if diff <= 0 then TimeUntil(0, 0, 0, 0, 0)
    else
      var days := diff / MsPerDay;
      var hours := (diff % MsPerDay) / MsPerHour;
      var minutes := (diff % MsPerHour) / MsPerMinute;
      var seconds := (diff % MsPerMinute) / MsPerSecond;
      ModOfMod(diff, MsPerHour, 24);
      ModOfMod(diff, MsPerMinute, 60);
      ModOfMod(diff, MsPerSecond, 60);
      assert diff % MsPerDay == hours * MsPerHour + diff % MsPerHour;
      assert diff % MsPerHour == minutes * MsPerMinute + diff % MsPerMinute;
      assert diff % MsPerMinute == seconds * MsPerSecond + diff % MsPerSecond;
      TimeUntil(days, hours, minutes, seconds, diff)
  }

  /** The buckets of `formatRelativeTime`; `FullDate` is rendered by the locale formatter. */
  datatype Relative = JustNow | MinutesAgo(n: int) | HoursAgo(n: int) | Yesterday | DaysAgo(n: int) | FullDate

  /** `formatRelativeTime(date)` at instant `now`, as a bucket. */
  function RelativeTime(date: Instant, now: Instant): Relative
  {
    var secs := (now - date) / 1000;
    if secs < 60 then JustNow
    else
      var mins := secs / 60;
      if mins < 60 then MinutesAgo(mins)
      else
        var hours := mins / 60;
        if hours < 24 then HoursAgo(hours)
        else
          var days := hours / 24;
          if days == 1 then Yesterday
          else if days < 7 then DaysAgo(days)
          else FullDate
  }

  /** The text shown for a bucket; `formatDate` (locale dependent) is a parameter. */
  function RenderRelative(r: Relative, formattedDate: string): string
  {
    match r
    case JustNow => "just now"
    case MinutesAgo(n) => IntToString(n) + "m ago"
    case HoursAgo(n) => IntToString(n) + "h ago"
    case Yesterday => "yesterday"
    case DaysAgo(n) => IntToString(n) + "d ago"
    case FullDate => formattedDate
  }

  /**
   * The buckets stated directly on the elapsed milliseconds `e = now - date`:
   * under a minute (including the future) is "just now", then whole minutes
   * under an hour, whole hours under a day, exactly one whole day is
   * "yesterday", whole days under a week, and the full date after that.
   */
  lemma RelativeTimeBuckets(date: Instant, now: Instant)
    ensures var e := now - date;
      && (RelativeTime(date, now) == JustNow <==> e < MsPerMinute)
      && (MsPerMinute <= e < MsPerHour ==> RelativeTime(date, now) == MinutesAgo(e / MsPerMinute))
      && (MsPerHour <= e < MsPerDay ==> RelativeTime(date, now) == HoursAgo(e / MsPerHour))
      && (RelativeTime(date, now) == Yesterday <==> MsPerDay <= e < 2 * MsPerDay)
      && (2 * MsPerDay <= e < 7 * MsPerDay ==> RelativeTime(date, now) == DaysAgo(e / MsPerDay))
      && (RelativeTime(date, now) == FullDate <==> e >= 7 * MsPerDay)
  {
    var e := now - date;
    DivDiv(e, 1000, 60);
    DivDiv(e, 60000, 60);
    DivDiv(e, 3600000, 24);
    var secs := e / 1000;
    DivDiv(secs, 60, 60);
    DivDiv(secs / 60, 60, 24);
    DivDiv(secs, 3600, 24);
  }

  /** `isUpcoming`: strictly after now. */
  predicate IsUpcoming(date: Instant, now: Instant) { date > now }

  /** `isPast`: strictly before now. */
  predicate IsPast(date: Instant, now: Instant) { date < now }

  /** The present instant is neither upcoming nor past; every other instant is exactly one. */
  lemma UpcomingPastExclusive(date: Instant, now: Instant)
    ensures !(IsUpcoming(date, now) && IsPast(date, now))
    ensures date == now <==> !IsUpcoming(date, now) && !IsPast(date, now)
  {
  }
}
