/** The date rules of the `/daily` and `/lastday` commands: when the daily
    stats reset next, whether a lookback depth is allowed, and which stored
    period (`daily_YYYY_MM_DD`) a lookback of N days reads. */
module Daily {
  import opened Wrappers
  import opened Calendar
  import opened Decimal

  /** The owner's reset configuration: the UTC offset in whole hours and the
      local hour at which a day's stats reset. */
  datatype ResetTime = ResetTime(gmtOffset: int, hour: int)

  /** What `timezone(timedelta(hours=...))` and `now.replace(hour=...)` accept. */
  predicate ValidResetTime(cfg: ResetTime) {
    -23 <= cfg.gmtOffset <= 23 && 0 <= cfg.hour <= 23
  }

  /** The largest day count a `timedelta` holds. */
  const MaxTimedeltaDays := 999_999_999

  // ---- /daily: the next reset ----

  /** The next reset after `now`: today's `hour:00:00` in local time, or
      tomorrow's if that is not later than `now`. */
  function NextReset(now: int, cfg: ResetTime): (next: int)
    requires ValidResetTime(cfg)
    ensures now < next <= now + MicrosPerDay
    ensures TimeOfDay(next, cfg.gmtOffset) == cfg.hour * MicrosPerHour
  {
    var local := LocalMicros(now, cfg.gmtOffset);
    var todayAtHour := local / MicrosPerDay * MicrosPerDay + cfg.hour * MicrosPerHour;
    var occurrence := if local >= todayAtHour then todayAtHour + MicrosPerDay else todayAtHour;
    occurrence - cfg.gmtOffset * MicrosPerHour
  }

  /** Two instants with the same local time of day are whole days apart. */
  lemma SameTimeOfDayWholeDays(a: int, b: int, offsetHours: int)
    requires a < b && TimeOfDay(a, offsetHours) == TimeOfDay(b, offsetHours)
    ensures b - a >= MicrosPerDay
  {
    var x, y := LocalMicros(a, offsetHours), LocalMicros(b, offsetHours);
    assert x == x / MicrosPerDay * MicrosPerDay + x % MicrosPerDay;
    assert y == y / MicrosPerDay * MicrosPerDay + y % MicrosPerDay;
    assert y / MicrosPerDay > x / MicrosPerDay;
  }

  /** No instant strictly between `now` and the next reset is a reset instant. */
  lemma NextResetIsFirst(now: int, cfg: ResetTime, t: int)
    requires ValidResetTime(cfg)
    requires now < t < NextReset(now, cfg)
    ensures TimeOfDay(t, cfg.gmtOffset) != cfg.hour * MicrosPerHour
  {
    if TimeOfDay(t, cfg.gmtOffset) == cfg.hour * MicrosPerHour {
      SameTimeOfDayWholeDays(t, NextReset(now, cfg), cfg.gmtOffset);
    }
  }

  /** Asked exactly at the reset instant, the next reset is a full day later. */
  lemma NextResetAtResetInstant(now: int, cfg: ResetTime)
    requires ValidResetTime(cfg)
    requires TimeOfDay(now, cfg.gmtOffset) == cfg.hour * MicrosPerHour
    ensures NextReset(now, cfg) == now + MicrosPerDay
  {
    SameTimeOfDayWholeDays(now, NextReset(now, cfg), cfg.gmtOffset);
  }

  /** `int(utc_next_occurrence.timestamp())`: the next reset in whole seconds,
      which it is exactly. */
  function ResetTimestamp(now: int, cfg: ResetTime): (seconds: int)
    requires ValidResetTime(cfg)
    ensures seconds * MicrosPerSecond == NextReset(now, cfg)
  {
    var local := LocalMicros(now, cfg.gmtOffset);
    assert local / MicrosPerDay * MicrosPerDay == (local / MicrosPerDay * 86400) * MicrosPerSecond;
    NextReset(now, cfg) / MicrosPerSecond
  }

  /** What `/daily` does once the player is resolved. */
  datatype DailyOutcome =
    | StartTracking                              // no 'daily' baseline yet: start tracking and stop
    | ShowDaily(date: Date, resetsAt: int)       // render today's stats; the reset time in epoch seconds

  function DailyCommand(hasBaseline: bool, cfg: ResetTime, now: int): (r: DailyOutcome)
    requires ValidResetTime(cfg) && InDatetimeRange(now, cfg.gmtOffset)
    ensures r.StartTracking? <==> !hasBaseline
    ensures r.ShowDaily? ==> ValidDate(r.date) && Ordinal(r.date) == LocalOrdinal(now, cfg.gmtOffset)
    ensures r.ShowDaily? ==> now < r.resetsAt * MicrosPerSecond <= now + MicrosPerDay
    ensures r.ShowDaily? ==> TimeOfDay(r.resetsAt * MicrosPerSecond, cfg.gmtOffset) == cfg.hour * MicrosPerHour
  {
    if !hasBaseline then StartTracking
    else ShowDaily(LocalDate(now, cfg.gmtOffset), ResetTimestamp(now, cfg))
  }

  // ---- /lastday: lookback depth ----

  /** The tier check: a limit of -1 allows any depth, any other limit rejects
      a deeper request. */
  predicate LookbackRejected(maxLookback: int, days: int): (rejected: bool)
    ensures maxLookback == -1 ==> !rejected
    ensures days <= maxLookback ==> !rejected
    ensures maxLookback >= 0 && days > maxLookback ==> rejected
  {
    -1 != maxLookback && maxLookback < days
  }

  /** `max(days, 1)`. */
  function ClampDepth(days: int): (depth: int)
    ensures depth >= 1 && depth >= days
    ensures depth == days || depth == 1
  {
    if days >= 1 then days else 1
  }

  /** `now - timedelta(days=days)` as a local date, or None where that raises
      OverflowError (too large a `timedelta`, or a date outside 0001..9999). */
  function LookbackDate(now: int, offsetHours: int, days: int): (r: Option<Date>)
    requires InDatetimeRange(now, offsetHours)
    ensures r.Some? <==> -MaxTimedeltaDays <= days <= MaxTimedeltaDays
                         && 1 <= LocalOrdinal(now, offsetHours) - days <= MaxOrdinal
    ensures r.Some? ==> ValidDate(r.value) && Ordinal(r.value) == LocalOrdinal(now, offsetHours) - days
  {
    if days < -MaxTimedeltaDays || days > MaxTimedeltaDays then None
    else
      var n := LocalOrdinal(now, offsetHours) - days;
      if 1 <= n <= MaxOrdinal then Some(FromOrdinal(n)) else None
  }

  // ---- period identifiers ----

  /** `date.strftime("daily_%Y_%m_%d")`. */
  function PeriodId(d: Date): (id: string)
    requires ValidDate(d)
    ensures |id| == 16 && id[..6] == "daily_"
  {
    "daily_" + Padded(d.year, 4) + "_" + Padded(d.month, 2) + "_" + Padded(d.day, 2)
  }

  /** Reads a daily period identifier back into its date. */
  function ParsePeriodId(id: string): (r: Option<Date>)
    ensures r.Some? ==> ValidDate(r.value)
  {
    if |id| == 16 && id[..6] == "daily_" && id[10] == '_' && id[13] == '_'
       && AllDigits(id[6..10]) && AllDigits(id[11..13]) && AllDigits(id[14..16])
    then
      var d := Date(Value(id[6..10]), Value(id[11..13]), Value(id[14..16]));
      if ValidDate(d) then Some(d) else None
    else None
  }

  lemma PeriodIdParts(d: Date)
    requires ValidDate(d)
    ensures PeriodId(d)[6..10] == Padded(d.year, 4)
    ensures PeriodId(d)[11..13] == Padded(d.month, 2)
    ensures PeriodId(d)[14..16] == Padded(d.day, 2)
    ensures PeriodId(d)[10] == '_' && PeriodId(d)[13] == '_'
  {
  }

  /** The identifier of a date reads back as that date. */
  lemma ParsePeriodIdOfPeriodId(d: Date)
    requires ValidDate(d)
    ensures ParsePeriodId(PeriodId(d)) == Some(d)
  {
    PeriodIdParts(d);
    ValueOfPadded(d.year, 4);
    ValueOfPadded(d.month, 2);
    ValueOfPadded(d.day, 2);
  }

  /** Every string the parser accepts is the identifier of the date it yields. */
  lemma PeriodIdOfParsePeriodId(id: string)
    requires ParsePeriodId(id).Some?
    ensures PeriodId(ParsePeriodId(id).value) == id
  {
    var d := ParsePeriodId(id).value;
    ParsedFields(id);
    var p := PeriodId(d);
    PeriodIdParts(d);
    ValueOfPadded(d.year, 4);
    ValueOfPadded(d.month, 2);
    ValueOfPadded(d.day, 2);
    ValueInjective(p[6..10], id[6..10]);
    ValueInjective(p[11..13], id[11..13]);
    ValueInjective(p[14..16], id[14..16]);
    SameSegments(p, id);
  }

  /** What the parser checked of an identifier it accepts, and the date it read. */
  lemma ParsedFields(id: string)
    requires ParsePeriodId(id).Some?
    ensures |id| == 16 && id[..6] == "daily_" && id[10] == '_' && id[13] == '_'
    ensures AllDigits(id[6..10]) && AllDigits(id[11..13]) && AllDigits(id[14..16])
    ensures ParsePeriodId(id).value == Date(Value(id[6..10]), Value(id[11..13]), Value(id[14..16]))
  {
  }

  /** Two 16-character identifiers with the same fields and separators are equal. */
  lemma SameSegments(p: string, q: string)
    requires |p| == 16 && |q| == 16
    requires p[..6] == q[..6] && p[6..10] == q[6..10] && p[11..13] == q[11..13] && p[14..16] == q[14..16]
    requires p[10] == q[10] && p[13] == q[13]
    ensures p == q
  {
    forall i | 0 <= i < 16
      ensures p[i] == q[i]
    {
      if i < 6 {
        assert p[i] == p[..6][i];
        assert q[i] == q[..6][i];
      } else if 6 <= i < 10 {
        assert p[i] == p[6..10][i - 6];
        assert q[i] == q[6..10][i - 6];
      } else if 11 <= i < 13 {
        assert p[i] == p[11..13][i - 11];
        assert q[i] == q[11..13][i - 11];
      } else if 14 <= i {
        assert p[i] == p[14..16][i - 14];
        assert q[i] == q[14..16][i - 14];
      }
    }
  }

  /** Distinct days never share a period identifier. */
  lemma PeriodIdInjective(a: Date, b: Date)
    requires ValidDate(a) && ValidDate(b) && PeriodId(a) == PeriodId(b)
    ensures a == b
  {
    ParsePeriodIdOfPeriodId(a);
    ParsePeriodIdOfPeriodId(b);
  }

  // ---- /lastday ----

  /** What `/lastday` does once the player and the tier limit are known. */
  datatype LastdayOutcome =
    | InvalidLookback(maxLookback: int)              // deeper than the tier allows
    | NumberTooBig                                   // the date subtraction overflowed
    | Lookup(depth: int, date: Date, period: string) // read the stored period `period`

  function Lastday(maxLookback: int, days: int, cfg: ResetTime, now: int): (r: LastdayOutcome)
    requires ValidResetTime(cfg) && InDatetimeRange(now, cfg.gmtOffset)
    ensures r.InvalidLookback? <==> LookbackRejected(maxLookback, days)
    ensures r.InvalidLookback? ==> r.maxLookback == maxLookback
    ensures r.NumberTooBig? <==> (!LookbackRejected(maxLookback, days)
                                 && LocalOrdinal(now, cfg.gmtOffset) - ClampDepth(days) < 1)
    ensures r.Lookup? ==> r.depth >= 1 && r.depth == ClampDepth(days)
    ensures r.Lookup? ==> ValidDate(r.date)
                          && Ordinal(r.date) == LocalOrdinal(now, cfg.gmtOffset) - r.depth
                          && r.period == PeriodId(r.date)
  {
    if LookbackRejected(maxLookback, days) then InvalidLookback(maxLookback)
    else
      var depth := ClampDepth(days);
      match LookbackDate(now, cfg.gmtOffset, depth)
      case None => NumberTooBig
      case Some(d) => Lookup(depth, d, PeriodId(d))
  }

  /** An unlimited tier (-1) never rejects a depth. */
  lemma UnlimitedNeverRejects(days: int, cfg: ResetTime, now: int)
    requires ValidResetTime(cfg) && InDatetimeRange(now, cfg.gmtOffset)
    ensures !Lastday(-1, days, cfg, now).InvalidLookback?
  {
  }

  /** A depth of zero or less passes any limit of -1 or more and reads yesterday. */
  lemma NonPositiveDepthReadsYesterday(maxLookback: int, days: int, cfg: ResetTime, now: int)
    requires ValidResetTime(cfg) && InDatetimeRange(now, cfg.gmtOffset)
    requires maxLookback >= -1 && days <= 0
    ensures var r := Lastday(maxLookback, days, cfg, now);
            !r.InvalidLookback? && (r.Lookup? ==> r.depth == 1)
  {
  }

  /** The period read depends on the offset, the instant and the depth only: the
      configured reset hour plays no part. */
  lemma LastdayIgnoresResetHour(maxLookback: int, days: int, cfg1: ResetTime, cfg2: ResetTime, now: int)
    requires ValidResetTime(cfg1) && ValidResetTime(cfg2) && InDatetimeRange(now, cfg1.gmtOffset)
    requires cfg1.gmtOffset == cfg2.gmtOffset
    ensures Lastday(maxLookback, days, cfg1, now) == Lastday(maxLookback, days, cfg2, now)
  {
  }

  /** Two instants on the same local day read the same period. */
  lemma LastdaySameLocalDay(maxLookback: int, days: int, cfg: ResetTime, t1: int, t2: int)
    requires ValidResetTime(cfg) && InDatetimeRange(t1, cfg.gmtOffset)
    requires LocalOrdinal(t1, cfg.gmtOffset) == LocalOrdinal(t2, cfg.gmtOffset)
    ensures Lastday(maxLookback, days, cfg, t1) == Lastday(maxLookback, days, cfg, t2)
  {
    var depth := ClampDepth(days);
    assert LookbackDate(t1, cfg.gmtOffset, depth) == LookbackDate(t2, cfg.gmtOffset, depth);
  }

  /** A request for 10 days back on a tier limited to 7 is rejected. */
  lemma TierOfSevenRejectsTen(cfg: ResetTime, now: int)
    requires ValidResetTime(cfg) && InDatetimeRange(now, cfg.gmtOffset)
    ensures Lastday(7, 10, cfg, now) == InvalidLookback(7)
  {
  }
}
