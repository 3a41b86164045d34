/**
  The trading day that rolls over at 23:00 Paris.  Instants are seconds on the UTC line, days are
  counted from the epoch.  `offset` gives the Paris offset in force at a UTC instant.
*/
module TradingDay {

  const DAY := 86400
  const HOUR_SECONDS := 3600
  const ROLLOVER_HOUR := 23

  type Offset = int -> int

  function DayOf(t: int): int { t / DAY }

  function SecondsOfDay(t: int): int { t % DAY }

  /**
    Paris time: one or two hours ahead of UTC, and the offset only changes in the early hours.
    (Between 03:00 UTC of one day and 00:00 UTC of the next no change happens.)
  */
  ghost predicate ParisLike(offset: Offset) {
    && (forall t: int :: offset(t) == HOUR_SECONDS || offset(t) == 2 * HOUR_SECONDS)
    && (forall t: int, u: int ::
        DayOf(t) == DayOf(u) && SecondsOfDay(t) >= 3 * HOUR_SECONDS && SecondsOfDay(u) >= 3 * HOUR_SECONDS ==>
        offset(t) == offset(u))
  }

  /** Wall-clock seconds in Paris at the instant `t`. */
  function ToParis(offset: Offset, t: int): int { t + offset(t) }

  /** The instant at which the Paris wall clock shows `local`, as `zoneinfo` resolves an unambiguous time. */
  function FromParis(offset: Offset, local: int): int {
    if offset(local - HOUR_SECONDS) == HOUR_SECONDS then local - HOUR_SECONDS else local - 2 * HOUR_SECONDS
  }

  /** `_paris_local_date`: from 23:00 on, the next day's date. */
  function ParisLocalDate(offset: Offset, now: int): int {
    var paris := ToParis(offset, now);
    if SecondsOfDay(paris) / HOUR_SECONDS >= ROLLOVER_HOUR then DayOf(paris) + 1 else DayOf(paris)
  }

  /** 23:00 Paris on `day`, in UTC. */
  function Rollover(offset: Offset, day: int): int {
    FromParis(offset, day * DAY + ROLLOVER_HOUR * HOUR_SECONDS)
  }

  /** `_today_rollover_utc`. */
  function TodayRollover(offset: Offset, now: int): int {
    Rollover(offset, ParisLocalDate(offset, now) - 1)
  }

  /** `_paris_day_to_utc_range`: inclusive start, exclusive end. */
  function DayRange(offset: Offset, day: int): (int, int) {
    (Rollover(offset, day - 1), Rollover(offset, day))
  }

  predicate Inside(range: (int, int), t: int) { range.0 <= t < range.1 }

  // ---- the rollover instant -------------------------------------------------------------------------

  /** At the rollover the clock in Paris shows 23:00 of that day, and no other instant shows it. */
  lemma RolloverShows2300(offset: Offset, day: int)
    requires ParisLike(offset)
    ensures forall t: int :: t + offset(t) == day * 86400 + 23 * 3600 <==> t == Rollover(offset, day)
  {
    var local := day * DAY + ROLLOVER_HOUR * HOUR_SECONDS;
    var winter, summer := local - HOUR_SECONDS, local - 2 * HOUR_SECONDS;
    SameDay(day, 22 * HOUR_SECONDS);
    SameDay(day, 21 * HOUR_SECONDS);
    assert offset(winter) == offset(summer);
  }

  lemma SameDay(day: int, s: int)
    requires 0 <= s < DAY
    ensures DayOf(day * DAY + s) == day && SecondsOfDay(day * DAY + s) == s
  {
  }

  /** Instants before and after the rollover lie before and after 23:00 on the Paris clock. */
  lemma RolloverOrders(offset: Offset, day: int, t: int)
    requires ParisLike(offset)
    ensures t < Rollover(offset, day) <==> ToParis(offset, t) < day * DAY + ROLLOVER_HOUR * HOUR_SECONDS
  {
    RolloverShows2300(offset, day);
    assert ToParis(offset, Rollover(offset, day)) == day * DAY + ROLLOVER_HOUR * HOUR_SECONDS;
    var local, r := day * DAY + ROLLOVER_HOUR * HOUR_SECONDS, Rollover(offset, day);
    var s := t - day * DAY;
    if 3 * HOUR_SECONDS <= s < DAY {
      SameDay(day, s);
      SameDay(day, r - day * DAY);
      assert offset(t) == offset(r);
    }
  }

  /** The trading date of an instant is the day whose 23:00 comes next on the Paris clock. */
  lemma ParisLocalDateIs(offset: Offset, t: int, day: int)
    ensures day == ParisLocalDate(offset, t)
            <==> (day - 1) * 86400 + 23 * 3600 <= t + offset(t) < day * 86400 + 23 * 3600
  {
    ClockDay(ToParis(offset, t));
  }

  // ---- the days tile the line -------------------------------------------------------------------------

  /** Each day's range ends where the next one starts, and is not empty. */
  lemma RangesAreConsecutive(offset: Offset, day: int)
    requires ParisLike(offset)
    ensures DayRange(offset, day).1 == DayRange(offset, day + 1).0 && DayRange(offset, day).0 < DayRange(offset, day).1
  {
    RolloverShows2300(offset, day - 1);
    RolloverShows2300(offset, day);
  }

  lemma ClockDay(paris: int)
    ensures var day := if SecondsOfDay(paris) / HOUR_SECONDS >= ROLLOVER_HOUR then DayOf(paris) + 1 else DayOf(paris);
            (day - 1) * DAY + ROLLOVER_HOUR * HOUR_SECONDS <= paris < day * DAY + ROLLOVER_HOUR * HOUR_SECONDS
  {
    assert paris == DayOf(paris) * DAY + SecondsOfDay(paris);
  }

  /** Every instant lies in exactly one day's range: that of its Paris trading date. */
  lemma DaysTileTheLine(offset: Offset, t: int, day: int)
    requires ParisLike(offset)
    ensures DayRange(offset, day).0 <= t < DayRange(offset, day).1 <==> day == ParisLocalDate(offset, t)
  {
    var today, paris := ParisLocalDate(offset, t), ToParis(offset, t);
    ClockDay(paris);
    RolloverOrders(offset, day - 1, t);
    RolloverOrders(offset, day, t);
  }

  /** Today's rollover is the start of the range that holds the instant, hence not after it. */
  lemma TodayRolloverStartsTheDay(offset: Offset, t: int)
    requires ParisLike(offset)
    ensures TodayRollover(offset, t) == DayRange(offset, ParisLocalDate(offset, t)).0 <= t
    ensures forall u :: TodayRollover(offset, t) <= u <= t ==> ParisLocalDate(offset, u) == ParisLocalDate(offset, t)
  {
    var today := ParisLocalDate(offset, t);
    DaysTileTheLine(offset, t, today);
    forall u | TodayRollover(offset, t) <= u <= t ensures ParisLocalDate(offset, u) == today {
      DaysTileTheLine(offset, u, today);
    }
  }
}
