/** The losing streak of the current trading day, as the hard stop counts it. */
module LosingStreak {
  import opened Sorting
  import opened TradingDay

  /** A journaled setup with its decision and outcome; `stopped` is an `sl_hit` exit. */
  datatype Trade = Trade(time: int, taken: bool, stopped: bool)

  function TimeOf(): (Trade -> int) { (t: Trade) => t.time }

  /** The taken trades inside the range. */
  function TakenIn(trades: seq<Trade>, range: (int, int)): seq<Trade> {
    if trades == [] then []
    else if trades[0].taken && Inside(range, trades[0].time) then [trades[0]] + TakenIn(trades[1..], range)
    else TakenIn(trades[1..], range)
  }

  /** The taken trades of a trading day, latest first. */
  function TakenOn(trades: seq<Trade>, offset: Offset, day: int): seq<Trade> {
    StableSort(TakenIn(trades, DayRange(offset, day)), LatestFirst(TimeOf()))
  }

  /** `_consecutive_sl_today`. */
  method ConsecutiveSlToday(trades: seq<Trade>, offset: Offset, day: int) returns (streak: nat)
    ensures var today := TakenOn(trades, offset, day);
            && streak <= |today|
            && (forall i :: 0 <= i < streak ==> today[i].stopped)
            && (streak < |today| ==> !today[streak].stopped)
  {
    var today := TakenOn(trades, offset, day);
    streak := 0;
    while streak < |today|
      invariant streak <= |today| && forall i :: 0 <= i < streak ==> today[i].stopped
    {
      if !today[streak].stopped {
        break;
      }
      streak := streak + 1;
    }
  }

  lemma {:induction false} TakenInMembers(trades: seq<Trade>, range: (int, int), t: Trade)
    ensures t in TakenIn(trades, range) <==> t in trades && t.taken && Inside(range, t.time)
  {
    if trades != [] {
      TakenInMembers(trades[1..], range, t);
    }
  }

  lemma {:induction false} TakenInCounts(trades: seq<Trade>, range: (int, int), t: Trade)
    ensures multiset(TakenIn(trades, range))[t]
            == if t.taken && range.0 <= t.time < range.1 then multiset(trades)[t] else 0
  {
    if trades != [] {
      TakenInCounts(trades[1..], range, t);
      assert trades == [trades[0]] + trades[1..];
    }
  }

  /** No trade of the day is dropped or counted twice. */
  lemma TakenOnCounts(trades: seq<Trade>, offset: Offset, day: int, t: Trade)
    requires ParisLike(offset)
    ensures multiset(TakenOn(trades, offset, day))[t]
            == if t.taken && ParisLocalDate(offset, t.time) == day then multiset(trades)[t] else 0
  {
    StableSortPermutes(TakenIn(trades, DayRange(offset, day)), LatestFirst(TimeOf()));
    TakenInCounts(trades, DayRange(offset, day), t);
    DaysTileTheLine(offset, t.time, day);
  }

  /** The list counted is the day's: exactly the taken trades with that Paris trading date, latest first. */
  lemma TakenOnIsTheDay(trades: seq<Trade>, offset: Offset, day: int)
    requires ParisLike(offset)
    ensures var today := TakenOn(trades, offset, day);
            && (forall t :: t in today <==> t in trades && t.taken && ParisLocalDate(offset, t.time) == day)
            && forall i, j :: 0 <= i < j < |today| ==> today[j].time <= today[i].time
  {
    var taken, today := TakenIn(trades, DayRange(offset, day)), TakenOn(trades, offset, day);
    StableSortMembers(taken, LatestFirst(TimeOf()));
    StableSortSorts(taken, LatestFirst(TimeOf()));
    forall t ensures t in today <==> t in trades && t.taken && ParisLocalDate(offset, t.time) == day {
      TakenInMembers(trades, DayRange(offset, day), t);
      DaysTileTheLine(offset, t.time, day);
    }
    forall i, j | 0 <= i < j < |today| ensures today[j].time <= today[i].time {
      assert LatestFirst(TimeOf())(today[i]) <= LatestFirst(TimeOf())(today[j]);
    }
  }
}
