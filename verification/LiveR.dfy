/** Realised R of a live position, and how it compares with the simulator's R. */
module LiveR {
  import opened Foundations
  import opened Sorting
  import Simulator

  type Direction = Simulator.Direction

  /** The `orders` row fields that R is computed from. */
  datatype Order = Order(direction: Direction, volume: real, entry: real, stop: real)

  /** A broker deal: `isExit` is DEAL_ENTRY_OUT. */
  datatype Deal = Deal(position: int, isExit: bool, time: int, price: real, volume: real, profit: real)

  datatype CloseInfo = CloseInfo(exitPrice: real, exitTime: int, profit: real)

  // ---- the history of one position ----------------------------------------------------------------

  function SumProfit(deals: seq<Deal>): real {
    if deals == [] then 0.0 else deals[0].profit + SumProfit(deals[1..])
  }

  function ExitsOf(deals: seq<Deal>, ticket: int): seq<Deal> {
    if deals == [] then []
    else if deals[0].position == ticket && deals[0].isExit then [deals[0]] + ExitsOf(deals[1..], ticket)
    else ExitsOf(deals[1..], ticket)
  }

  function DealTime(): (Deal -> real) { (d: Deal) => d.time as real }

  lemma {:induction false} InsertKeepsProfit(d: Deal, s: seq<Deal>)
    ensures SumProfit(Insert(d, s, DealTime())) == d.profit + SumProfit(s)
  {
    var key := DealTime();
    if s == [] || key(d) <= key(s[0]) {
      assert Insert(d, s, key) == [d] + s;
      assert ([d] + s)[1..] == s;
    } else {
      InsertKeepsProfit(d, s[1..]);
      assert Insert(d, s, key)[1..] == Insert(d, s[1..], key);
    }
  }

  lemma {:induction false} SortKeepsProfit(s: seq<Deal>)
    ensures SumProfit(StableSort(s, DealTime())) == SumProfit(s)
  {
    if s != [] {
      SortKeepsProfit(s[1..]);
      InsertKeepsProfit(s[0], StableSort(s[1..], DealTime()));
    }
  }

  /** Price and time are those of the latest exit, the last listed of several at one time. */
  ghost predicate LastExit(exits: seq<Deal>, info: CloseInfo) {
    exists k :: IsLast(exits, k) && info.exitPrice == exits[k].price && info.exitTime == exits[k].time
  }

  ghost predicate IsLast(exits: seq<Deal>, k: int) {
    && 0 <= k < |exits|
    && forall j :: 0 <= j < |exits| ==> exits[j].time <= exits[k].time && (j > k ==> exits[j].time < exits[k].time)
  }

  lemma {:induction false} InsertedLast(d: Deal, s: seq<Deal>)
    requires SortedBy(s, DealTime())
    ensures var t := Insert(d, s, DealTime());
            t[|t| - 1] == if s == [] || s[|s| - 1].time < d.time then d else s[|s| - 1]
  {
    var key := DealTime();
    if s != [] {
      LastIsGreatest(s, key, s[0]);
      if key(d) > key(s[0]) {
        InsertedLast(d, s[1..]);
        assert Insert(d, s, key) == [s[0]] + Insert(d, s[1..], key);
      } else {
        assert Insert(d, s, key) == [d] + s;
      }
    }
  }

  lemma {:induction false} LastIsLatest(found: seq<Deal>) returns (k: int)
    requires found != []
    ensures IsLast(found, k) && StableSort(found, DealTime())[|found| - 1] == found[k]
  {
    if |found| == 1 {
      assert StableSort(found[1..], DealTime()) == [];
      k := 0;
    } else {
      var rest := found[1..];
      var j := LastIsLatest(rest);
      StableSortSorts(rest, DealTime());
      InsertedLast(found[0], StableSort(rest, DealTime()));
      k := if rest[j].time < found[0].time then 0 else j + 1;
      assert forall i :: 0 < i < |found| ==> found[i] == rest[i - 1];
    }
  }

  /** `get_position_close_info`: the last exit's price, the sum of all exits' profits. */
  method GetPositionCloseInfo(deals: seq<Deal>, ticket: int) returns (info: Option<CloseInfo>)
    ensures info.None? <==> ExitsOf(deals, ticket) == []
    ensures info.Some? ==> info.value.profit == SumProfit(ExitsOf(deals, ticket))
    ensures info.Some? ==> LastExit(ExitsOf(deals, ticket), info.value)
  {
    var found := ExitsOf(deals, ticket);
    if |found| == 0 {
      return None;
    }
    var exits := StableSort(found, DealTime());
    SortKeepsProfit(found);
    ghost var k := LastIsLatest(found);
    var last := exits[|exits| - 1];
    var profit := 0.0;
    for k := 0 to |exits|
      invariant profit + SumProfit(exits[k..]) == SumProfit(exits)
    {
      assert exits[k..][1..] == exits[k + 1..];
      profit := profit + exits[k].profit;
    }
    info := Some(CloseInfo(last.price, last.time, profit));
  }

  // ---- realised R ---------------------------------------------------------------------------------

  function Risk(o: Order): real { Abs(o.entry - o.stop) }

  /** Gain in price at `exit`, in the order's direction. */
  function Move(o: Order, exit: real): real {
    if o.direction.Short? then -(exit - o.entry) else exit - o.entry
  }

  /** `_realized_r`; `contract` is absent when the symbol could not be read. */
  function RealizedR(o: Order, exit: real, profit: Option<real>, contract: Option<real>): real {
    if Risk(o) <= 0.0 then 0.0
    else if profit.Some? && contract.Some? && contract.value > 0.0
        && Mul(Mul(Risk(o), o.volume), contract.value) > 0.0 then
      Quotient(profit.value, Mul(Mul(Risk(o), o.volume), contract.value))
    else Quotient(Move(o, exit), Risk(o))
  }

  // ---- profit-based R is the volume-weighted mean of the exits' R -----------------------------------

  /** What the broker books for closing `volume` lots at `price`. */
  function BookedProfit(o: Order, contract: real, price: real, volume: real): real {
    Mul(Move(o, price), Mul(volume, contract))
  }

  /** Sum over the exits of (volume share) times (R at that exit). */
  function WeightedR(o: Order, exits: seq<Deal>): real
    requires Risk(o) > 0.0 && o.volume > 0.0
  {
    if exits == [] then 0.0
    else Mul(Quotient(exits[0].volume, o.volume), Quotient(Move(o, exits[0].price), Risk(o))) + WeightedR(o, exits[1..])
  }

  function SumVolume(exits: seq<Deal>): real {
    if exits == [] then 0.0 else exits[0].volume + SumVolume(exits[1..])
  }

  /** The sum of the weights. */
  function SumShare(o: Order, exits: seq<Deal>): real
    requires o.volume > 0.0
  {
    if exits == [] then 0.0 else Quotient(exits[0].volume, o.volume) + SumShare(o, exits[1..])
  }

  lemma {:induction false} SharesAreVolumes(o: Order, exits: seq<Deal>)
    requires o.volume > 0.0
    ensures Mul(SumShare(o, exits), o.volume) == SumVolume(exits)
  {
    if exits != [] {
      SharesAreVolumes(o, exits[1..]);
      MulQuotient(exits[0].volume, o.volume);
      MulSum(Quotient(exits[0].volume, o.volume), SumShare(o, exits[1..]), o.volume);
    }
  }

  /** The weights sum to one exactly when the exits close the whole order. */
  lemma SharesSumToOneIff(o: Order, exits: seq<Deal>)
    requires o.volume > 0.0
    ensures SumShare(o, exits) == 1.0 <==> SumVolume(exits) == o.volume
  {
    SharesAreVolumes(o, exits);
    MulQuotient(SumShare(o, exits), o.volume);
    MulQuotient(1.0, o.volume);
    assert Mul(1.0, o.volume) == o.volume;
  }

  /** Every exit of positive volume has its R between the bounds. */
  ghost predicate ExitsBetween(o: Order, exits: seq<Deal>, low: real, high: real)
    requires Risk(o) > 0.0
  {
    forall k :: 0 <= k < |exits| ==> exits[k].volume > 0.0 && low <= Quotient(Move(o, exits[k].price), Risk(o)) <= high
  }

  lemma ShareBetween(share: real, r: real, low: real, high: real)
    requires share > 0.0 && low <= r <= high
    ensures Mul(low, share) <= Mul(share, r) <= Mul(high, share)
  {
    MulMonotone(low, r, share);
    MulMonotone(r, high, share);
    assert Mul(share, r) == Mul(r, share);
  }

  lemma {:induction false} WeightedBetween(o: Order, exits: seq<Deal>, low: real, high: real)
    requires Risk(o) > 0.0 && o.volume > 0.0 && ExitsBetween(o, exits, low, high)
    ensures Mul(low, SumShare(o, exits)) <= WeightedR(o, exits) <= Mul(high, SumShare(o, exits))
  {
    if exits == [] {
      assert Mul(low, 0.0) == 0.0 && Mul(high, 0.0) == 0.0;
    } else {
      var share, rest := Quotient(exits[0].volume, o.volume), SumShare(o, exits[1..]);
      WeightedBetween(o, exits[1..], low, high);
      assert share > 0.0 by {
        assert exits[0].volume / o.volume > 0.0;
      }
      ShareBetween(share, Quotient(Move(o, exits[0].price), Risk(o)), low, high);
      MulSum(share, rest, low);
      MulSum(share, rest, high);
    }
  }

  /** Live R of a fully closed position lies between the R of its worst and of its best exit. */
  lemma RealizedRBetweenExits(o: Order, contract: real, exits: seq<Deal>, exit: real, low: real, high: real)
    requires Risk(o) > 0.0 && o.volume > 0.0 && contract > 0.0 && SumVolume(exits) == o.volume
    requires forall k ::
               0 <= k < |exits| ==> exits[k].profit == BookedProfit(o, contract, exits[k].price, exits[k].volume)
    requires ExitsBetween(o, exits, low, high)
    ensures low <= RealizedR(o, exit, Some(SumProfit(exits)), Some(contract)) <= high
  {
    RealizedRIsWeightedMean(o, contract, exits, exit);
    WeightedBetween(o, exits, low, high);
    SharesSumToOneIff(o, exits);
    assert Mul(low, 1.0) == low && Mul(high, 1.0) == high;
  }

  lemma OneExit(o: Order, contract: real, price: real, volume: real)
    requires Risk(o) > 0.0 && o.volume > 0.0 && contract > 0.0
    ensures Mul(Mul(Risk(o), o.volume), contract) > 0.0
    ensures BookedProfit(o, contract, price, volume)
            == Mul(Mul(Quotient(volume, o.volume), Quotient(Move(o, price), Risk(o))),
                   Mul(Mul(Risk(o), o.volume), contract))
  {
    var m, r, v, k := Move(o, price), Risk(o), o.volume, contract;
    assert r * v > 0.0;
    assert (r * v) * k > 0.0;
    assert (volume / v) * v == volume && (m / r) * r == m;
    calc {
      ((volume / v) * (m / r)) * ((r * v) * k);
      ((volume / v) * v) * ((m / r) * r) * k;
      volume * m * k;
      m * (volume * k);
    }
  }

  lemma {:induction false} ProfitIsWeighted(o: Order, contract: real, exits: seq<Deal>)
    requires Risk(o) > 0.0 && o.volume > 0.0 && contract > 0.0
    requires forall k ::
               0 <= k < |exits| ==> exits[k].profit == BookedProfit(o, contract, exits[k].price, exits[k].volume)
    ensures SumProfit(exits) == Mul(WeightedR(o, exits), Mul(Mul(Risk(o), o.volume), contract))
  {
    if exits != [] {
      OneExit(o, contract, exits[0].price, exits[0].volume);
      ProfitIsWeighted(o, contract, exits[1..]);
      var share, rest :=
          Mul(Quotient(exits[0].volume, o.volume), Quotient(Move(o, exits[0].price), Risk(o))),
          WeightedR(o, exits[1..]);
      MulSum(share, rest, Mul(Mul(Risk(o), o.volume), contract));
    }
  }

  lemma MulZero(x: real, y: real)
    ensures Mul(x, y) == 0.0 <==> x == 0.0 || y == 0.0
  {
  }

  /**
    For any number of partial exits, profit-based R is the sum of the exits' own R values weighted by
    their volume shares, whether or not they close the whole order; when they do, it is their mean.
    It does not depend on the last exit's price.
  */
  lemma {:induction false} RealizedRIsWeightedMean(o: Order, contract: real, exits: seq<Deal>, exit: real)
    requires Risk(o) > 0.0 && o.volume > 0.0 && contract > 0.0
    requires forall k ::
               0 <= k < |exits| ==> exits[k].profit == BookedProfit(o, contract, exits[k].price, exits[k].volume)
    ensures RealizedR(o, exit, Some(SumProfit(exits)), Some(contract)) == WeightedR(o, exits)
    ensures SumShare(o, exits) == 1.0 <==> SumVolume(exits) == o.volume
  {
    SharesSumToOneIff(o, exits);
    OneExit(o, contract, 0.0, 0.0);
    ProfitIsWeighted(o, contract, exits);
    MulQuotient(WeightedR(o, exits), Mul(Mul(Risk(o), o.volume), contract));
  }

  // ---- against the simulator --------------------------------------------------------------------------

  /** The plan's prices sit at the R multiples it names. */
  ghost predicate PricesAtRR(o: Order, p: Simulator.Plan) {
    && o.direction == p.direction && o.entry == p.entry && o.stop == p.stop
    && Move(o, p.tp1) == Mul(p.tp1RR, Risk(o)) && Move(o, p.tpRunner) == Mul(p.tpRunnerRR, Risk(o))
  }

  /** TP1 closes the fraction `f`, the rest leaves at `last`. */
  function TwoExits(o: Order, contract: real, f: real, tp1: real, last: real): seq<Deal> {
    var a, b := Mul(f, o.volume), Mul(1.0 - f, o.volume);
    [Deal(0, true, 0, tp1, a, BookedProfit(o, contract, tp1, a)),
     Deal(0, true, 1, last, b, BookedProfit(o, contract, last, b))]
  }

  lemma TwoExitsR(o: Order, contract: real, f: real, tp1: real, last: real)
    requires Risk(o) > 0.0 && o.volume > 0.0 && contract > 0.0
    ensures RealizedR(o, last, Some(SumProfit(TwoExits(o, contract, f, tp1, last))), Some(contract))
            == Mul(f, Quotient(Move(o, tp1), Risk(o))) + Mul(1.0 - f, Quotient(Move(o, last), Risk(o)))
  {
    var exits := TwoExits(o, contract, f, tp1, last);
    RealizedRIsWeightedMean(o, contract, exits, last);
    MulQuotient(f, o.volume);
    MulQuotient(1.0 - f, o.volume);
    assert exits[1..] == [exits[1]] && exits[1..][1..] == [];
    assert WeightedR(o, exits) == Mul(f, Quotient(Move(o, tp1), Risk(o))) + WeightedR(o, exits[1..]);
    assert WeightedR(o, exits[1..]) == Mul(1.0 - f, Quotient(Move(o, last), Risk(o))) + WeightedR(o, exits[1..][1..]);
  }

  /**
    With the fraction `f` closed at TP1 and the rest at the runner, live R equals the simulator's R
    exactly when `f` is one half or both targets carry the same R.
  */
  lemma RunnerAgreesIff(o: Order, p: Simulator.Plan, contract: real, f: real)
    requires Risk(o) > 0.0 && o.volume > 0.0 && contract > 0.0 && PricesAtRR(o, p)
    ensures RealizedR(o, p.tpRunner, Some(SumProfit(TwoExits(o, contract, f, p.tp1, p.tpRunner))), Some(contract))
            == Simulator.StrictR(p, Simulator.TpRunnerHit)
            <==> f == 0.5 || p.tp1RR == p.tpRunnerRR
  {
    TwoExitsR(o, contract, f, p.tp1, p.tpRunner);
    MulQuotient(p.tp1RR, Risk(o));
    MulQuotient(p.tpRunnerRR, Risk(o));
    assert Mul(f, p.tp1RR) + Mul(1.0 - f, p.tpRunnerRR) - Simulator.BlendedR(p) == Mul(f - 0.5, p.tp1RR - p.tpRunnerRR);
    MulZero(f - 0.5, p.tp1RR - p.tpRunnerRR);
  }

  /** The exits of a position half closed at TP1 whose second half leaves at `last`. */
  function StoppedR(o: Order, p: Simulator.Plan, contract: real, last: real): real {
    RealizedR(o, last, Some(SumProfit(TwoExits(o, contract, 0.5, p.tp1, last))), Some(contract))
  }

  lemma StoppedRIs(o: Order, p: Simulator.Plan, contract: real, last: real)
    requires Risk(o) > 0.0 && o.volume > 0.0 && contract > 0.0 && PricesAtRR(o, p)
    ensures StoppedR(o, p, contract, last)
            == Simulator.StrictR(p, Simulator.Tp1HitOnly) + Mul(0.5, Quotient(Move(o, last), Risk(o)) + 1.0)
  {
    TwoExitsR(o, contract, 0.5, p.tp1, last);
    MulQuotient(p.tp1RR, Risk(o));
  }

  /**
    When the second half is stopped the simulator books a full loss on it.  Live R is the same exactly
    when that half leaves at the plan's stop; the live lifecycle has moved the stop to the entry, where
    it realises half an R more.
  */
  lemma StoppedRunnerAgreesIff(o: Order, p: Simulator.Plan, contract: real, last: real)
    requires Risk(o) > 0.0 && o.volume > 0.0 && contract > 0.0 && PricesAtRR(o, p) && Move(o, p.stop) == -Risk(o)
    ensures StoppedR(o, p, contract, last) == Simulator.StrictR(p, Simulator.Tp1HitOnly) <==> last == p.stop
    ensures StoppedR(o, p, contract, p.entry) == Simulator.StrictR(p, Simulator.Tp1HitOnly) + 0.5
  {
    StoppedRIs(o, p, contract, last);
    StoppedRIs(o, p, contract, p.entry);
    MulQuotient(Quotient(Move(o, last), Risk(o)), Risk(o));
    MulQuotient(Move(o, last), Risk(o));
    MulQuotient(-1.0, Risk(o));
    MulQuotient(0.0, Risk(o));
    assert Mul(-1.0, Risk(o)) == -Risk(o) && Mul(0.0, Risk(o)) == 0.0;
    assert last == p.stop <==> Move(o, last) == -Risk(o);
  }

  // ---- R in terms of prices ------------------------------------------------------------------------------

  /** The exits counted are the exit deals of this ticket, each as often as the history has it. */
  lemma {:induction false} ExitsAre(deals: seq<Deal>, ticket: int, d: Deal)
    ensures multiset(ExitsOf(deals, ticket))[d]
            == if d.position == ticket && d.isExit then multiset(deals)[d] else 0
  {
    if deals != [] {
      ExitsAre(deals[1..], ticket, d);
      assert deals == [deals[0]] + deals[1..];
    }
  }

  /** The profit reported is the sum over those exits. */
  lemma {:induction false} SumProfitIs(deals: seq<Deal>)
    ensures SumProfit(deals) == Sum(seq(|deals|, i requires 0 <= i < |deals| => deals[|deals| - 1 - i].profit))
  {
    var all := seq(|deals|, i requires 0 <= i < |deals| => deals[|deals| - 1 - i].profit);
    if deals != [] {
      var rest := deals[1..];
      SumProfitIs(rest);
      assert all[..|deals| - 1] == seq(|rest|, i requires 0 <= i < |rest| => rest[|rest| - 1 - i].profit);
      TotalOfPrefix(all, |deals| - 1, |deals| - 1);
    }
  }

  /**
    Live R is the profit over the money at risk when both are known, and otherwise the price move in the
    trade's direction over the distance to the stop.
  */
  lemma RealizedRIs(o: Order, exit: real, profit: Option<real>, contract: Option<real>)
    ensures var r, distance := RealizedR(o, exit, profit, contract), Abs(o.entry - o.stop);
            if o.entry == o.stop then r == 0.0
            else if profit.Some? && contract.Some? && contract.value > 0.0 && o.volume > 0.0 then
              Mul(r, Mul(Mul(distance, o.volume), contract.value)) == profit.value
            else Mul(r, distance) == if o.direction.Long? then exit - o.entry else o.entry - exit
  {
    if o.entry != o.stop {
      if profit.Some? && contract.Some? && contract.value > 0.0 {
        var money := Mul(Mul(Risk(o), o.volume), contract.value);
        MoneySign(Risk(o), o.volume, contract.value);
        if money > 0.0 {
          MulQuotient(profit.value, money);
        } else {
          MulQuotient(Move(o, exit), Risk(o));
        }
      } else {
        MulQuotient(Move(o, exit), Risk(o));
      }
    }
  }

  lemma MoneySign(risk: real, volume: real, contract: real)
    requires risk > 0.0 && contract > 0.0
    ensures Mul(Mul(risk, volume), contract) > 0.0 <==> volume > 0.0
  {
    if volume > 0.0 {
      assert risk * volume > 0.0;
      assert (risk * volume) * contract > 0.0;
    } else {
      assert risk * volume <= 0.0;
      assert (risk * volume) * contract <= 0.0;
    }
  }

  /** The stop lies on the losing side of the entry. */
  predicate StopBehind(o: Order) {
    if o.direction.Long? then o.stop < o.entry else o.entry < o.stop
  }

  /** A position closed whole at its stop loses one R, live as in the simulator; at its entry it makes none. */
  lemma StoppedOutAgrees(o: Order, p: Simulator.Plan, contract: real)
    requires o.volume > 0.0 && contract > 0.0 && StopBehind(o)
    ensures WholeExitR(o, contract, o.stop) == Simulator.StrictR(p, Simulator.SlHit) == -1.0
    ensures WholeExitR(o, contract, o.entry) == 0.0
    ensures forall price :: Mul(WholeExitR(o, contract, price), Abs(o.entry - o.stop))
                            == if o.direction.Long? then price - o.entry else o.entry - price
  {
    forall price ensures WholeExitR(o, contract, price) == Quotient(Move(o, price), Risk(o)) {
      var exits := [Deal(0, true, 0, price, o.volume, BookedProfit(o, contract, price, o.volume))];
      RealizedRIsWeightedMean(o, contract, exits, price);
      assert exits[1..] == [];
      MulQuotient(1.0, o.volume);
      assert Quotient(o.volume, o.volume) == 1.0;
      assert Mul(1.0, Quotient(Move(o, price), Risk(o))) == Quotient(Move(o, price), Risk(o));
    }
    MulQuotient(-1.0, Risk(o));
    assert Mul(-1.0, Risk(o)) == -Risk(o);
    forall price ensures Mul(Quotient(Move(o, price), Risk(o)), Risk(o)) == Move(o, price) {
      MulQuotient(Move(o, price), Risk(o));
    }
  }

  /** Live R of a single exit that closes the whole order at `price`. */
  function WholeExitR(o: Order, contract: real, price: real): real {
    var exits := [Deal(0, true, 0, price, o.volume, BookedProfit(o, contract, price, o.volume))];
    RealizedR(o, price, Some(SumProfit(exits)), Some(contract))
  }
}
