/** Lot size for a risk budget: floor to the broker's step, clamp, round to the step's decimals. */
module PositionSizing {
  import opened Foundations

  datatype Symbol = Symbol(contract: real, step: real, vmin: real, vmax: real)

  // ---- decimals of the step -----------------------------------------------------------------------

  function Pow10(d: nat): (r: real)
    ensures r >= 1.0
  {
    if d == 0 then 1.0 else 10.0 * Pow10(d - 1)
  }

  lemma InverseShrinks(step: real)
    requires 0.0 < step < 1.0
    ensures 0 <= (1.0 / (10.0 * step)).Floor < (1.0 / step).Floor
  {
    var x := 1.0 / step;
    assert x > 1.0;
    assert 1.0 / (10.0 * step) == x / 10.0;
  }

  /** `max(0, -floor(log10(step)))`: how many places to shift until the step reaches 1. */
  function Digits(step: real): (d: nat)
    requires step > 0.0
    decreases (1.0 / step).Floor
  {
    if step >= 1.0 then 0 else
      InverseShrinks(step);
      1 + Digits(10.0 * step)
  }

  /** The step in units of its last decimal. */
  function Units(step: real): real
    requires step > 0.0
  {
    Mul(step, Pow10(Digits(step)))
  }

  lemma {:induction false} UnitsAtLeastOne(step: real)
    requires step > 0.0
    ensures Units(step) >= 1.0
    decreases (1.0 / step).Floor
  {
    if step < 1.0 {
      InverseShrinks(step);
      UnitsAtLeastOne(10.0 * step);
      assert Mul(step, Pow10(Digits(step))) == Mul(10.0 * step, Pow10(Digits(10.0 * step)));
    }
  }

  /** Python's `round(x, d)`. */
  function Round(x: real, d: nat): real {
    Quotient(Nearest(Mul(x, Pow10(d))) as real, Pow10(d))
  }

  /** The step is a whole number of its last decimal: 0.01, 0.1, 1, but not 0.25. */
  predicate Exact(step: real)
    requires step > 0.0
  {
    Units(step).Floor as real == Units(step)
  }

  // ---- the computation ------------------------------------------------------------------------------

  function RawVolume(risk: real, distance: real, contract: real): real
    requires distance > 0.0 && contract > 0.0
  {
    assert Mul(distance, contract) > 0.0;
    Quotient(risk, Mul(distance, contract))
  }

  function Steps(raw: real, step: real): int
    requires step != 0.0
  {
    Quotient(raw, step).Floor
  }

  function Snapped(raw: real, step: real): real
    requires step != 0.0
  {
    Mul(Steps(raw, step) as real, step)
  }

  function EffectiveStep(sym: Symbol): (step: real)
    ensures step != 0.0
  {
    if sym.step == 0.0 then 0.01 else sym.step
  }

  /** The branches after the snap; a negative step has no logarithm. */
  function Clamp(snapped: real, step: real, vmin: real, vmax: real): Result<real> {
    if snapped < vmin then Ok(vmin)
    else if snapped > vmax then Ok(vmax)
    else if step <= 0.0 then Err("log10")
    else Ok(Round(snapped, Digits(step)))
  }

  /** `compute_volume`. */
  function ComputeVolume(risk: real, distance: real, sym: Symbol): Result<real> {
    if distance <= 0.0 then Err("sl_distance_price")
    else if sym.contract <= 0.0 then Err("trade_contract_size")
    else
      var step := EffectiveStep(sym);
      Clamp(Snapped(RawVolume(risk, distance, sym.contract), step), step, sym.vmin, sym.vmax)
  }

  // ---- rounding is harmless for exact steps -----------------------------------------------------------

  lemma RoundKeepsMultiples(n: int, step: real)
    requires step > 0.0 && Exact(step)
    ensures Round(Mul(n as real, step), Digits(step)) == Mul(n as real, step)
  {
    var p, u := Pow10(Digits(step)), Units(step).Floor;
    var scaled := Mul(Mul(n as real, step), p);
    assert scaled == (n * u) as real by {
      assert scaled == n as real * (step * p);
      assert step * p == u as real;
    }
    assert Nearest(scaled) == n * u;
    assert Quotient(scaled, p) == Mul(n as real, step);
  }

  lemma ExactClamp(n: int, step: real, vmin: real, vmax: real)
    requires step > 0.0 && Exact(step)
    ensures var x := Mul(n as real, step);
            Clamp(x, step, vmin, vmax) == Ok(if x < vmin then vmin else if x > vmax then vmax else x)
  {
    RoundKeepsMultiples(n, step);
  }

  lemma MulAssoc(x: real, y: real, z: real)
    ensures Mul(Mul(x, y), z) == Mul(x, Mul(y, z))
  {
  }

  lemma MulOne(x: real)
    ensures Mul(x, Mul(1.0, 1.0)) == x
  {
  }

  lemma SnapBelow(raw: real, step: real)
    requires step > 0.0
    ensures Snapped(raw, step) <= raw < Snapped(raw, step) + step
  {
    var q := Quotient(raw, step);
    var n := q.Floor as real;
    MulQuotient(raw, step);
    MulMonotone(n, q, step);
    MulMonotone(q, n + 1.0, step);
    MulSum(n, 1.0, step);
    assert Mul(1.0, step) == step;
  }

  lemma RawVolumeSpendsRisk(risk: real, distance: real, contract: real)
    requires distance > 0.0 && contract > 0.0
    ensures Mul(distance, contract) > 0.0 && Mul(RawVolume(risk, distance, contract), Mul(distance, contract)) == risk
  {
  }

  ghost predicate Sizable(distance: real, sym: Symbol) {
    distance > 0.0 && sym.contract > 0.0 && sym.vmin <= sym.vmax && EffectiveStep(sym) > 0.0
        && Exact(EffectiveStep(sym))
  }

  /**
    For an exact step the volume stays within the broker's limits, never risks more than the budget
    unless it is the minimum lot, and leaves less than one step unused unless it is the maximum lot.
  */
  lemma VolumeIsSafe(risk: real, distance: real, sym: Symbol)
    requires Sizable(distance, sym)
    ensures var r := ComputeVolume(risk, distance, sym);
            && r.Ok? && sym.vmin <= r.value <= sym.vmax
            && (r.value == sym.vmin || Mul(r.value, Mul(distance, sym.contract)) <= risk)
            && (r.value == sym.vmax || RawVolume(risk, distance, sym.contract) - r.value < EffectiveStep(sym))
  {
    var step, raw := EffectiveStep(sym), RawVolume(risk, distance, sym.contract);
    ExactClamp(Steps(raw, step), step, sym.vmin, sym.vmax);
    SnapBelow(raw, step);
    RawVolumeSpendsRisk(risk, distance, sym.contract);
    var v := ComputeVolume(risk, distance, sym).value;
    if v != sym.vmin {
      assert v <= raw;
      MulMonotone(v, raw, Mul(distance, sym.contract));
    }
  }

  lemma StepsMonotone(raw: real, raw': real, step: real)
    requires raw <= raw' && step > 0.0
    ensures Snapped(raw, step) <= Snapped(raw', step)
  {
    assert (raw' - raw) / step >= 0.0;
    assert raw / step <= raw' / step;
    MulMonotone(Steps(raw, step) as real, Steps(raw', step) as real, step);
  }

  lemma Cancel(x: real, y: real, z: real)
    requires z > 0.0 && Mul(x, z) <= Mul(y, z)
    ensures x <= y
  {
    if y < x {
      MulMonotone(y, x, z);
    }
  }

  lemma RawMonotone(risk: real, risk': real, distance: real, distance': real, contract: real)
    requires 0.0 <= risk <= risk' && 0.0 < distance' <= distance && contract > 0.0
    ensures RawVolume(risk, distance, contract) <= RawVolume(risk', distance', contract)
  {
    var loss, loss' := Mul(distance, contract), Mul(distance', contract);
    MulMonotone(distance', distance, contract);
    RawVolumeSpendsRisk(risk, distance, contract);
    RawVolumeSpendsRisk(risk', distance', contract);
    var a, b := RawVolume(risk, distance, contract), RawVolume(risk', distance', contract);
    assert b >= 0.0;
    MulSum(loss', loss - loss', b);
    assert Mul(b, loss - loss') >= 0.0;
    Cancel(a, b, loss);
  }

  /** More budget or a closer stop never shrinks the lot. */
  lemma VolumeIsMonotone(risk: real, risk': real, distance: real, distance': real, sym: Symbol)
    requires 0.0 <= risk <= risk' && 0.0 < distance' <= distance && Sizable(distance, sym)
    ensures ComputeVolume(risk, distance, sym).Ok? && ComputeVolume(risk', distance', sym).Ok?
    ensures ComputeVolume(risk, distance, sym).value <= ComputeVolume(risk', distance', sym).value
  {
    var step := EffectiveStep(sym);
    var raw, raw' := RawVolume(risk, distance, sym.contract), RawVolume(risk', distance', sym.contract);
    RawMonotone(risk, risk', distance, distance', sym.contract);
    StepsMonotone(raw, raw', step);
    ExactClamp(Steps(raw, step), step, sym.vmin, sym.vmax);
    ExactClamp(Steps(raw', step), step, sym.vmin, sym.vmax);
  }

  // ---- exactly when the budget is kept ------------------------------------------------------------------

  /** With this step no symbol and no budget ever lead to a lot that risks too much, the minimum lot aside. */
  ghost predicate KeepsBudget(step: real) {
    forall risk, distance, sym: Symbol :: sym.step == step && ComputeVolume(risk, distance, sym).Ok? ==>
      ComputeVolume(risk, distance, sym).value == sym.vmin
      || Mul(ComputeVolume(risk, distance, sym).value, Mul(distance, sym.contract)) <= risk
  }

  lemma NearestUp(n: int, g: real)
    requires 0.5 < g < 1.0 || (g == 0.5 && n % 2 == 1)
    ensures Nearest(n as real + g) == n + 1
  {
    assert (n as real + g).Floor == n;
  }

  /** The least multiple of `f` beyond one half stays below one. */
  lemma FirstPastHalf(f: real) returns (k: nat)
    requires 0.0 < f < 0.5
    ensures k >= 1 && 0.5 < Mul(k as real, f) < 1.0
  {
    var q := Quotient(0.5, f);
    k := q.Floor + 1;
    MulQuotient(0.5, f);
    MulMonotone(q, k as real, f);
    MulMonotone(k as real, q + 1.0, f);
    MulSum(q, 1.0, f);
    assert Mul(1.0, f) == f;
  }

  /** Some multiple of a fractional number is rounded up. */
  lemma SomeMultipleRoundsUp(x: real) returns (k: nat)
    requires x >= 1.0 && x.Floor as real != x
    ensures k >= 1 && Nearest(Mul(k as real, x)) as real > Mul(k as real, x)
  {
    var a, f := x.Floor, x - x.Floor as real;
    if f > 0.5 || (f == 0.5 && a % 2 == 1) {
      k := 1;
      assert Mul(1.0, x) == a as real + f;
      NearestUp(a, f);
    } else if f == 0.5 {
      k := 3;
      assert Mul(3.0, x) == (3 * a + 1) as real + 0.5;
      NearestUp(3 * a + 1, 0.5);
    } else {
      k := FirstPastHalf(f);
      MulSum(a as real, f, k as real);
      assert Mul(k as real, a as real) == (k * a) as real;
      NearestUp(k * a, Mul(k as real, f));
      assert Mul(k as real, f) == Mul(f, k as real);
    }
  }

  lemma RoundsAbove(risk: real, p: real, n: int)
    requires p > 0.0 && n as real > Mul(risk, p)
    ensures Quotient(n as real, p) > risk
  {
    MulQuotient(n as real, p);
    if Quotient(n as real, p) <= risk {
      MulMonotone(Quotient(n as real, p), risk, p);
    }
  }

  /** The lot for a budget of exactly `k` steps at unit distance and unit contract. */
  lemma BudgetOfWholeSteps(k: nat, step: real)
    requires step > 0.0 && k >= 1
    ensures var risk := Mul(k as real, step);
            risk > 0.0 && ComputeVolume(risk, 1.0, Symbol(1.0, step, 0.0, risk)) == Ok(Round(risk, Digits(step)))
  {
    var risk := Mul(k as real, step);
    MulMonotone(0.0, k as real, step);
    assert RawVolume(risk, 1.0, 1.0) == risk;
    MulQuotient(k as real, step);
    assert Steps(risk, step) == k;
  }

  /** An inexact step has a budget that the rounding overshoots. */
  lemma InexactOvershoots(step: real)
    requires step > 0.0 && !Exact(step)
    ensures !KeepsBudget(step)
  {
    var p := Pow10(Digits(step));
    UnitsAtLeastOne(step);
    var k := SomeMultipleRoundsUp(Units(step));
    var risk := Mul(k as real, step);
    BudgetOfWholeSteps(k, step);
    MulAssoc(k as real, step, p);
    RoundsAbove(risk, p, Nearest(Mul(risk, p)));
    var sym := Symbol(1.0, step, 0.0, risk);
    var v := ComputeVolume(risk, 1.0, sym).value;
    MulOne(v);
  }

  /** The floor protects the budget exactly for the steps that the rounding digits can represent. */
  lemma KeepsBudgetIffExact(step: real)
    requires step > 0.0
    ensures KeepsBudget(step) <==> Exact(step)
  {
    if Exact(step) {
      forall risk, distance, sym: Symbol | sym.step == step && ComputeVolume(risk, distance, sym).Ok?
        ensures ComputeVolume(risk, distance, sym).value == sym.vmin
                || Mul(ComputeVolume(risk, distance, sym).value, Mul(distance, sym.contract)) <= risk
      {
        var raw := RawVolume(risk, distance, sym.contract);
        ExactClamp(Steps(raw, step), step, sym.vmin, sym.vmax);
        SnapBelow(raw, step);
        RawVolumeSpendsRisk(risk, distance, sym.contract);
        var v := ComputeVolume(risk, distance, sym).value;
        if v != sym.vmin {
          MulMonotone(v, raw, Mul(distance, sym.contract));
        }
      }
    } else {
      InexactOvershoots(step);
    }
  }

  // ---- the volume in terms of the budget ----------------------------------------------------------------

  /** The number of decimals is the least that turns the step into one or more. */
  lemma {:induction false} DigitsAreLeast(step: real)
    requires step > 0.0
    ensures Mul(step, Pow10(Digits(step))) >= 1.0
    ensures Digits(step) > 0 ==> Mul(step, Pow10(Digits(step) - 1)) < 1.0
    decreases (1.0 / step).Floor
  {
    UnitsAtLeastOne(step);
    if step < 1.0 {
      InverseShrinks(step);
      DigitsAreLeast(10.0 * step);
      if Digits(10.0 * step) > 0 {
        assert Mul(step, Pow10(Digits(step) - 1)) == Mul(10.0 * step, Pow10(Digits(10.0 * step) - 1));
      }
    }
  }

  /** Rounding to `d` decimals gives the nearest multiple of the last one, the even one of two. */
  lemma RoundIsNearest(x: real, d: nat) returns (n: int)
    ensures Mul(Round(x, d), Pow10(d)) == n as real
    ensures Abs(Mul(x, Pow10(d)) - n as real) <= 0.5
    ensures Abs(Mul(x, Pow10(d)) - n as real) == 0.5 ==> n % 2 == 0
  {
    n := Nearest(Mul(x, Pow10(d)));
    MulQuotient(n as real, Pow10(d));
  }

  /** `n` steps cost at most the budget and one more would cost more than it. */
  ghost predicate Affords(risk: real, distance: real, contract: real, step: real, n: int) {
    && Mul(Mul(n as real, step), Mul(distance, contract)) <= risk
    && risk < Mul(Mul((n + 1) as real, step), Mul(distance, contract))
  }

  lemma StepsAfford(risk: real, distance: real, contract: real, step: real)
    requires distance > 0.0 && contract > 0.0 && step > 0.0
    ensures Affords(risk, distance, contract, step, Steps(RawVolume(risk, distance, contract), step))
  {
    var raw, loss := RawVolume(risk, distance, contract), Mul(distance, contract);
    var n := Steps(raw, step);
    RawVolumeSpendsRisk(risk, distance, contract);
    SnapBelow(raw, step);
    MulSum(n as real, 1.0, step);
    assert Mul(1.0, step) == step;
    assert (n + 1) as real == n as real + 1.0;
    MulMonotone(Mul(n as real, step), raw, loss);
    MulMonotone(raw, Mul((n + 1) as real, step), loss);
  }

  /**
    The volume is as many whole steps as the budget affords, raised to the minimum and cut to the maximum
    lot; between those limits it is rounded to the decimals of the step.
  */
  lemma VolumeIsAffordable(risk: real, distance: real, sym: Symbol) returns (n: int)
    requires distance > 0.0 && sym.contract > 0.0 && sym.step >= 0.0
    ensures var step := if sym.step == 0.0 then 0.01 else sym.step;
            && Affords(risk, distance, sym.contract, step, n)
            && ComputeVolume(risk, distance, sym)
                == Ok(if Mul(n as real, step) < sym.vmin then sym.vmin
                      else if Mul(n as real, step) > sym.vmax then sym.vmax
                      else Round(Mul(n as real, step), Digits(step)))
  {
    n := Steps(RawVolume(risk, distance, sym.contract), EffectiveStep(sym));
    StepsAfford(risk, distance, sym.contract, EffectiveStep(sym));
  }

  /**
    A distance or a contract size that is not positive is refused, and with a step that is not negative
    nothing else.
  */
  lemma RefusedIff(risk: real, distance: real, sym: Symbol)
    requires sym.step >= 0.0
    ensures ComputeVolume(risk, distance, sym).Err? <==> distance <= 0.0 || sym.contract <= 0.0
  {
  }
}
