/** Values shared by every component: options, results, candles and small real helpers. */
module Foundations {

  datatype Option<+T> = None | Some(value: T)

  /** A computed value, or the name of the check that raised `ValueError`. */
  datatype Result<+T> = Ok(value: T) | Err(error: string)

  function Abs(x: real): (r: real)
    ensures r >= 0.0 && (r == x || r == -x)
  {
    if x < 0.0 then -x else x
  }

  function AbsInt(x: int): (r: nat)
    ensures r == x || r == -x
  {
    if x < 0 then -x else x
  }

  function Max(x: real, y: real): (r: real)
    ensures r >= x && r >= y && (r == x || r == y)
  {
    if x < y then y else x
  }

  function Min(x: real, y: real): (r: real)
    ensures r <= x && r <= y && (r == x || r == y)
  {
    if y < x then y else x
  }

  /** The nearest integer, ties to the even one: the rounding of Python's `round`. */
  function Nearest(x: real): (n: int)
    ensures Abs(x - n as real) <= 0.5
  {
    var gap := x - x.Floor as real;
    if gap < 0.5 || (gap == 0.5 && x.Floor % 2 == 0) then x.Floor else x.Floor + 1
  }

  /** Products and quotients by name, so that proofs about them stay linear. */
  function Mul(x: real, y: real): real { x * y }

  function Quotient(x: real, y: real): real
    requires y != 0.0
  {
    x / y
  }

  lemma MulQuotient(x: real, y: real)
    requires y != 0.0
    ensures Mul(Quotient(x, y), y) == x && Quotient(Mul(x, y), y) == x
  {
  }

  lemma MulMonotone(x: real, y: real, z: real)
    requires x <= y && z > 0.0
    ensures Mul(x, z) <= Mul(y, z)
    ensures x < y ==> Mul(x, z) < Mul(y, z)
  {
    assert (y - x) * z >= 0.0;
    if x < y {
      assert (y - x) * z > 0.0;
    }
  }

  lemma QuotientMonotone(x: real, y: real, z: real)
    requires x < y && z > 0.0
    ensures Quotient(x, z) < Quotient(y, z)
  {
    assert (y - x) / z > 0.0;
  }

  lemma MulSum(x: real, y: real, z: real)
    ensures Mul(x + y, z) == Mul(x, z) + Mul(y, z) && Mul(z, x + y) == Mul(z, x) + Mul(z, y)
  {
  }

  /** The sum of the first `n` numbers. */
  function Total(rs: seq<real>, n: nat): real
    requires n <= |rs|
  {
    if n == 0 then 0.0 else Total(rs, n - 1) + rs[n - 1]
  }

  function Sum(rs: seq<real>): real { Total(rs, |rs|) }

  lemma {:induction false} TotalOfPrefix(rs: seq<real>, m: nat, n: nat)
    requires n <= m <= |rs|
    ensures Total(rs[..m], n) == Total(rs, n)
  {
    if n > 0 {
      TotalOfPrefix(rs, m, n - 1);
    }
  }

  /** One OHLC bar. `time` counts microseconds on the UTC line. */
  datatype Candle = Candle(time: int, open: real, high: real, low: real, close: real)

  const MINUTE := 60_000_000
  const HOUR := 60 * MINUTE

  datatype Side = High | Low {
    function Opposite(): (r: Side)
      ensures r != this
    {
      if High? then Low else High
    }
  }

  datatype Trend = Bullish | Bearish

  lemma Regroup<T>(a: seq<T>, b: seq<T>, c: seq<T>, d: seq<T>)
    ensures a + b + c + d == a + (b + c + d)
  {
  }

  /** Candle times strictly increase, as in every OHLC frame the repository loads. */
  ghost predicate StrictlyAscending(candles: seq<Candle>) {
    forall i, j :: 0 <= i < j < |candles| ==> candles[i].time < candles[j].time
  }

  /** A frame the market could have produced: ascending times, bodies within the wicks. */
  ghost predicate Plausible(candles: seq<Candle>) {
    && StrictlyAscending(candles)
    && forall c :: c in candles ==> c.low <= c.open <= c.high && c.low <= c.close <= c.high
  }

  /** A candle at `time` that opens and closes at its low. */
  function Spike(time: int, low: real, high: real): Candle { Candle(time, low, high, low, low) }
}
