/** The exponentially-weighted moving-average crossover strategy (`EWMAC`):
    the crossover rule of the simple-average strategy applied to
    `ewm(span, adjust=False).mean()`, which is defined from the first price on. */
module Ewmac {
  import opened Common
  import Crossover

  /** The strategy's parameters, fixed at construction. */
  datatype EWMAC = EWMAC(shortWindow: int, longWindow: int, enableShorting: bool)

  /** The smoothing factor 2/(span + 1) of a span: a weight in (0, 1], and
      exactly 1 for span 1. */
  function Alpha(span: int): (a: real)
    requires span >= 1
    ensures 0.0 < a <= 1.0
    ensures span == 1 <==> a == 1.0
  {
    2.0 / (span as real + 1.0)
  }

  /** One smoothing step: weight `alpha` on the new price, the rest on the
      previous average. */
  function Blend(alpha: real, price: real, previous: real): real {
    alpha * price + (1.0 - alpha) * previous
  }

  /** The unadjusted exponentially-weighted mean at position i: the first
      price at 0, then one Blend step per later price. */
  function Ewma(data: seq<real>, alpha: real, i: nat): real
    requires i < |data|
  {
    if i == 0 then data[0] else Blend(alpha, data[i], Ewma(data, alpha, i - 1))
  }

  /** The whole series of means; every entry exists (no warm-up). */
  function Ewmas(data: seq<real>, alpha: real): (r: seq<Option<real>>)
    ensures |r| == |data|
    ensures forall i :: 0 <= i < |data| ==> r[i] == Some(Ewma(data, alpha, i))
  {
    seq(|data|, i requires 0 <= i < |data| => Some(Ewma(data, alpha, i)))
  }

  /** A trading strategy has no portfolio: asking for one always raises. */
  function GeneratePortfolio(s: EWMAC): (r: Result<Allocation>)
    ensures r == Err(NotImplemented)
  {
    Err(NotImplemented)
  }

  /** One signal per price: 1 exactly where the short mean is above the long
      mean, -1 exactly where it is below and shorting is enabled, 0 otherwise;
      the first signal is always 0 and equal spans never signal. pandas
      refuses a span below 1 with a ValueError. */
  function GenerateSignals(s: EWMAC, data: seq<real>): (r: Result<seq<int>>)
    ensures r.Err? <==> s.shortWindow < 1 || s.longWindow < 1
    ensures r.Err? ==> r.error == ValueError
    ensures r.Ok? ==> |r.value| == |data|
    ensures r.Ok? ==> forall i :: 0 <= i < |data| ==>
      (r.value[i] == 1 <==> Ewma(data, Alpha(s.shortWindow), i) > Ewma(data, Alpha(s.longWindow), i))
    ensures r.Ok? ==> forall i :: 0 <= i < |data| ==>
      (r.value[i] == -1 <==>
        s.enableShorting && Ewma(data, Alpha(s.shortWindow), i) < Ewma(data, Alpha(s.longWindow), i))
    ensures r.Ok? ==> forall i :: 0 <= i < |data| ==> -1 <= r.value[i] <= 1
    ensures r.Ok? && !s.enableShorting ==> forall i :: 0 <= i < |data| ==> 0 <= r.value[i] <= 1
    ensures r.Ok? && |data| > 0 ==> r.value[0] == 0
    ensures r.Ok? && s.shortWindow == s.longWindow ==> forall i :: 0 <= i < |data| ==> r.value[i] == 0
  {
    if s.shortWindow < 1 || s.longWindow < 1 then Err(ValueError)
    else
      var short := Ewmas(data, Alpha(s.shortWindow));
      var long := Ewmas(data, Alpha(s.longWindow));
      Ok(Crossover.Signals(short, long, s.enableShorting))
  }

  /** With a weight in [0, 1] the mean never leaves the range of the prices
      seen so far. */
  lemma {:induction false} EwmaBounded(data: seq<real>, alpha: real, i: nat, lo: real, hi: real)
    requires 0.0 <= alpha <= 1.0 && i < |data|
    requires forall j :: 0 <= j <= i ==> lo <= data[j] <= hi
    ensures lo <= Ewma(data, alpha, i) <= hi
  {
    if i > 0 {
      EwmaBounded(data, alpha, i - 1, lo, hi);
      BlendBounded(alpha, data[i], Ewma(data, alpha, i - 1), lo, hi);
    }
  }

  /** A blend of two values in [lo, hi] stays in [lo, hi]. */
  lemma BlendBounded(alpha: real, x: real, y: real, lo: real, hi: real)
    requires 0.0 <= alpha <= 1.0 && lo <= x <= hi && lo <= y <= hi
    ensures lo <= Blend(alpha, x, y) <= hi
  {
    var beta := 1.0 - alpha;
    MulMonotone(alpha, x, lo);
    MulMonotone(alpha, hi, x);
    MulMonotone(beta, y, lo);
    MulMonotone(beta, hi, y);
    assert alpha * lo + beta * lo == lo by {
      assert alpha * lo + beta * lo == (alpha + beta) * lo;
    }
    assert alpha * hi + beta * hi == hi by {
      assert alpha * hi + beta * hi == (alpha + beta) * hi;
    }
    AddBounds(alpha * x, beta * y, alpha * lo, beta * lo, alpha * hi, beta * hi);
  }

  lemma AddBounds(p: real, q: real, pLo: real, qLo: real, pHi: real, qHi: real)
    requires pLo <= p <= pHi && qLo <= q <= qHi
    ensures pLo + qLo <= p + q <= pHi + qHi
  {
  }

  /** A span of 1 puts all the weight on the latest price: the mean is the price. */
  lemma {:induction false} SpanOneTracksPrice(data: seq<real>, i: nat)
    requires i < |data|
    ensures Ewma(data, Alpha(1), i) == data[i]
  {
    if i > 0 {
      assert Alpha(1) == 1.0;
    }
  }

  /** On a constant price series both means stay at that price, so the
      strategy never signals. */
  lemma ConstantSeriesNeverSignals(s: EWMAC, data: seq<real>, c: real)
    requires s.shortWindow >= 1 && s.longWindow >= 1
    requires forall j :: 0 <= j < |data| ==> data[j] == c
    ensures forall i :: 0 <= i < |data| ==> GenerateSignals(s, data).value[i] == 0
  {
    forall i | 0 <= i < |data|
      ensures GenerateSignals(s, data).value[i] == 0
    {
      EwmaBounded(data, Alpha(s.shortWindow), i, c, c);
      EwmaBounded(data, Alpha(s.longWindow), i, c, c);
    }
  }
}
