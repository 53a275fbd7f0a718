/** Performance bookkeeping shared by the signal-driven trader and the
    walk-forward backtest: the frequency-dependent annualisation exponent,
    total return, bar-over-bar returns (`pct_change`) and compounding. The
    geometric mean is an uninterpreted input. */
module Performance {
  import opened Common

  /** Periods per year for a pandas frequency tag; no scaling for any other tag. */
  function PeriodsPerYear(freq: string): Option<nat> {
    if freq == "D" then Some(252)
    else if freq == "W" then Some(52)
    else if freq == "MS" then Some(12)
    else None
  }

  /** Bernoulli's inequality: (1 + a)^n >= 1 + n*a for a >= -1. */
  lemma {:induction false} Bernoulli(a: real, n: nat)
    requires a >= -1.0
    ensures Pow(1.0 + a, n) >= 1.0 + n as real * a
  {
    if n > 0 {
      Bernoulli(a, n - 1);
      var p, m := Pow(1.0 + a, n - 1), (n - 1) as real;
      MulMonotone(1.0 + a, p, 1.0 + m * a);
      assert (1.0 + a) * (1.0 + m * a) == 1.0 + (m + 1.0) * a + m * (a * a);
      MulMonotone(m, a * a, 0.0);
    }
  }

  /** Compounding a non-negative average over p >= 1 periods yields at least the average. */
  lemma AnnualisedAtLeast(a: real, p: nat)
    requires p >= 1
    ensures a >= 0.0 ==> Pow(1.0 + a, p) - 1.0 >= a
  {
    if a >= 0.0 {
      Bernoulli(a, p);
      MulMonotone(a, p as real, 1.0);
    }
  }

  lemma {:induction false} PowOne(n: nat)
    ensures Pow(1.0, n) == 1.0
  {
    if n > 0 {
      PowOne(n - 1);
    }
  }

  /** `(1 + average)^P - 1` for the frequency's P, the average itself otherwise.
      Annualising never shrinks a non-negative average and keeps zero at zero. */
  function AnnualReturns(averageReturns: real, freq: string): (r: real)
    ensures freq == "D" ==> r == Pow(1.0 + averageReturns, 252) - 1.0
    ensures freq == "W" ==> r == Pow(1.0 + averageReturns, 52) - 1.0
    ensures freq == "MS" ==> r == Pow(1.0 + averageReturns, 12) - 1.0
    ensures PeriodsPerYear(freq).None? ==> r == averageReturns
    ensures averageReturns >= 0.0 ==> r >= averageReturns
    ensures averageReturns == 0.0 ==> r == 0.0
  {
    match PeriodsPerYear(freq)
    case Some(p) =>
      (AnnualisedAtLeast(averageReturns, p); PowOne(p); Pow(1.0 + averageReturns, p) - 1.0)
    case None => averageReturns
  }

  /** The growth factors 1 + r handed to the geometric mean. */
  function OnePlus(rets: seq<real>): (g: seq<real>)
    ensures |g| == |rets|
  {
    seq(|rets|, i requires 0 <= i < |rets| => 1.0 + rets[i])
  }

  /** What both backtests report besides the volatility and Sharpe ratio. */
  datatype Summary = Summary(
    finalValue: real,
    totalReturns: real,
    averageReturns: real,
    annualReturns: real)

  /** Total return from first to last value, geometric-mean average return and
      its annualisation; a zero first value has no total return. */
  function Summarise(values: seq<real>, rets: seq<real>, gmean: seq<real> -> real,
                     freq: string): (r: Result<Summary>)
    requires |values| > 0
    ensures r.Err? <==> values[0] == 0.0
    ensures r.Err? ==> r.error == ZeroDivision
    ensures r.Ok? ==> r.value.finalValue == values[|values| - 1]
    ensures r.Ok? ==> values[0] * (1.0 + r.value.totalReturns) == values[|values| - 1]
    ensures r.Ok? ==> r.value.averageReturns == gmean(OnePlus(rets)) - 1.0
    ensures r.Ok? && freq == "D" ==> r.value.annualReturns == Pow(1.0 + r.value.averageReturns, 252) - 1.0
    ensures r.Ok? && freq == "W" ==> r.value.annualReturns == Pow(1.0 + r.value.averageReturns, 52) - 1.0
    ensures r.Ok? && freq == "MS" ==> r.value.annualReturns == Pow(1.0 + r.value.averageReturns, 12) - 1.0
    ensures r.Ok? && PeriodsPerYear(freq).None? ==>
      r.value.annualReturns == r.value.averageReturns
  {
    if values[0] == 0.0 then Err(ZeroDivision)
    else
      var first, last := values[0], values[|values| - 1];
      var average := gmean(OnePlus(rets)) - 1.0;
      Ok(Summary(last, (last - first) / first, average, AnnualReturns(average, freq)))
  }

  /** `pct_change().dropna()`: one return per consecutive pair of values. */
  function PctChange(values: seq<real>): (r: seq<real>)
    ensures |r| == if |values| == 0 then 0 else |values| - 1
  {
    if |values| == 0 then []
    else
      seq(|values| - 1, i requires 0 <= i < |values| - 1 =>
        if values[i] == 0.0 then 0.0 else values[i + 1] / values[i] - 1.0)
  }

  /** A value after one period with return r. */
  function Grow(value: real, r: real): real {
    value * (1.0 + r)
  }

  /** The value after each period when `v0` compounds by 1 + r per period. */
  function Compound(v0: real, rets: seq<real>): (vs: seq<real>)
    ensures |vs| == |rets|
    decreases |rets|
  {
    if |rets| == 0 then []
    else
      var before := Compound(v0, rets[..|rets| - 1]);
      var last := if |before| == 0 then v0 else before[|before| - 1];
      before + [Grow(last, rets[|rets| - 1])]
  }

  /** The product of 1 + r over the returns. */
  function Growth(rets: seq<real>): real
    decreases |rets|
  {
    if |rets| == 0 then 1.0
    else Growth(rets[..|rets| - 1]) * (1.0 + rets[|rets| - 1])
  }

  /** Compounding a prefix is the prefix of compounding. */
  lemma {:induction false} CompoundPrefix(v0: real, rets: seq<real>, k: nat)
    requires k <= |rets|
    ensures Compound(v0, rets[..k]) == Compound(v0, rets)[..k]
    decreases |rets|
  {
    if k < |rets| {
      var n := |rets|;
      assert rets[..n - 1][..k] == rets[..k];
      CompoundPrefix(v0, rets[..n - 1], k);
    } else {
      assert rets[..k] == rets;
    }
  }

  /** Each compounded value is the start value times the growth so far. */
  lemma {:induction false} CompoundIsGrowth(v0: real, rets: seq<real>)
    ensures forall k :: 0 <= k < |rets| ==>
      Compound(v0, rets)[k] == v0 * Growth(rets[..k + 1])
    decreases |rets|
  {
    if |rets| > 0 {
      var n := |rets|;
      var init := rets[..n - 1];
      CompoundIsGrowth(v0, init);
      forall k | 0 <= k < n
        ensures Compound(v0, rets)[k] == v0 * Growth(rets[..k + 1])
      {
        if k < n - 1 {
          assert init[..k + 1] == rets[..k + 1];
        } else {
          assert rets[..k + 1] == rets;
          assert rets[..k + 1][..k] == init;
          if n > 1 {
            assert init[..n - 1] == init;
          }
        }
      }
    }
  }

  /** Round trip: the returns of a compounded path are the returns it compounded,
      as long as no value on the path is zero. */
  lemma {:induction false} PctChangeOfCompound(v0: real, rets: seq<real>)
    requires forall k :: 0 <= k < |rets| ==> ([v0] + Compound(v0, rets))[k] != 0.0
    ensures PctChange([v0] + Compound(v0, rets)) == rets
  {
    var path := [v0] + Compound(v0, rets);
    var r := PctChange(path);
    forall k | 0 <= k < |rets| ensures r[k] == rets[k] {
      CompoundStep(v0, rets, k);
      var x := path[k];
      assert x != 0.0;
      assert path[k + 1] == x * (1.0 + rets[k]);
      CancelFactor(x, 1.0 + rets[k]);
    }
  }

  /** Each compounded value is the previous one (the start value first) times 1 + r. */
  lemma {:induction false} CompoundStep(v0: real, rets: seq<real>, k: nat)
    requires k < |rets|
    ensures ([v0] + Compound(v0, rets))[k + 1] == ([v0] + Compound(v0, rets))[k] * (1.0 + rets[k])
  {
    var c := Compound(v0, rets);
    var pre := rets[..k + 1];
    assert |pre| == k + 1 && pre[k] == rets[k];
    CompoundPrefix(v0, rets, k + 1);
    CompoundPrefix(v0, rets, k);
    assert pre[..|pre| - 1] == rets[..k];
    var before := Compound(v0, pre[..|pre| - 1]);
    assert before == c[..k];
    var last := if |before| == 0 then v0 else before[|before| - 1];
    assert Compound(v0, pre) == before + [Grow(last, pre[|pre| - 1])];
    assert c[k] == Grow(last, rets[k]);
  }

  lemma CancelFactor(x: real, y: real)
    requires x != 0.0
    ensures (x * y) / x == y
  {
    var q := (x * y) / x;
    assert q * x == x * y;
    assert x * (q - y) == 0.0;
  }

  /** Round trip: compounding the returns of a path from its first value
      rebuilds the rest of the path, as long as no value on it is zero. */
  lemma CompoundOfPctChange(values: seq<real>)
    requires |values| > 0
    requires forall k :: 0 <= k < |values| ==> values[k] != 0.0
    ensures Compound(values[0], PctChange(values)) == values[1..]
  {
    var r := PctChange(values);
    forall j | 0 <= j < |r|
      ensures Grow(values[j], r[j]) == values[j + 1]
    {
      RatioUndone(values[j], values[j + 1], r[j]);
    }
    var c := Compound(values[0], r);
    forall k | 0 <= k < |values| - 1 ensures c[k] == values[k + 1] {
      PathFollowsValues(values, r, k + 1);
    }
  }

  /** A path that grows from each value to the next by the given returns is
      the path compounding those returns from its first value. */
  lemma {:induction false} PathFollowsValues(values: seq<real>, rets: seq<real>, k: nat)
    requires k < |values| && |rets| == |values| - 1
    requires forall j :: 0 <= j < |rets| ==> Grow(values[j], rets[j]) == values[j + 1]
    ensures ([values[0]] + Compound(values[0], rets))[k] == values[k]
  {
    if k > 0 {
      PathFollowsValues(values, rets, k - 1);
      CompoundStep(values[0], rets, k - 1);
      assert Grow(values[k - 1], rets[k - 1]) == values[k];
    }
  }

  /** Growing x by the return from x to y gives back y. */
  lemma RatioUndone(x: real, y: real, g: real)
    requires x != 0.0 && g == y / x - 1.0
    ensures Grow(x, g) == y
  {
  }
}
