/** The simple-moving-average crossover strategy (`SMAC`): a trading
    strategy that turns one price series into a signal series of the same
    length, and has no portfolio to offer. */
module Smac {
  import opened Common
  import Crossover

  /** The strategy's parameters, fixed at construction; the windows are
      whatever integers the caller passed. */
  datatype SMAC = SMAC(shortWindow: int, longWindow: int, enableShorting: bool)

  /** `rolling(window).mean()` at position i: the mean of the `window`
      values ending at i, missing while fewer than `window` values exist.
      A window of 0 averages nothing, so every mean is missing. */
  function Sma(data: seq<real>, window: nat, i: nat): (r: Option<real>)
    requires i < |data|
    ensures r.Some? <==> window >= 1 && i + 1 >= window
  {
    if window == 0 || i + 1 < window then None
    else Some(Sum(data[i + 1 - window .. i + 1]) / window as real)
  }

  /** The whole rolling-mean series. */
  function Smas(data: seq<real>, window: nat): (r: seq<Option<real>>)
    ensures |r| == |data|
    ensures forall i :: 0 <= i < |data| ==> r[i] == Sma(data, window, i)
  {
    seq(|data|, i requires 0 <= i < |data| => Sma(data, window, i))
  }

  /** A trading strategy has no portfolio: asking for one always raises. */
  function GeneratePortfolio(s: SMAC): (r: Result<Allocation>)
    ensures r == Err(NotImplemented)
  {
    Err(NotImplemented)
  }

  /** One signal per price: 1 exactly where both averages exist and the short
      one is above the long one, -1 exactly where it is below and shorting is
      enabled, 0 everywhere else (ties, warm-up, shorting disabled, a window
      of 0). pandas refuses a negative window with a ValueError. */
  function GenerateSignals(s: SMAC, data: seq<real>): (r: Result<seq<int>>)
    ensures r.Err? <==> s.shortWindow < 0 || s.longWindow < 0
    ensures r.Err? ==> r.error == ValueError
    ensures r.Ok? ==> |r.value| == |data|
    ensures r.Ok? ==> forall i :: 0 <= i < |data| ==>
      (r.value[i] == 1 <==> Crossover.Greater(Sma(data, s.shortWindow, i), Sma(data, s.longWindow, i)))
    ensures r.Ok? ==> forall i :: 0 <= i < |data| ==>
      (r.value[i] == -1 <==>
        s.enableShorting && Crossover.Greater(Sma(data, s.longWindow, i), Sma(data, s.shortWindow, i)))
    ensures r.Ok? ==> forall i :: 0 <= i < |data| ==> -1 <= r.value[i] <= 1
    ensures r.Ok? && !s.enableShorting ==> forall i :: 0 <= i < |data| ==> 0 <= r.value[i] <= 1
    ensures r.Ok? && s.shortWindow == s.longWindow ==> forall i :: 0 <= i < |data| ==> r.value[i] == 0
    ensures r.Ok? && (s.shortWindow == 0 || s.longWindow == 0) ==>
      forall i :: 0 <= i < |data| ==> r.value[i] == 0
  {
    if s.shortWindow < 0 || s.longWindow < 0 then Err(ValueError)
    else Ok(Crossover.Signals(Smas(data, s.shortWindow), Smas(data, s.longWindow), s.enableShorting))
  }

  /** While either window is still filling, the signal stays 0. */
  lemma WarmUpIsFlat(s: SMAC, data: seq<real>, i: nat)
    requires s.shortWindow >= 0 && s.longWindow >= 0 && i < |data|
    requires i + 1 < s.shortWindow || i + 1 < s.longWindow
    ensures GenerateSignals(s, data).value[i] == 0
  {
    var signals := GenerateSignals(s, data).value;
    assert signals[i] != 1 && signals[i] != -1;
  }

  /** A rolling mean lies between the smallest and largest price it averages. */
  lemma SmaBounded(data: seq<real>, window: nat, i: nat, lo: real, hi: real)
    requires window >= 1 && i < |data| && i + 1 >= window
    requires forall j :: 0 <= j < |data| ==> lo <= data[j] <= hi
    ensures lo <= Sma(data, window, i).value <= hi
  {
    var w := data[i + 1 - window .. i + 1];
    SumBounds(w, lo, hi);
    DivBounds(Sum(w), window as real, lo, hi);
  }

  /** On a constant price series every average is that price, so no window
      pair ever signals. */
  lemma ConstantSeriesNeverSignals(s: SMAC, data: seq<real>, c: real)
    requires s.shortWindow >= 0 && s.longWindow >= 0
    requires forall j :: 0 <= j < |data| ==> data[j] == c
    ensures forall i :: 0 <= i < |data| ==> GenerateSignals(s, data).value[i] == 0
  {
    forall i | 0 <= i < |data|
      ensures GenerateSignals(s, data).value[i] == 0
    {
      if s.shortWindow >= 1 && i + 1 >= s.shortWindow {
        SmaBounded(data, s.shortWindow, i, c, c);
      }
      if s.longWindow >= 1 && i + 1 >= s.longWindow {
        SmaBounded(data, s.longWindow, i, c, c);
      }
    }
  }
}
