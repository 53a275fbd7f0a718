/** The crossover rule shared by the moving-average strategies: start from a
    series of zeros, write 1 where the short average is above the long one,
    then write -1 (shorting enabled) or 0 (disabled) where it is below.
    A missing average (pandas NaN) compares false either way. */
module Crossover {
  import opened Common

  /** `a > b` on two possibly-missing values: false when either is missing. */
  predicate Greater(a: Option<real>, b: Option<real>) {
    a.Some? && b.Some? && a.value > b.value
  }

  /** Boolean-mask assignment `signals[mask] = v`. */
  function Masked(signals: seq<int>, mask: seq<bool>, v: int): (r: seq<int>)
    requires |mask| == |signals|
    ensures |r| == |signals|
    ensures forall i :: 0 <= i < |r| ==> r[i] == (if mask[i] then v else signals[i])
  {
    seq(|signals|, i requires 0 <= i < |signals| => if mask[i] then v else signals[i])
  }

  /** The signal series for a pair of average series of equal length. */
  function Signals(short: seq<Option<real>>, long: seq<Option<real>>, enableShorting: bool): (s: seq<int>)
    requires |short| == |long|
    ensures |s| == |short|
    ensures forall i :: 0 <= i < |s| ==> (s[i] == 1 <==> Greater(short[i], long[i]))
    ensures forall i :: 0 <= i < |s| ==>
      (s[i] == -1 <==> enableShorting && Greater(long[i], short[i]))
    ensures forall i :: 0 <= i < |s| ==>
      (s[i] == 0 <==> !Greater(short[i], long[i]) && !(enableShorting && Greater(long[i], short[i])))
    ensures forall i :: 0 <= i < |s| ==> -1 <= s[i] <= 1
    ensures !enableShorting ==> forall i :: 0 <= i < |s| ==> 0 <= s[i] <= 1
    ensures short == long ==> forall i :: 0 <= i < |s| ==> s[i] == 0
  {
    var n := |short|;
    var above := seq(n, i requires 0 <= i < n => Greater(short[i], long[i]));
    var below := seq(n, i requires 0 <= i < n => Greater(long[i], short[i]));
    var buys := Masked(seq(n, _ => 0), above, 1);
    Masked(buys, below, if enableShorting then -1 else 0)
  }
}
