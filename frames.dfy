/** Date-indexed tables and pandas label slicing `frame.loc[lo:hi]` on a
    sorted index. Dates are day numbers; both ends of a slice are included. */
module Frames {

  /** A table: one row of prices (one entry per ticker column) per date. */
  datatype Frame = Frame(dates: seq<int>, rows: seq<seq<real>>)

  predicate Increasing(ds: seq<int>) {
    forall i, j :: 0 <= i < j < |ds| ==> ds[i] < ds[j]
  }

  /** A price table: sorted unique dates, `width` columns, every price positive. */
  predicate WellFormed(f: Frame, width: nat) {
    && |f.dates| == |f.rows|
    && Increasing(f.dates)
    && (forall r :: 0 <= r < |f.rows| ==> |f.rows[r]| == width)
    && (forall r, c :: 0 <= r < |f.rows| && 0 <= c < width ==> f.rows[r][c] > 0.0)
  }

  /** Number of leading dates before `lo`: where a slice starting at `lo` begins. */
  function StartOf(ds: seq<int>, lo: int): (n: nat)
    ensures n <= |ds|
    ensures forall i :: 0 <= i < n ==> ds[i] < lo
    ensures n < |ds| ==> ds[n] >= lo
    decreases |ds|
  {
    if |ds| == 0 || ds[0] >= lo then 0 else 1 + StartOf(ds[1..], lo)
  }

  /** Number of leading dates not after `hi`: where a slice ending at `hi` stops. */
  function EndOf(ds: seq<int>, hi: int): (n: nat)
    ensures n <= |ds|
    ensures forall i :: 0 <= i < n ==> ds[i] <= hi
    ensures n < |ds| ==> ds[n] > hi
    decreases |ds|
  {
    if |ds| == 0 || ds[0] > hi then 0 else 1 + EndOf(ds[1..], hi)
  }

  /** On a sorted index, positions StartOf(lo) .. EndOf(hi) are exactly the
      dates in [lo, hi]. */
  lemma SpanIsWindow(ds: seq<int>, lo: int, hi: int)
    requires Increasing(ds)
    ensures forall i :: 0 <= i < |ds| ==>
      (StartOf(ds, lo) <= i < EndOf(ds, hi) <==> lo <= ds[i] <= hi)
  {
    var s, e := StartOf(ds, lo), EndOf(ds, hi);
    forall i | 0 <= i < |ds|
      ensures s <= i < e <==> lo <= ds[i] <= hi
    {
      if i >= s && s < |ds| {
        assert ds[s] <= ds[i];
      }
      if i >= e && e < |ds| {
        assert ds[e] <= ds[i];
      }
    }
  }

  /** `frame.loc[lo:hi]`: the rows whose date lies in [lo, hi]. */
  function Slice(f: Frame, lo: int, hi: int): (g: Frame)
    requires |f.dates| == |f.rows|
    ensures |g.dates| == |g.rows|
  {
    var s, e := StartOf(f.dates, lo), EndOf(f.dates, hi);
    if e <= s then Frame([], []) else Frame(f.dates[s..e], f.rows[s..e])
  }

  /** On a sorted index a slice keeps exactly the dates in [lo, hi], each with its row. */
  lemma SliceSelectsSpan(f: Frame, lo: int, hi: int)
    requires |f.dates| == |f.rows| && Increasing(f.dates)
    ensures forall d :: d in Slice(f, lo, hi).dates <==> d in f.dates && lo <= d <= hi
    ensures forall k :: 0 <= k < |Slice(f, lo, hi).dates| ==>
      exists i :: 0 <= i < |f.dates| && Slice(f, lo, hi).dates[k] == f.dates[i]
        && Slice(f, lo, hi).rows[k] == f.rows[i]
  {
    SpanIsWindow(f.dates, lo, hi);
    var s, e := StartOf(f.dates, lo), EndOf(f.dates, hi);
    var g := Slice(f, lo, hi);
    forall d ensures d in g.dates <==> d in f.dates && lo <= d <= hi {
      if d in f.dates && lo <= d <= hi {
        var i :| 0 <= i < |f.dates| && f.dates[i] == d;
        assert g.dates[i - s] == d;
      }
    }
    forall k | 0 <= k < |g.dates|
      ensures exists i :: 0 <= i < |f.dates| && g.dates[k] == f.dates[i] && g.rows[k] == f.rows[i]
    {
      assert g.dates[k] == f.dates[s + k] && g.rows[k] == f.rows[s + k];
    }
  }
}
