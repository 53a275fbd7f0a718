/** Vocabulary shared by every part of the model: optional values, the
    exceptions the Python code raises, allocations, and sums over reals. */
module Common {

  datatype Option<+T> = None | Some(value: T)

  /** The exceptions the modelled code raises, by Python class. */
  datatype Error =
    | NotImplemented   // NotImplementedError: a strategy asked for a capability it lacks
    | NotRun           // ValueError('First run the backtest')
    | IndexError       // positional access (iloc[0], index[0]) into an empty frame
    | KeyError         // .loc with a ticker that is not a column
    | ValueError       // numpy / scikit-learn shape errors
    | UnboundLocal     // UnboundLocalError: a variable no loop iteration assigned
    | ZeroDivision     // a return computed against a zero first value

  datatype Result<+T> = Ok(value: T) | Err(error: Error)

  datatype Outcome = Pass | Fail(error: Error)

  /** One entry of a `{ticker: weight}` allocation; tickers are column positions. */
  datatype Holding = Holding(ticker: nat, weight: real)

  /** An allocation in the dictionary's insertion order. */
  type Allocation = seq<Holding>

  function Abs(x: real): real {
    if x < 0.0 then -x else x
  }

  function Sum(s: seq<real>): real {
    if |s| == 0 then 0.0 else s[0] + Sum(s[1..])
  }

  function Pow(x: real, n: nat): real {
    if n == 0 then 1.0 else x * Pow(x, n - 1)
  }

  lemma {:induction false} SumAppend(a: seq<real>, b: seq<real>)
    ensures Sum(a + b) == Sum(a) + Sum(b)
  {
    if |a| == 0 {
      assert a + b == b;
    } else {
      assert (a + b)[1..] == a[1..] + b;
      SumAppend(a[1..], b);
    }
  }

  /** Sum of a prefix extended by one element. */
  lemma SumSnoc(s: seq<real>, k: nat)
    requires k < |s|
    ensures Sum(s[..k + 1]) == Sum(s[..k]) + s[k]
  {
    assert s[..k + 1] == s[..k] + [s[k]];
    SumAppend(s[..k], [s[k]]);
  }

  /** A window whose entries all lie in [lo, hi] sums to between |s|*lo and |s|*hi. */
  lemma {:induction false} SumBounds(s: seq<real>, lo: real, hi: real)
    requires forall i :: 0 <= i < |s| ==> lo <= s[i] <= hi
    ensures |s| as real * lo <= Sum(s) <= |s| as real * hi
  {
    if |s| > 0 {
      SumBounds(s[1..], lo, hi);
    }
  }

  lemma MulMonotone(c: real, x: real, y: real)
    requires c >= 0.0 && x >= y
    ensures c * x >= c * y
  {
    assert c * x - c * y == c * (x - y);
  }

  /** A mean of values in [lo, hi] lies in [lo, hi]. */
  lemma DivBounds(x: real, n: real, lo: real, hi: real)
    requires n > 0.0 && n * lo <= x <= n * hi
    ensures lo <= x / n <= hi
  {
    var q := x / n;
    assert n * q == x;
    assert n * (q - lo) >= 0.0;
    assert n * (hi - q) >= 0.0;
  }
}
