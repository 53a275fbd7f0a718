/** The stock-selection rules shared by both PCA/factor strategies. The
    regression, ARIMA forecasts, PCA, k-means and the portfolio optimiser are
    inputs; what remains is which columns are regressed, how many principal
    components are kept, which stocks are picked in each cluster, and which
    optimised weights survive rounding. Stocks are column positions. */
module FactorSelection {
  import opened Common
  import Frames
  import Clustering

  /** What the regression and the forecasts yield for one kept column. */
  datatype Estimate = Estimate(expectedReturn: real, alpha: real)

  predicate Distinct(s: seq<nat>) {
    forall i, j :: 0 <= i < j < |s| ==> s[i] != s[j]
  }

  predicate Ascending(s: seq<nat>) {
    forall i, j :: 0 <= i < j < |s| ==> s[i] < s[j]
  }

  predicate Within(s: seq<nat>, n: nat) {
    forall j :: 0 <= j < |s| ==> s[j] < n
  }

  /** The positions below n at which a boolean mask holds, in position order. */
  function Where(keep: nat -> bool, n: nat): (w: seq<nat>)
    ensures forall j :: 0 <= j < |w| ==> w[j] < n && keep(w[j])
  {
    if n == 0 then [] else Where(keep, n - 1) + (if keep(n - 1) then [n - 1] else [])
  }

  /** Positions are listed in increasing order. */
  lemma {:induction false} WhereAscending(keep: nat -> bool, n: nat)
    ensures Ascending(Where(keep, n))
  {
    if n > 0 {
      WhereAscending(keep, n - 1);
    }
  }

  /** Every position the mask holds at is listed. */
  lemma {:induction false} WhereComplete(keep: nat -> bool, n: nat)
    ensures forall p :: 0 <= p < n && keep(p) ==> p in Where(keep, n)
  {
    if n > 0 {
      WhereComplete(keep, n - 1);
    }
  }

  // ---------------------------------------------------------------------
  // Which columns are regressed

  /** A column is regressed when its non-missing return count equals the
      number of factor rows in the returns' date span. */
  function Complete(counts: seq<nat>, factorRows: nat): nat -> bool {
    (c: nat) => c < |counts| && counts[c] == factorRows
  }

  function Kept(counts: seq<nat>, factorRows: nat): (kept: seq<nat>)
    ensures forall c: nat :: c in kept <==> c < |counts| && counts[c] == factorRows
    ensures Ascending(kept)
  {
    WhereComplete(Complete(counts, factorRows), |counts|);
    WhereAscending(Complete(counts, factorRows), |counts|);
    Where(Complete(counts, factorRows), |counts|)
  }

  function Incomplete(counts: seq<nat>, factorRows: nat): nat -> bool {
    (c: nat) => c < |counts| && counts[c] != factorRows
  }

  function Dropped(counts: seq<nat>, factorRows: nat): (dropped: seq<nat>)
    ensures forall c: nat :: c in dropped <==> c < |counts| && counts[c] != factorRows
  {
    WhereComplete(Incomplete(counts, factorRows), |counts|);
    Where(Incomplete(counts, factorRows), |counts|)
  }

  /** The number of factor rows dated within [first, last] return date. */
  function FactorRows(factors: Frames.Frame, returnDates: seq<int>): nat
    requires |factors.dates| == |factors.rows| && |returnDates| > 0
  {
    |Frames.Slice(factors, returnDates[0], returnDates[|returnDates| - 1]).dates|
  }

  /** The regression loop: in column order, a column whose count differs is
      put on the drop list, any other is regressed and its estimate recorded.
      Kept and dropped columns split the columns between them. */
  method FilterColumns(counts: seq<nat>, factorRows: nat, regress: nat -> Estimate)
    returns (kept: seq<nat>, estimates: seq<Estimate>, dropped: seq<nat>)
    ensures kept == Kept(counts, factorRows)
    ensures |estimates| == |kept|
    ensures forall j :: 0 <= j < |kept| ==> estimates[j] == regress(kept[j])
    ensures dropped == Dropped(counts, factorRows)
    ensures |kept| + |dropped| == |counts|
  {
    kept, estimates, dropped := [], [], [];
    var col := 0;
    while col < |counts|
      invariant col <= |counts|
      invariant kept == Where(Complete(counts, factorRows), col)
      invariant estimates == seq(|kept|, j requires 0 <= j < |kept| => regress(kept[j]))
      invariant dropped == Where(Incomplete(counts, factorRows), col)
      invariant |kept| + |dropped| == col
    {
      assert Where(Complete(counts, factorRows), col + 1)
        == kept + (if counts[col] == factorRows then [col] else []);
      assert Where(Incomplete(counts, factorRows), col + 1)
        == dropped + (if counts[col] != factorRows then [col] else []);
      if counts[col] != factorRows {
        dropped := dropped + [col];
      } else {
        kept := kept + [col];
        estimates := estimates + [regress(col)];
      }
      col := col + 1;
    }
  }

  // ---------------------------------------------------------------------
  // How many principal components are kept

  /** Cumulative explained variance up to and including component k. */
  function CumSum(variance: seq<real>, k: nat): real
    requires k < |variance|
  {
    Sum(variance[..k + 1])
  }

  /** The first component at or after k whose cumulative variance exceeds the threshold. */
  function FirstExceeding(variance: seq<real>, threshold: real, k: nat): (i: Option<nat>)
    requires k <= |variance|
    ensures i.Some? ==> k <= i.value < |variance| && CumSum(variance, i.value) > threshold
    ensures i.Some? ==> forall j :: k <= j < i.value ==> CumSum(variance, j) <= threshold
    ensures i.None? ==> forall j :: k <= j < |variance| ==> CumSum(variance, j) <= threshold
    decreases |variance| - k
  {
    if k == |variance| then None
    else if CumSum(variance, k) > threshold then Some(k)
    else FirstExceeding(variance, threshold, k + 1)
  }

  /** `argmax(cumsum(variance) > threshold) + 1`: one more than the first
      component whose cumulative variance exceeds the threshold, and 1 when
      none does (argmax of an all-false mask is 0); numpy refuses an empty
      array. */
  function NumPcs(variance: seq<real>, threshold: real): (r: Result<nat>)
    ensures r.Err? <==> |variance| == 0
    ensures r.Err? ==> r.error == ValueError
    ensures r.Ok? ==> 1 <= r.value <= |variance|
    ensures r.Ok? && (exists j :: 0 <= j < |variance| && CumSum(variance, j) > threshold) ==>
      && CumSum(variance, r.value - 1) > threshold
      && forall j :: 0 <= j < r.value - 1 ==> CumSum(variance, j) <= threshold
    ensures r.Ok? && (forall j :: 0 <= j < |variance| ==> CumSum(variance, j) <= threshold) ==>
      r.value == 1
  {
    if |variance| == 0 then Err(ValueError)
    else
      match FirstExceeding(variance, threshold, 0)
      case Some(i) => Ok(i + 1)
      case None => Ok(1)
  }

  /** When the stricter threshold is reached at all, a looser one never
      keeps more components. */
  lemma NumPcsMonotone(variance: seq<real>, looser: real, stricter: real)
    requires |variance| > 0 && looser <= stricter
    requires CumSum(variance, |variance| - 1) > stricter
    ensures NumPcs(variance, looser).value <= NumPcs(variance, stricter).value
  {
    var n := NumPcs(variance, stricter).value;
    assert CumSum(variance, n - 1) > looser;
  }

  /** A threshold no cumulative sum exceeds keeps a single component, fewer
      than a lower threshold that is exceeded: with explained variances 0.5
      and 0.3, a threshold of 0.9 keeps 1 component and 0.7 keeps 2. */
  lemma UnreachedThresholdKeepsOne()
    ensures NumPcs([0.5, 0.3], 0.9) == Ok(1)
    ensures NumPcs([0.5, 0.3], 0.7) == Ok(2)
  {
    var v := [0.5, 0.3];
    assert v[..1] == [0.5] && v[..2] == v;
    assert CumSum(v, 0) == 0.5;
    assert CumSum(v, 1) == 0.8;
  }

  // ---------------------------------------------------------------------
  // Which stocks are picked in each cluster

  predicate Qualifies(e: Estimate, erThreshold: real, alphaThreshold: real) {
    e.expectedReturn > erThreshold && e.alpha > alphaThreshold
  }

  /** Membership of cluster `cluster` with both thresholds met. */
  function Qualifying(labels: seq<nat>, estimates: seq<Estimate>, cluster: nat,
                      erThreshold: real, alphaThreshold: real): nat -> bool
  {
    (s: nat) => s < |labels| && s < |estimates| && labels[s] == cluster
      && Qualifies(estimates[s], erThreshold, alphaThreshold)
  }

  /** The cluster's qualifying stocks in frame order. */
  function Candidates(labels: seq<nat>, estimates: seq<Estimate>, cluster: nat,
                      erThreshold: real, alphaThreshold: real): (c: seq<nat>)
    ensures Within(c, |estimates|)
  {
    Where(Qualifying(labels, estimates, cluster, erThreshold, alphaThreshold), |labels|)
  }

  /** `idxmax`: the position of the first largest expected return. */
  function BestIndex(c: seq<nat>, estimates: seq<Estimate>): (b: nat)
    requires |c| > 0 && Within(c, |estimates|)
    ensures b < |c|
    ensures forall j :: 0 <= j < |c| ==>
      estimates[c[j]].expectedReturn <= estimates[c[b]].expectedReturn
    ensures forall j :: 0 <= j < b ==>
      estimates[c[j]].expectedReturn < estimates[c[b]].expectedReturn
  {
    if |c| == 1 then 0
    else
      var b := BestIndex(c[..|c| - 1], estimates);
      if estimates[c[|c| - 1]].expectedReturn > estimates[c[b]].expectedReturn then |c| - 1 else b
  }

  /** Dropping one row by position. */
  function RemoveAt(c: seq<nat>, b: nat): (r: seq<nat>)
    requires b < |c|
    ensures |r| == |c| - 1
    ensures forall j :: 0 <= j < |r| ==> r[j] == if j < b then c[j] else c[j + 1]
  {
    c[..b] + c[b + 1..]
  }

  /** Up to k picks, each the best remaining stock, which is then dropped.
      Every pick comes from the candidates, and there are k of them unless
      the candidates run out first. */
  function TopK(c: seq<nat>, estimates: seq<Estimate>, k: nat): (picks: seq<nat>)
    requires Within(c, |estimates|)
    ensures |picks| == if k < |c| then k else |c|
    ensures Within(picks, |estimates|)
    decreases k
  {
    if k == 0 || |c| == 0 then []
    else
      var b := BestIndex(c, estimates);
      var rest := RemoveAt(c, b);
      assert Within(rest, |estimates|);
      [c[b]] + TopK(rest, estimates, k - 1)
  }

  /** Every pick comes from the candidates. */
  lemma {:induction false} TopKMembers(c: seq<nat>, estimates: seq<Estimate>, k: nat)
    requires Within(c, |estimates|)
    ensures forall p :: p in TopK(c, estimates, k) ==> p in c
    decreases k
  {
    if k > 0 && |c| > 0 {
      var b := BestIndex(c, estimates);
      var rest := RemoveAt(c, b);
      TopKMembers(rest, estimates, k - 1);
      RemoveAtMembers(c, b);
      assert TopK(c, estimates, k) == [c[b]] + TopK(rest, estimates, k - 1);
    }
  }

  lemma RemoveAtMembers(c: seq<nat>, b: nat)
    requires b < |c|
    ensures forall p :: p in RemoveAt(c, b) ==> p in c
  {
    var rest := RemoveAt(c, b);
    forall p | p in rest
      ensures p in c
    {
      var j :| 0 <= j < |rest| && rest[j] == p;
      assert p == if j < b then c[j] else c[j + 1];
    }
  }

  /** Removing one entry of a list without repeats leaves a list without
      repeats that no longer holds that entry. */
  lemma RemoveAtDistinct(c: seq<nat>, b: nat)
    requires b < |c| && Distinct(c)
    ensures Distinct(RemoveAt(c, b)) && c[b] !in RemoveAt(c, b)
  {
    var r := RemoveAt(c, b);
    forall i, j | 0 <= i < j < |r|
      ensures r[i] != r[j]
    {
      var i', j' := if i < b then i else i + 1, if j < b then j else j + 1;
      assert r[i] == c[i'] && r[j] == c[j'];
    }
    forall j | 0 <= j < |r|
      ensures r[j] != c[b]
    {
      var j' := if j < b then j else j + 1;
      assert r[j] == c[j'];
    }
  }

  /** Distinct candidates give distinct picks. */
  lemma {:induction false} TopKDistinct(c: seq<nat>, estimates: seq<Estimate>, k: nat)
    requires Within(c, |estimates|) && Distinct(c)
    ensures Distinct(TopK(c, estimates, k))
    decreases k
  {
    if k > 0 && |c| > 0 {
      var b := BestIndex(c, estimates);
      var rest := RemoveAt(c, b);
      RemoveAtDistinct(c, b);
      TopKDistinct(rest, estimates, k - 1);
      var tail := TopK(rest, estimates, k - 1);
      var picks := TopK(c, estimates, k);
      assert picks == [c[b]] + tail;
      forall i, j | 0 <= i < j < |picks|
        ensures picks[i] != picks[j]
      {
        assert picks[j] == tail[j - 1];
        if i > 0 {
          assert picks[i] == tail[i - 1];
        } else {
          TopKMembers(rest, estimates, k - 1);
          assert tail[j - 1] in tail;
        }
      }
    }
  }

  predicate NonIncreasing(picks: seq<nat>, estimates: seq<Estimate>)
    requires Within(picks, |estimates|)
  {
    forall i, j :: 0 <= i < j < |picks| ==>
      estimates[picks[j]].expectedReturn <= estimates[picks[i]].expectedReturn
  }

  /** Every pick is at least as good as every candidate left out. */
  predicate Dominates(picks: seq<nat>, c: seq<nat>, estimates: seq<Estimate>)
    requires Within(picks, |estimates|) && Within(c, |estimates|)
  {
    forall i, j :: 0 <= i < |c| && c[i] !in picks && 0 <= j < |picks| ==>
      estimates[c[i]].expectedReturn <= estimates[picks[j]].expectedReturn
  }

  /** Picks come in non-increasing expected-return order. */
  lemma {:induction false} TopKOrdered(c: seq<nat>, estimates: seq<Estimate>, k: nat)
    requires Within(c, |estimates|)
    ensures NonIncreasing(TopK(c, estimates, k), estimates)
    decreases k
  {
    if k > 0 && |c| > 0 {
      var b := BestIndex(c, estimates);
      var rest := RemoveAt(c, b);
      TopKOrdered(rest, estimates, k - 1);
      var tail := TopK(rest, estimates, k - 1);
      var picks := TopK(c, estimates, k);
      assert picks == [c[b]] + tail;
      forall i, j | 0 <= i < j < |picks|
        ensures estimates[picks[j]].expectedReturn <= estimates[picks[i]].expectedReturn
      {
        assert picks[j] == tail[j - 1];
        if i > 0 {
          assert picks[i] == tail[i - 1];
          assert 0 <= i - 1 < j - 1 < |tail|;
          assert estimates[tail[j - 1]].expectedReturn <= estimates[tail[i - 1]].expectedReturn;
        } else {
          RemoveAtMembers(c, b);
          TopKMembers(rest, estimates, k - 1);
          assert tail[j - 1] in tail;
          assert tail[j - 1] in rest;
          assert tail[j - 1] in c;
          var m :| 0 <= m < |c| && c[m] == tail[j - 1];
          assert estimates[c[m]].expectedReturn <= estimates[c[b]].expectedReturn;
          assert picks[i] == c[b];
        }
      }
    }
  }

  /** No candidate left out beats a pick. */
  lemma {:induction false} TopKDominates(c: seq<nat>, estimates: seq<Estimate>, k: nat)
    requires Within(c, |estimates|)
    ensures Dominates(TopK(c, estimates, k), c, estimates)
    decreases k
  {
    if k > 0 && |c| > 0 {
      var b := BestIndex(c, estimates);
      var rest := RemoveAt(c, b);
      TopKDominates(rest, estimates, k - 1);
      var tail := TopK(rest, estimates, k - 1);
      var picks := TopK(c, estimates, k);
      assert picks == [c[b]] + tail;
      forall i, j | 0 <= i < |c| && c[i] !in picks && 0 <= j < |picks|
        ensures estimates[c[i]].expectedReturn <= estimates[picks[j]].expectedReturn
      {
        assert picks[0] == c[b];
        assert i != b;
        if j > 0 {
          assert picks[j] == tail[j - 1];
          var i' := if i < b then i else i - 1;
          assert rest[i'] == c[i];
          assert c[i] !in tail;
          assert estimates[rest[i']].expectedReturn <= estimates[tail[j - 1]].expectedReturn;
        }
      }
    }
  }

  /** `range(n)` is empty for a negative n. */
  function Picks(tickersPerCluster: int): nat {
    if tickersPerCluster < 0 then 0 else tickersPerCluster
  }

  /** `len(set(labels))`: the clusters are visited as ids 0 .. this - 1. */
  function NumClusters(labels: seq<nat>): nat {
    |set l | l in labels|
  }

  /** The blocks 0 .. n - 1 joined in order. */
  function Concat(blocks: nat -> seq<nat>, n: nat): seq<nat> {
    if n == 0 then [] else Concat(blocks, n - 1) + blocks(n - 1)
  }

  /** Every joined entry comes from one of the blocks. */
  lemma {:induction false} ConcatSource(blocks: nat -> seq<nat>, n: nat, s: nat) returns (q: nat)
    requires s in Concat(blocks, n)
    ensures q < n && s in blocks(q)
  {
    assert Concat(blocks, n) == Concat(blocks, n - 1) + blocks(n - 1);
    if s in blocks(n - 1) {
      q := n - 1;
    } else {
      q := ConcatSource(blocks, n - 1, s);
    }
  }

  /** Every entry of every block is joined. */
  lemma {:induction false} ConcatHas(blocks: nat -> seq<nat>, n: nat, q: nat, s: nat)
    requires q < n && s in blocks(q)
    ensures s in Concat(blocks, n)
  {
    assert Concat(blocks, n) == Concat(blocks, n - 1) + blocks(n - 1);
    if q < n - 1 {
      ConcatHas(blocks, n - 1, q, s);
    }
  }

  /** Nothing is joined exactly when every block is empty. */
  lemma {:induction false} ConcatEmpty(blocks: nat -> seq<nat>, n: nat)
    ensures Concat(blocks, n) == [] <==> forall q: nat :: q < n ==> blocks(q) == []
  {
    if n > 0 {
      ConcatEmpty(blocks, n - 1);
      assert Concat(blocks, n) == Concat(blocks, n - 1) + blocks(n - 1);
    }
  }

  /** Every entry of block q is a position labelled q. */
  predicate Labelled(blocks: nat -> seq<nat>, labels: seq<nat>, q: nat) {
    forall s :: s in blocks(q) ==> s < |labels| && labels[s] == q
  }

  /** Blocks without repeats whose entries are labelled by their block's
      number join without repeats. */
  lemma {:induction false} ConcatDistinct(blocks: nat -> seq<nat>, n: nat, labels: seq<nat>)
    requires forall q: nat :: q < n ==> Distinct(blocks(q)) && Labelled(blocks, labels, q)
    ensures Distinct(Concat(blocks, n))
  {
    if n > 0 {
      var prefix := Concat(blocks, n - 1);
      var last := blocks(n - 1);
      ConcatDistinct(blocks, n - 1, labels);
      assert Labelled(blocks, labels, n - 1);
      forall x | x in prefix
        ensures x !in last
      {
        var q := ConcatSource(blocks, n - 1, x);
        assert Labelled(blocks, labels, q);
      }
      DistinctConcat(prefix, last);
    }
  }

  /** Each cluster's top k candidates. */
  function ClusterPicks(labels: seq<nat>, estimates: seq<Estimate>, k: nat,
                        erThreshold: real, alphaThreshold: real): nat -> seq<nat>
  {
    (q: nat) => TopK(Candidates(labels, estimates, q, erThreshold, alphaThreshold), estimates, k)
  }

  /** The picks of clusters 0 .. i - 1, cluster by cluster. */
  function SelectedUpTo(labels: seq<nat>, estimates: seq<Estimate>, k: nat,
                        erThreshold: real, alphaThreshold: real, i: nat): seq<nat>
  {
    Concat(ClusterPicks(labels, estimates, k, erThreshold, alphaThreshold), i)
  }

  function Selected(labels: seq<nat>, estimates: seq<Estimate>, k: nat,
                    erThreshold: real, alphaThreshold: real): seq<nat>
  {
    SelectedUpTo(labels, estimates, k, erThreshold, alphaThreshold, NumClusters(labels))
  }

  /** The selection loop: for each cluster id, filter the cluster by both
      thresholds and take its top k. */
  method SelectStocks(labels: seq<nat>, estimates: seq<Estimate>, tickersPerCluster: int,
                      erThreshold: real, alphaThreshold: real)
    returns (selected: seq<nat>)
    ensures selected == Selected(labels, estimates, Picks(tickersPerCluster), erThreshold, alphaThreshold)
  {
    var k := Picks(tickersPerCluster);
    var numClusters := NumClusters(labels);
    selected := [];
    var i := 0;
    while i < numClusters
      invariant i <= numClusters
      invariant selected == SelectedUpTo(labels, estimates, k, erThreshold, alphaThreshold, i)
    {
      var positive := Candidates(labels, estimates, i, erThreshold, alphaThreshold);
      var picks := PickTop(positive, estimates, k);
      selected := selected + picks;
      i := i + 1;
    }
  }

  /** Up to k times: take the `idxmax` stock of what is left and drop it,
      stopping early once nothing is left. */
  method PickTop(positive: seq<nat>, estimates: seq<Estimate>, k: nat) returns (picks: seq<nat>)
    requires Within(positive, |estimates|)
    ensures picks == TopK(positive, estimates, k)
  {
    picks := [];
    var left := positive;
    var t := 0;
    while t < k
      invariant t <= k
      invariant Within(left, |estimates|)
      invariant picks + TopK(left, estimates, k - t) == TopK(positive, estimates, k)
    {
      if left == [] {
        break;
      }
      var b := BestIndex(left, estimates);
      picks := picks + [left[b]];
      left := RemoveAt(left, b);
      t := t + 1;
    }
  }

  /** A cluster's candidates are exactly its members meeting both thresholds. */
  lemma CandidatesExact(labels: seq<nat>, estimates: seq<Estimate>, cluster: nat,
                        erThreshold: real, alphaThreshold: real)
    ensures forall s: nat :: s in Candidates(labels, estimates, cluster, erThreshold, alphaThreshold) <==>
      s < |labels| && s < |estimates| && labels[s] == cluster
      && Qualifies(estimates[s], erThreshold, alphaThreshold)
  {
    var keep := Qualifying(labels, estimates, cluster, erThreshold, alphaThreshold);
    WhereComplete(keep, |labels|);
    var c := Candidates(labels, estimates, cluster, erThreshold, alphaThreshold);
    forall s: nat | s in c
      ensures keep(s)
    {
      var j :| 0 <= j < |c| && c[j] == s;
    }
  }

  /** Joining two lists without repeats and with no common entry gives a list without repeats. */
  lemma DistinctConcat(a: seq<nat>, b: seq<nat>)
    requires Distinct(a) && Distinct(b)
    requires forall x :: x in a ==> x !in b
    ensures Distinct(a + b)
  {
    var ab := a + b;
    forall x, y | 0 <= x < y < |ab|
      ensures ab[x] != ab[y]
    {
      if x < |a| <= y {
        assert ab[x] in a && ab[y] == b[y - |a|];
      } else if |a| <= x {
        assert ab[x] == b[x - |a|] && ab[y] == b[y - |a|];
      }
    }
  }

  /** The picks of one cluster all carry that cluster's label and meet both thresholds. */
  lemma TopKInCluster(labels: seq<nat>, estimates: seq<Estimate>, k: nat,
                      erThreshold: real, alphaThreshold: real, q: nat)
    ensures forall x :: x in TopK(Candidates(labels, estimates, q, erThreshold, alphaThreshold), estimates, k) ==>
      x < |labels| && x < |estimates| && labels[x] == q
      && Qualifies(estimates[x], erThreshold, alphaThreshold)
  {
    CandidatesExact(labels, estimates, q, erThreshold, alphaThreshold);
    TopKMembers(Candidates(labels, estimates, q, erThreshold, alphaThreshold), estimates, k);
  }

  /** Every selected stock belongs to one of the visited clusters and meets
      both thresholds. */
  lemma SelectionQualifies(labels: seq<nat>, estimates: seq<Estimate>, k: nat,
                           erThreshold: real, alphaThreshold: real, i: nat)
    ensures forall s :: s in SelectedUpTo(labels, estimates, k, erThreshold, alphaThreshold, i) ==>
      s < |labels| && s < |estimates| && labels[s] < i
      && Qualifies(estimates[s], erThreshold, alphaThreshold)
  {
    var blocks := ClusterPicks(labels, estimates, k, erThreshold, alphaThreshold);
    forall s | s in Concat(blocks, i)
      ensures s < |labels| && s < |estimates| && labels[s] < i
        && Qualifies(estimates[s], erThreshold, alphaThreshold)
    {
      var q := ConcatSource(blocks, i, s);
      TopKInCluster(labels, estimates, k, erThreshold, alphaThreshold, q);
    }
  }

  /** No stock is selected twice. */
  lemma SelectionDistinct(labels: seq<nat>, estimates: seq<Estimate>, k: nat,
                          erThreshold: real, alphaThreshold: real, i: nat)
    ensures Distinct(SelectedUpTo(labels, estimates, k, erThreshold, alphaThreshold, i))
  {
    var blocks := ClusterPicks(labels, estimates, k, erThreshold, alphaThreshold);
    forall q: nat | q < i
      ensures Distinct(blocks(q)) && Labelled(blocks, labels, q)
    {
      var c := Candidates(labels, estimates, q, erThreshold, alphaThreshold);
      WhereAscending(Qualifying(labels, estimates, q, erThreshold, alphaThreshold), |labels|);
      assert Distinct(c);
      TopKDistinct(c, estimates, k);
      TopKInCluster(labels, estimates, k, erThreshold, alphaThreshold, q);
    }
    ConcatDistinct(blocks, i, labels);
  }

  /** The stocks selected from cluster q are exactly the cluster's top k. */
  lemma SelectionPerCluster(labels: seq<nat>, estimates: seq<Estimate>, k: nat,
                            erThreshold: real, alphaThreshold: real, i: nat, q: nat)
    requires q < i
    ensures forall s: nat :: s < |labels| && labels[s] == q ==>
      (s in SelectedUpTo(labels, estimates, k, erThreshold, alphaThreshold, i) <==>
       s in TopK(Candidates(labels, estimates, q, erThreshold, alphaThreshold), estimates, k))
  {
    var blocks := ClusterPicks(labels, estimates, k, erThreshold, alphaThreshold);
    forall s: nat | s < |labels| && labels[s] == q
      ensures s in Concat(blocks, i) <==> s in blocks(q)
    {
      if s in Concat(blocks, i) {
        var r := ConcatSource(blocks, i, s);
        TopKInCluster(labels, estimates, k, erThreshold, alphaThreshold, r);
      }
      if s in blocks(q) {
        ConcatHas(blocks, i, q, s);
      }
    }
  }

  /** Nothing is selected exactly when no picks are allowed or no stock of a
      visited cluster meets both thresholds. */
  lemma SelectionEmpty(labels: seq<nat>, estimates: seq<Estimate>, k: nat,
                       erThreshold: real, alphaThreshold: real, i: nat)
    ensures SelectedUpTo(labels, estimates, k, erThreshold, alphaThreshold, i) == [] <==>
      k == 0 || forall s: nat :: s < |labels| && s < |estimates| && labels[s] < i ==>
        !Qualifies(estimates[s], erThreshold, alphaThreshold)
  {
    var blocks := ClusterPicks(labels, estimates, k, erThreshold, alphaThreshold);
    ConcatEmpty(blocks, i);
    if k > 0 {
      forall q: nat | q < i
        ensures blocks(q) == [] <==> Candidates(labels, estimates, q, erThreshold, alphaThreshold) == []
      {
      }
      if Concat(blocks, i) == [] {
        forall s: nat | s < |labels| && s < |estimates| && labels[s] < i
          ensures !Qualifies(estimates[s], erThreshold, alphaThreshold)
        {
          CandidatesExact(labels, estimates, labels[s], erThreshold, alphaThreshold);
        }
      } else {
        var q: nat :| q < i && blocks(q) != [];
        var c := Candidates(labels, estimates, q, erThreshold, alphaThreshold);
        CandidatesExact(labels, estimates, q, erThreshold, alphaThreshold);
        assert c[0] in c;
      }
    }
  }

  // ---------------------------------------------------------------------
  // Which optimised weights survive rounding

  /** The largest integer not above x. */
  function FloorOf(x: real): (f: int)
    ensures f as real <= x < f as real + 1.0
  {
    x.Floor
  }

  /** numpy's `round` to an integer: the nearest one, ties to the even one. */
  function RoundHalfEven(x: real): (n: int)
    ensures -0.5 <= n as real - x <= 0.5
    ensures (n as real - x == 0.5 || x - n as real == 0.5) ==> n % 2 == 0
    ensures n > 0 <==> x > 0.5
  {
    var f := FloorOf(x);
    var d := x - f as real;
    if d < 0.5 then f else if d > 0.5 then f + 1 else if f % 2 == 0 then f else f + 1
  }

  /** 10 to the power `digits`. */
  function Scale(digits: nat): (s: real)
    ensures s >= 1.0
  {
    if digits == 0 then 1.0 else 10.0 * Scale(digits - 1)
  }

  /** A weight in units of the last kept digit. */
  function Scaled(w: real, digits: nat): real {
    w * Scale(digits)
  }

  /** `round(w, digits)`: the nearest multiple of 10^-digits, ties to even. */
  function RoundTo(w: real, digits: nat): real {
    RoundHalfEven(Scaled(w, digits)) as real / Scale(digits)
  }

  lemma QuotientSign(a: real, s: real)
    requires s > 0.0
    ensures a / s > 0.0 <==> a > 0.0
  {
    var q := a / s;
    assert q * s == a;
    if q > 0.0 {
      MulMonotone(s, q, 0.0);
    }
    if a > 0.0 && q <= 0.0 {
      MulMonotone(s, 0.0, q);
    }
  }

  /** A weight survives rounding exactly when it is more than half a unit of
      the last kept digit: a weight of exactly half a unit rounds to 0. */
  lemma RoundedPositive(w: real, digits: nat)
    ensures RoundTo(w, digits) > 0.0 <==> Scaled(w, digits) > 0.5
  {
    QuotientSign(RoundHalfEven(Scaled(w, digits)) as real, Scale(digits));
  }

  /** At 2 decimal places a weight survives exactly when it exceeds 0.005. */
  lemma RoundedPositiveTwoPlaces(w: real)
    ensures RoundTo(w, 2) > 0.0 <==> w > 0.005
  {
    RoundedPositive(w, 2);
    assert Scale(2) == 100.0;
  }

  /** At 4 decimal places a weight survives exactly when it exceeds 0.00005. */
  lemma RoundedPositiveFourPlaces(w: real)
    ensures RoundTo(w, 4) > 0.0 <==> w > 0.00005
  {
    RoundedPositive(w, 4);
    assert Scale(4) == 10000.0;
  }

  predicate DistinctKeys(a: Allocation) {
    forall i, j :: 0 <= i < j < |a| ==> a[i].ticker != a[j].ticker
  }

  /** The dictionary built from the first n (ticker, rounded weight) pairs,
      keeping positive weights only: every entry is a positive rounded weight
      of its own ticker, every positive one is there, and distinct tickers
      give distinct keys. */
  function KeepPositive(tickers: seq<nat>, weights: seq<real>, digits: nat, n: nat): (a: Allocation)
    requires n <= |tickers| && n <= |weights|
    ensures forall h :: h in a ==> h.weight > 0.0
    ensures forall h :: h in a ==>
      exists j :: 0 <= j < n && h == Holding(tickers[j], RoundTo(weights[j], digits))
    ensures forall j :: 0 <= j < n && RoundTo(weights[j], digits) > 0.0 ==>
      Holding(tickers[j], RoundTo(weights[j], digits)) in a
    ensures Distinct(tickers[..n]) ==> DistinctKeys(a)
  {
    if n == 0 then []
    else
      var v := RoundTo(weights[n - 1], digits);
      var a := KeepPositive(tickers, weights, digits, n - 1);
      assert Distinct(tickers[..n]) ==> Distinct(tickers[..n - 1]) && tickers[n - 1] !in tickers[..n - 1] by {
        if Distinct(tickers[..n]) {
          assert forall j :: 0 <= j < n - 1 ==> tickers[..n - 1][j] == tickers[..n][j];
        }
      }
      var added := if v > 0.0 then [Holding(tickers[n - 1], v)] else [];
      assert Distinct(tickers[..n]) ==> DistinctKeys(a + added) by {
        if Distinct(tickers[..n]) && v > 0.0 {
          forall i | 0 <= i < |a|
            ensures a[i].ticker != tickers[n - 1]
          {
            assert a[i] in a;
            var j :| 0 <= j < n - 1 && a[i] == Holding(tickers[j], RoundTo(weights[j], digits));
            assert tickers[..n][j] == tickers[j];
          }
        }
      }
      a + added
  }

  /** `{k: v for k, v in zip(tickers, weights.round(digits)).items() if v > 0}`. */
  function Allocate(tickers: seq<nat>, weights: seq<real>, digits: nat): Allocation {
    KeepPositive(tickers, weights, digits, if |tickers| < |weights| then |tickers| else |weights|)
  }

  // ---------------------------------------------------------------------
  // The shared pipeline up to the selected tickers

  /** The regression estimates of the kept columns, in frame order. */
  function EstimatesOf(kept: seq<nat>, regress: nat -> Estimate): (e: seq<Estimate>)
    ensures |e| == |kept|
    ensures forall j :: 0 <= j < |kept| ==> e[j] == regress(kept[j])
  {
    seq(|kept|, j requires 0 <= j < |kept| => regress(kept[j]))
  }

  /** The column labels at frame positions. */
  function TickersAt(kept: seq<nat>, positions: seq<nat>): (t: seq<nat>)
    requires Within(positions, |kept|)
    ensures |t| == |positions|
    ensures forall j :: 0 <= j < |t| ==> t[j] == kept[positions[j]]
  {
    seq(|positions|, j requires 0 <= j < |positions| => kept[positions[j]])
  }

  /** The tickers picked from the kept columns under one cluster labelling. */
  function PickedTickers(kept: seq<nat>, labels: seq<nat>, regress: nat -> Estimate,
                         tickersPerCluster: int, erThreshold: real, alphaThreshold: real): seq<nat>
  {
    var estimates := EstimatesOf(kept, regress);
    var positions := Selected(labels, estimates, Picks(tickersPerCluster), erThreshold, alphaThreshold);
    SelectedWithin(labels, estimates, Picks(tickersPerCluster), erThreshold, alphaThreshold);
    TickersAt(kept, positions)
  }

  /** Selected positions are positions of the frame. */
  lemma SelectedWithin(labels: seq<nat>, estimates: seq<Estimate>, k: nat,
                       erThreshold: real, alphaThreshold: real)
    ensures Within(Selected(labels, estimates, k, erThreshold, alphaThreshold), |estimates|)
  {
    var positions := Selected(labels, estimates, k, erThreshold, alphaThreshold);
    SelectionQualifies(labels, estimates, k, erThreshold, alphaThreshold, NumClusters(labels));
    assert forall j :: 0 <= j < |positions| ==> positions[j] in positions;
  }

  /** Under any labelling with one label per kept column, the picked tickers
      are kept columns meeting both thresholds, none twice; and nothing is
      picked exactly when no picks are allowed or no kept column of a visited
      cluster meets both thresholds. */
  lemma PickedTickersQualify(kept: seq<nat>, labels: seq<nat>, regress: nat -> Estimate,
                             tickersPerCluster: int, erThreshold: real, alphaThreshold: real)
    requires Ascending(kept) && |labels| == |kept|
    ensures var picked := PickedTickers(kept, labels, regress, tickersPerCluster, erThreshold, alphaThreshold);
      && Distinct(picked)
      && (forall t :: t in picked ==> t in kept && Qualifies(regress(t), erThreshold, alphaThreshold))
      && (picked == [] <==>
            Picks(tickersPerCluster) == 0
            || forall s :: 0 <= s < |kept| && labels[s] < NumClusters(labels) ==>
                 !Qualifies(regress(kept[s]), erThreshold, alphaThreshold))
  {
    var estimates := EstimatesOf(kept, regress);
    var k := Picks(tickersPerCluster);
    var positions := Selected(labels, estimates, k, erThreshold, alphaThreshold);
    SelectedWithin(labels, estimates, k, erThreshold, alphaThreshold);
    var picked := TickersAt(kept, positions);
    var n := NumClusters(labels);
    SelectionDistinct(labels, estimates, k, erThreshold, alphaThreshold, n);
    SelectionQualifies(labels, estimates, k, erThreshold, alphaThreshold, n);
    SelectionEmpty(labels, estimates, k, erThreshold, alphaThreshold, n);
    forall x, y | 0 <= x < y < |picked|
      ensures picked[x] != picked[y]
    {
      var a, b := positions[x], positions[y];
      assert a != b;
      if a < b {
        assert kept[a] < kept[b];
      } else {
        assert kept[b] < kept[a];
      }
    }
    forall t | t in picked
      ensures t in kept && Qualifies(regress(t), erThreshold, alphaThreshold)
    {
      var j :| 0 <= j < |picked| && picked[j] == t;
      assert positions[j] in positions;
    }
  }

  /** Whatever the optimiser returns, the allocation built from the picked
      tickers holds only kept columns meeting both thresholds, each once,
      with a positive rounded weight. */
  lemma AllocationQualifies(kept: seq<nat>, labels: seq<nat>, regress: nat -> Estimate,
                            tickersPerCluster: int, erThreshold: real, alphaThreshold: real,
                            weights: seq<real>, digits: nat)
    requires Ascending(kept) && |labels| == |kept|
    ensures var picked := PickedTickers(kept, labels, regress, tickersPerCluster, erThreshold, alphaThreshold);
      var a := Allocate(picked, weights, digits);
      && DistinctKeys(a)
      && forall h :: h in a ==>
           h.weight > 0.0 && h.ticker in kept && Qualifies(regress(h.ticker), erThreshold, alphaThreshold)
  {
    var picked := PickedTickers(kept, labels, regress, tickersPerCluster, erThreshold, alphaThreshold);
    PickedTickersQualify(kept, labels, regress, tickersPerCluster, erThreshold, alphaThreshold);
    var n := if |picked| < |weights| then |picked| else |weights|;
    assert Distinct(picked[..n]) by {
      assert forall j :: 0 <= j < n ==> picked[..n][j] == picked[j];
    }
    var a := Allocate(picked, weights, digits);
    forall h | h in a
      ensures h.ticker in kept && Qualifies(regress(h.ticker), erThreshold, alphaThreshold)
    {
      var j :| 0 <= j < n && h == Holding(picked[j], RoundTo(weights[j], digits));
      assert picked[j] in picked;
    }
  }

  /** The cluster count the k-means scan settles on for n kept columns: the
      first k in 2 .. n - 1 whose silhouette score is the best. */
  ghost function OptimalK(labelling: nat -> Clustering.KMeansFit, silhouette: seq<nat> -> real,
                          n: nat): (k: nat)
    requires n >= 3
    ensures 2 <= k < n
  {
    Clustering.Optimum(Clustering.Scores(labelling, silhouette, n - 2)) + 2
  }

  /** Both strategies up to the selected tickers: the returns' date span
      bounds the factor rows, incomplete columns are dropped, the principal
      component count is chosen, the best k-means labelling of the kept
      columns is taken for 2 .. (kept - 1) clusters, and each cluster's top
      stocks are picked. An empty returns frame has no first date; PCA
      refuses a frame without columns; fewer than 3 kept columns leave
      k-means without an optimum; a labelling of the wrong length cannot be
      attached to the frame. `fit(p)(k)` is k-means with k clusters on the
      first p loadings of the kept columns. */
  method SelectTickers(returnDates: seq<int>, factors: Frames.Frame, counts: seq<nat>,
                       tickersPerCluster: int, pcVarianceThreshold: real,
                       erThreshold: real, alphaThreshold: real,
                       regress: nat -> Estimate, variance: seq<real>,
                       fit: nat -> nat -> Clustering.KMeansFit, silhouette: seq<nat> -> real)
    returns (r: Result<seq<nat>>)
    requires |factors.dates| == |factors.rows|
    ensures r == Err(IndexError) <==> |returnDates| == 0
    ensures |returnDates| > 0 ==>
      var kept := Kept(counts, FactorRows(factors, returnDates));
      && (|kept| == 0 ==> r == Err(ValueError))
      && (|kept| > 0 && |variance| == 0 ==> r == Err(ValueError))
      && (1 <= |kept| < 3 && |variance| > 0 ==> r == Err(UnboundLocal))
    ensures r.Ok? ==>
      && |returnDates| > 0 && |variance| > 0
      && var kept := Kept(counts, FactorRows(factors, returnDates));
         var labelling := fit(NumPcs(variance, pcVarianceThreshold).value);
         && |kept| >= 3
         && var clusters := OptimalK(labelling, silhouette, |kept|);
            && 2 <= clusters < |kept| && |labelling(clusters).labels| == |kept|
            && r.value == PickedTickers(kept, labelling(clusters).labels, regress,
                                        tickersPerCluster, erThreshold, alphaThreshold)
  {
    if |returnDates| == 0 {
      return Err(IndexError);
    }
    var factorRows := FactorRows(factors, returnDates);
    var kept, estimates, dropped := FilterColumns(counts, factorRows, regress);
    if |kept| == 0 {
      return Err(ValueError);
    }
    var numPcs := NumPcs(variance, pcVarianceThreshold);
    if numPcs.Err? {
      return Err(numPcs.error);
    }
    var kmeans := Clustering.ClusterKMeans(|kept| - 1, fit(numPcs.value), silhouette);
    if kmeans.Err? {
      return Err(kmeans.error);
    }
    assert kmeans.value.optimalClusters == OptimalK(fit(numPcs.value), silhouette, |kept|);
    var labels := kmeans.value.optimalLabels;
    if |labels| != |kept| {
      return Err(ValueError);
    }
    assert estimates == EstimatesOf(kept, regress);
    var positions := SelectStocks(labels, estimates, tickersPerCluster, erThreshold, alphaThreshold);
    SelectedWithin(labels, estimates, Picks(tickersPerCluster), erThreshold, alphaThreshold);
    r := Ok(TickersAt(kept, positions));
    assert r.value == PickedTickers(kept, fit(numPcs.value)(kmeans.value.optimalClusters).labels, regress,
                                    tickersPerCluster, erThreshold, alphaThreshold);
  }
}
