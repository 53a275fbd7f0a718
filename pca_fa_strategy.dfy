/** `PCA_FA`, the factor-model strategy run by the walk-forward backtest:
    daily prices become daily returns, the shared selection picks stocks,
    an empty pick yields an empty allocation, and otherwise the optimiser's
    weights rounded to 2 decimals are kept where positive. */
module PcaFaStrategy {
  import opened Common
  import opened FactorSelection
  import Frames
  import Clustering

  /** The strategy's parameters. The constructor's defaults are 1 ticker per
      cluster, 90% of the variance, and both thresholds at 0. */
  datatype PcaFa = PcaFa(
    factors: Frames.Frame,
    tickersPerCluster: int,
    pcVarianceThreshold: real,
    expectedReturnThreshold: real,
    alphaThreshold: real)

  const RoundingDigits: nat := 2

  /** An allocation for the stocks whose daily prices are dated `priceDates`.
      `counts` are the non-missing daily-return counts per column, and the
      remaining parameters stand for the regression, PCA, k-means, silhouette
      and optimiser results. Fewer than two price rows leave no return to
      date the factor window with. */
  method GeneratePortfolio(s: PcaFa, priceDates: seq<int>, counts: seq<nat>,
                           regress: nat -> Estimate, variance: seq<real>,
                           fit: nat -> nat -> Clustering.KMeansFit, silhouette: seq<nat> -> real,
                           optimise: seq<nat> -> seq<real>)
    returns (r: Result<Allocation>)
    requires |s.factors.dates| == |s.factors.rows|
    ensures r == Err(IndexError) <==> |priceDates| < 2
    ensures |priceDates| >= 2 ==>
      var kept := Kept(counts, FactorRows(s.factors, priceDates[1..]));
      && (|kept| == 0 ==> r == Err(ValueError))
      && (1 <= |kept| < 3 && |variance| > 0 ==> r == Err(UnboundLocal))
      && (r.Ok? ==> DistinctKeys(r.value))
      && (r.Ok? ==> forall h :: h in r.value ==>
            && h.weight > 0.0
            && h.ticker < |counts| && counts[h.ticker] == FactorRows(s.factors, priceDates[1..])
            && Qualifies(regress(h.ticker), s.expectedReturnThreshold, s.alphaThreshold))
    ensures r.Ok? ==>
      && |priceDates| >= 2 && |variance| > 0
      && var kept := Kept(counts, FactorRows(s.factors, priceDates[1..]));
         var labelling := fit(NumPcs(variance, s.pcVarianceThreshold).value);
         && |kept| >= 3
         && var clusters := OptimalK(labelling, silhouette, |kept|);
            && 2 <= clusters < |kept| && |labelling(clusters).labels| == |kept|
            && var picked := PickedTickers(kept, labelling(clusters).labels, regress, s.tickersPerCluster,
                                           s.expectedReturnThreshold, s.alphaThreshold);
               r.value == if picked == [] then [] else Allocate(picked, optimise(picked), RoundingDigits)
  {
    if |priceDates| < 2 {
      return Err(IndexError);
    }
    var returnDates := priceDates[1..];
    var selected := SelectTickers(returnDates, s.factors, counts, s.tickersPerCluster, s.pcVarianceThreshold,
                                  s.expectedReturnThreshold, s.alphaThreshold,
                                  regress, variance, fit, silhouette);
    if selected.Err? {
      return Err(selected.error);
    }
    ghost var kept := Kept(counts, FactorRows(s.factors, returnDates));
    ghost var labelling := fit(NumPcs(variance, s.pcVarianceThreshold).value);
    ghost var clusters := OptimalK(labelling, silhouette, |kept|);
    assert 2 <= clusters < |kept| && |labelling(clusters).labels| == |kept|
      && selected.value == PickedTickers(kept, labelling(clusters).labels, regress, s.tickersPerCluster,
                                         s.expectedReturnThreshold, s.alphaThreshold);
    if selected.value == [] {
      return Ok([]);
    }
    var weights := optimise(selected.value);
    r := Ok(Allocate(selected.value, weights, RoundingDigits));
    AllocationQualifies(kept, labelling(clusters).labels, regress, s.tickersPerCluster,
                        s.expectedReturnThreshold, s.alphaThreshold, weights, RoundingDigits);
  }

  /** A portfolio strategy has no trading signals: asking for them always raises. */
  function GenerateSignals(s: PcaFa): (r: Result<seq<int>>)
    ensures r == Err(NotImplemented)
  {
    Err(NotImplemented)
  }
}
