/** `pca_fa`, the stand-alone investing version of the factor-model
    strategy: it starts from daily returns, uses fixed thresholds (expected
    return above 1%, alpha above 0), rounds the optimiser's weights to 4
    decimals, and has no guard for an empty pick, which fails when the
    covariance matrix of no assets is built. */
module PcaFaInvesting {
  import opened Common
  import opened FactorSelection
  import Frames
  import Clustering

  const MinExpectedReturn: real := 0.01
  const MinAlpha: real := 0.0
  const RoundingDigits: nat := 4

  /** The allocation for the stocks whose daily returns are dated
      `returnDates`, with the same stand-ins for the numerical stages as the
      backtestable strategy. The defaults are 1 ticker per cluster and 90%
      of the variance. */
  method PcaFa(returnDates: seq<int>, factors: Frames.Frame, counts: seq<nat>,
               tickersPerCluster: int, pcVarianceThreshold: real,
               regress: nat -> Estimate, variance: seq<real>,
               fit: nat -> nat -> Clustering.KMeansFit, silhouette: seq<nat> -> real,
               optimise: seq<nat> -> seq<real>)
    returns (r: Result<Allocation>)
    requires |factors.dates| == |factors.rows|
    ensures r == Err(IndexError) <==> |returnDates| == 0
    ensures |returnDates| > 0 ==>
      var kept := Kept(counts, FactorRows(factors, returnDates));
      && (|kept| == 0 ==> r == Err(ValueError))
      && (1 <= |kept| < 3 && |variance| > 0 ==> r == Err(UnboundLocal))
      && ((forall t :: t in kept ==> !Qualifies(regress(t), MinExpectedReturn, MinAlpha)) ==> r.Err?)
      && (r.Ok? ==> DistinctKeys(r.value))
      && (r.Ok? ==> forall h :: h in r.value ==>
            && h.weight > 0.0
            && h.ticker < |counts| && counts[h.ticker] == FactorRows(factors, returnDates)
            && Qualifies(regress(h.ticker), MinExpectedReturn, MinAlpha))
    ensures r.Ok? ==>
      && |returnDates| > 0 && |variance| > 0
      && var kept := Kept(counts, FactorRows(factors, returnDates));
         var labelling := fit(NumPcs(variance, pcVarianceThreshold).value);
         && |kept| >= 3
         && var clusters := OptimalK(labelling, silhouette, |kept|);
            && 2 <= clusters < |kept| && |labelling(clusters).labels| == |kept|
            && var picked := PickedTickers(kept, labelling(clusters).labels, regress, tickersPerCluster,
                                           MinExpectedReturn, MinAlpha);
               picked != [] && r.value == Allocate(picked, optimise(picked), RoundingDigits)
  {
    var selected := SelectTickers(returnDates, factors, counts, tickersPerCluster, pcVarianceThreshold,
                                  MinExpectedReturn, MinAlpha, regress, variance, fit, silhouette);
    if selected.Err? {
      return Err(selected.error);
    }
    ghost var kept := Kept(counts, FactorRows(factors, returnDates));
    ghost var labelling := fit(NumPcs(variance, pcVarianceThreshold).value);
    ghost var clusters := OptimalK(labelling, silhouette, |kept|);
    assert 2 <= clusters < |kept| && |labelling(clusters).labels| == |kept|
      && selected.value == PickedTickers(kept, labelling(clusters).labels, regress, tickersPerCluster,
                                         MinExpectedReturn, MinAlpha);
    PickedTickersQualify(kept, labelling(clusters).labels, regress, tickersPerCluster, MinExpectedReturn, MinAlpha);
    if selected.value == [] {
      // the beta matrix of no assets cannot be multiplied by the factor covariance
      return Err(ValueError);
    }
    var weights := optimise(selected.value);
    r := Ok(Allocate(selected.value, weights, RoundingDigits));
    AllocationQualifies(kept, labelling(clusters).labels, regress, tickersPerCluster,
                        MinExpectedReturn, MinAlpha, weights, RoundingDigits);
  }
}
