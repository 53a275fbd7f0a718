/** Choosing the number of k-means clusters by silhouette score
    (`cluster_kmeans`). The k-means fit and the silhouette score are inputs:
    `fit(k)` is what fitting k clusters to the data yields and `silhouette`
    scores a labelling of the same data. */
module Clustering {
  import opened Common

  /** What one k-means fit yields: a cluster label per sample and the inertia. */
  datatype KMeansFit = KMeansFit(labels: seq<nat>, inertia: real)

  /** The returned dictionary. */
  datatype Clusters = Clusters(
    inertias: seq<real>,
    silhouetteScores: seq<real>,
    optimalLabels: seq<nat>,
    optimalClusters: nat)

  /** The largest of the first n scores. */
  function MaxOf(s: seq<real>, n: nat): real
    requires 0 < n <= |s|
  {
    if n == 1 then s[0]
    else
      var m := MaxOf(s, n - 1);
      if s[n - 1] > m then s[n - 1] else m
  }

  /** `max` of a non-empty list. */
  function Max(s: seq<real>): real
    requires |s| > 0
  {
    MaxOf(s, |s|)
  }

  /** The maximum of the first n scores bounds each of them and is one of them. */
  lemma {:induction false} MaxOfIsLargest(s: seq<real>, n: nat)
    requires 0 < n <= |s|
    ensures forall j :: 0 <= j < n ==> s[j] <= MaxOf(s, n)
    ensures exists j :: 0 <= j < n && s[j] == MaxOf(s, n)
  {
    if n == 1 {
      assert s[0] == MaxOf(s, n);
    } else {
      MaxOfIsLargest(s, n - 1);
      var j :| 0 <= j < n - 1 && s[j] == MaxOf(s, n - 1);
      if s[n - 1] <= MaxOf(s, n - 1) {
        assert s[j] == MaxOf(s, n);
      }
    }
  }

  /** Lists agreeing on their first n scores agree on their maximum. */
  lemma {:induction false} MaxOfPrefix(s: seq<real>, t: seq<real>, n: nat)
    requires 0 < n <= |s| && n <= |t|
    requires forall j :: 0 <= j < n ==> s[j] == t[j]
    ensures MaxOf(s, n) == MaxOf(t, n)
  {
    if n > 1 {
      MaxOfPrefix(s, t, n - 1);
    }
  }

  /** Appending a score raises the maximum exactly when it beats it. */
  lemma MaxSnoc(s: seq<real>, x: real)
    requires |s| > 0
    ensures Max(s + [x]) == if x > Max(s) then x else Max(s)
  {
    MaxOfPrefix(s + [x], s, |s|);
  }

  /** The inertias of the fits with 2 .. n + 1 clusters. */
  function Inertias(fit: nat -> KMeansFit, n: nat): (r: seq<real>)
    ensures |r| == n
  {
    if n == 0 then [] else Inertias(fit, n - 1) + [fit(n + 1).inertia]
  }

  /** Entry j is the inertia of the fit with j + 2 clusters. */
  lemma {:induction false} InertiasAt(fit: nat -> KMeansFit, n: nat)
    ensures forall j :: 0 <= j < n ==> Inertias(fit, n)[j] == fit(j + 2).inertia
  {
    if n > 0 {
      InertiasAt(fit, n - 1);
    }
  }

  /** The silhouette scores of the fits with 2 .. n + 1 clusters. */
  function Scores(fit: nat -> KMeansFit, silhouette: seq<nat> -> real, n: nat): (r: seq<real>)
    ensures |r| == n
  {
    if n == 0 then [] else Scores(fit, silhouette, n - 1) + [silhouette(fit(n + 1).labels)]
  }

  /** Entry j is the silhouette score of the fit with j + 2 clusters. */
  lemma {:induction false} ScoresAt(fit: nat -> KMeansFit, silhouette: seq<nat> -> real, n: nat)
    ensures forall j :: 0 <= j < n ==> Scores(fit, silhouette, n)[j] == silhouette(fit(j + 2).labels)
  {
    if n > 0 {
      ScoresAt(fit, silhouette, n - 1);
    }
  }

  /** Where the strict-improvement scan of the first n scores settles: the
      first position holding their maximum. */
  function FirstBest(s: seq<real>, n: nat): (o: nat)
    requires 0 < n <= |s|
    ensures o < n && s[o] == MaxOf(s, n)
    ensures forall j :: 0 <= j < o ==> s[j] < s[o]
  {
    if n == 1 then 0
    else
      var o := FirstBest(s, n - 1);
      MaxOfIsLargest(s, n - 1);
      if s[n - 1] > MaxOf(s, n - 1) then n - 1 else o
  }

  /** Lists agreeing on their first n scores agree on where the scan settles. */
  lemma {:induction false} FirstBestPrefix(s: seq<real>, t: seq<real>, n: nat)
    requires 0 < n <= |s| && n <= |t|
    requires forall j :: 0 <= j < n ==> s[j] == t[j]
    ensures FirstBest(s, n) == FirstBest(t, n)
  {
    if n > 1 {
      FirstBestPrefix(s, t, n - 1);
      MaxOfPrefix(s, t, n - 1);
    }
  }

  /** The position of the optimum among all scores. */
  function Optimum(scores: seq<real>): nat
    requires |scores| > 0
  {
    FirstBest(scores, |scores|)
  }

  /** The optimum holds the largest score, and every earlier score is strictly
      lower: ties keep the smallest k. */
  lemma OptimumIsFirstBest(scores: seq<real>)
    requires |scores| > 0
    ensures var o := Optimum(scores);
      && o < |scores|
      && (forall j :: 0 <= j < |scores| ==> scores[j] <= scores[o])
      && (forall j :: 0 <= j < o ==> scores[j] < scores[o])
  {
    MaxOfIsLargest(scores, |scores|);
  }

  /** Appending a score moves the optimum to it exactly when it beats the maximum. */
  lemma OptimumSnoc(scores: seq<real>, x: real)
    requires |scores| > 0
    ensures Optimum(scores + [x]) == if x > Max(scores) then |scores| else Optimum(scores)
  {
    FirstBestPrefix(scores + [x], scores, |scores|);
    MaxOfPrefix(scores + [x], scores, |scores|);
  }

  /** The four variables of the scan after some of its rounds. */
  datatype Scan = Scan(
    inertias: seq<real>,
    silhouetteScores: seq<real>,
    optimalLabels: Option<seq<nat>>,
    optimalClusters: Option<nat>)

  /** One round: fit k clusters, record inertia and score, and move the
      optimum to k when the score beats every earlier one. */
  function Round(s: Scan, k: nat, fit: nat -> KMeansFit, silhouette: seq<nat> -> real): Scan {
    var kmeans := fit(k);
    var score := silhouette(kmeans.labels);
    var better := s.silhouetteScores == [] || score > Max(s.silhouetteScores);
    Scan(s.inertias + [kmeans.inertia], s.silhouetteScores + [score],
         if better then Some(kmeans.labels) else s.optimalLabels,
         if better then Some(k) else s.optimalClusters)
  }

  /** The scan after the rounds for k = 2 .. n + 1. */
  function Scanned(fit: nat -> KMeansFit, silhouette: seq<nat> -> real, n: nat): Scan {
    if n == 0 then Scan([], [], None, None) else Round(Scanned(fit, silhouette, n - 1), n + 1, fit, silhouette)
  }

  /** After n rounds the scan holds the n inertias and scores in order, and,
      once a round has run, the first k with the largest score and its labels. */
  lemma {:induction false} ScannedMeaning(fit: nat -> KMeansFit, silhouette: seq<nat> -> real, n: nat)
    ensures var s := Scanned(fit, silhouette, n);
      && s.inertias == Inertias(fit, n)
      && s.silhouetteScores == Scores(fit, silhouette, n)
      && s.optimalClusters == (if n > 0 then Some(Optimum(s.silhouetteScores) + 2) else None)
      && s.optimalLabels == (if n > 0 then Some(fit(Optimum(s.silhouetteScores) + 2).labels) else None)
  {
    if n > 0 {
      var before := Scanned(fit, silhouette, n - 1);
      ScannedMeaning(fit, silhouette, n - 1);
      var score := silhouette(fit(n + 1).labels);
      if n > 1 {
        OptimumSnoc(before.silhouetteScores, score);
      }
    }
  }

  /** Tries k = 2 .. maxClusters in increasing order, recording one inertia and
      one silhouette score per k, and keeps the first k whose score beats every
      earlier one. With maxClusters < 2 nothing is tried and the optimum is
      never assigned. */
  method ClusterKMeans(maxClusters: int, fit: nat -> KMeansFit, silhouette: seq<nat> -> real)
    returns (r: Result<Clusters>)
    ensures r.Err? <==> maxClusters < 2
    ensures r.Err? ==> r.error == UnboundLocal
    ensures r.Ok? ==>
      var c := r.value;
      && c.inertias == Inertias(fit, maxClusters - 1)
      && c.silhouetteScores == Scores(fit, silhouette, maxClusters - 1)
      && c.optimalClusters == Optimum(c.silhouetteScores) + 2
      && c.optimalLabels == fit(c.optimalClusters).labels
  {
    var silhouetteScores: seq<real> := [];
    var inertias: seq<real> := [];
    var optimalLabels: Option<seq<nat>> := None;
    var optimalClusters: Option<nat> := None;
    var k := 2;
    while k <= maxClusters
      invariant 2 <= k
      invariant maxClusters < 2 ==> k == 2
      invariant maxClusters >= 2 ==> k <= maxClusters + 1
      invariant Scan(inertias, silhouetteScores, optimalLabels, optimalClusters) == Scanned(fit, silhouette, k - 2)
    {
      var kmeans := fit(k);
      var labels := kmeans.labels;
      inertias := inertias + [kmeans.inertia];
      var score := silhouette(labels);
      if silhouetteScores == [] || score > Max(silhouetteScores) {
        optimalLabels := Some(labels);
        optimalClusters := Some(k);
      }
      silhouetteScores := silhouetteScores + [score];
      k := k + 1;
    }
    ScannedMeaning(fit, silhouette, k - 2);
    if optimalClusters.None? {
      return Err(UnboundLocal);
    }
    r := Ok(Clusters(inertias, silhouetteScores, optimalLabels.value, optimalClusters.value));
  }
}
