/**
 * The within-cluster sum of squared distances, the quantity each step of
 * the loop in Week2/kmeans.py:29-36 can only lower: the assignment step
 * (line 30) picks the nearest centroid for every row, and the update step
 * (lines 31-32) moves every centroid to the mean of its cluster.
 */
module Costs {
  import opened Points
  import opened Nearest
  import opened KMeans

  /** Every label names one of `k` clusters. */
  predicate LabelsBelow(labels: seq<nat>, k: nat)
  {
    forall i :: 0 <= i < |labels| ==> labels[i] < k
  }

  /** Sum over the rows of the squared distance to the centroid of their label. */
  function Cost(xs: seq<Point>, labels: seq<nat>, cs: seq<Point>): (total: real)
    requires |labels| == |xs| && LabelsBelow(labels, |cs|)
    ensures total >= 0.0
    decreases |xs|
  {
    if xs == [] then 0.0
    else SqDist(xs[0], cs[labels[0]]) + Cost(xs[1..], labels[1..], cs)
  }

  /** The same sum taken cluster by cluster, over the first `k` clusters. */
  function ClusterCost(xs: seq<Point>, labels: seq<nat>, cs: seq<Point>, k: nat): (total: real)
    requires |labels| == |xs| && k <= |cs|
  {
    if k == 0 then 0.0
    else ClusterCost(xs, labels, cs, k - 1) + Spread(Members(xs, labels, k - 1), cs[k - 1])
  }

  /**
   * Among all labellings, the nearest-centroid labels of line 30 have the
   * smallest cost for the given centroids.
   */
  lemma {:induction false} AssignMinimisesCost(xs: seq<Point>, cs: seq<Point>, labels: seq<nat>)
    requires cs != []
    requires |labels| == |xs| && LabelsBelow(labels, |cs|)
    ensures LabelsBelow(Assign(xs, cs), |cs|)
    ensures Cost(xs, Assign(xs, cs), cs) <= Cost(xs, labels, cs)
    decreases |xs|
  {
    var best := Assign(xs, cs);
    if xs != [] {
      AssignMinimisesCost(xs[1..], cs, labels[1..]);
      assert best[1..] == Assign(xs[1..], cs);
      assert IsFirstNearest(xs[0], cs, best[0]);
    }
  }

  /** Regrouping the rows by cluster does not change the sum. */
  lemma {:induction false} CostByCluster(xs: seq<Point>, labels: seq<nat>, cs: seq<Point>)
    requires |labels| == |xs| && LabelsBelow(labels, |cs|)
    ensures Cost(xs, labels, cs) == ClusterCost(xs, labels, cs, |cs|)
    decreases |xs|
  {
    if xs == [] {
      ClusterCostOfNothing(xs, labels, cs, |cs|);
    } else {
      CostByCluster(xs[1..], labels[1..], cs);
      ClusterCostCons(xs, labels, cs, |cs|);
    }
  }

  lemma {:induction false} ClusterCostOfNothing(xs: seq<Point>, labels: seq<nat>, cs: seq<Point>, k: nat)
    requires xs == [] && |labels| == 0 && k <= |cs|
    ensures ClusterCost(xs, labels, cs, k) == 0.0
  {
    if k > 0 {
      ClusterCostOfNothing(xs, labels, cs, k - 1);
    }
  }

  /** Taking the first row out of every cluster removes its distance once. */
  lemma {:induction false} ClusterCostCons(xs: seq<Point>, labels: seq<nat>, cs: seq<Point>, k: nat)
    requires |labels| == |xs| > 0 && k <= |cs|
    ensures ClusterCost(xs, labels, cs, k) == ClusterCost(xs[1..], labels[1..], cs, k)
      + (if labels[0] < k then SqDist(xs[0], cs[labels[0]]) else 0.0)
  {
    if k > 0 {
      var c, tail, rest := k - 1, xs[1..], labels[1..];
      var before := if labels[0] < c then SqDist(xs[0], cs[labels[0]]) else 0.0;
      var here := if labels[0] == c then SqDist(xs[0], cs[c]) else 0.0;
      calc {
        ClusterCost(xs, labels, cs, k);
      ==
        ClusterCost(xs, labels, cs, c) + Spread(Members(xs, labels, c), cs[c]);
      == { ClusterCostCons(xs, labels, cs, c); }
        ClusterCost(tail, rest, cs, c) + before + Spread(Members(xs, labels, c), cs[c]);
      == { SpreadOfMembersCons(xs, labels, c, cs[c]); }
        ClusterCost(tail, rest, cs, c) + before + (Spread(Members(tail, rest, c), cs[c]) + here);
      ==
        ClusterCost(tail, rest, cs, k) + (before + here);
      }
    }
  }

  lemma SpreadOfMembersCons(xs: seq<Point>, labels: seq<nat>, c: nat, q: Point)
    requires |labels| == |xs| > 0
    ensures Spread(Members(xs, labels, c), q)
      == Spread(Members(xs[1..], labels[1..], c), q) + (if labels[0] == c then SqDist(xs[0], q) else 0.0)
  {
    var rest := Members(xs[1..], labels[1..], c);
    MembersCons(xs, labels, c);
    if labels[0] == c {
      assert ([xs[0]] + rest)[1..] == rest;
    } else {
      assert [] + rest == rest;
    }
  }

  /**
   * For a fixed labelling without empty clusters, the means of lines 31-32
   * have the smallest cost of all centroid choices.
   */
  lemma MeansMinimiseCost(xs: seq<Point>, labels: seq<nat>, cs: seq<Point>)
    requires |labels| == |xs| && LabelsBelow(labels, |cs|)
    requires NoEmptyCluster(labels, |cs|)
    ensures LabelsBelow(labels, |Means(xs, labels, |cs|)|)
    ensures Cost(xs, labels, Means(xs, labels, |cs|)) <= Cost(xs, labels, cs)
  {
    var ms := Means(xs, labels, |cs|);
    CostByCluster(xs, labels, cs);
    CostByCluster(xs, labels, ms);
    MeansMinimiseClusterCost(xs, labels, cs, |cs|);
  }

  lemma {:induction false} MeansMinimiseClusterCost(xs: seq<Point>, labels: seq<nat>, cs: seq<Point>, k: nat)
    requires |labels| == |xs| && k <= |cs|
    requires NoEmptyCluster(labels, |cs|)
    ensures ClusterCost(xs, labels, Means(xs, labels, |cs|), k) <= ClusterCost(xs, labels, cs, k)
  {
    if k > 0 {
      MeansMinimiseClusterCost(xs, labels, cs, k - 1);
      var cluster := Members(xs, labels, k - 1);
      assert k - 1 in labels;
      SpreadAroundBalancePoint(cluster, Means(xs, labels, |cs|)[k - 1], cs[k - 1]);
    }
  }

  /**
   * One full pass of Lloyd's algorithm, assignment then update, never
   * raises the cost of the current labels and centroids.
   */
  lemma PassLowersCost(xs: seq<Point>, cs: seq<Point>)
    requires cs != []
    requires NoEmptyCluster(Assign(xs, cs), |cs|)
    ensures var labels := Assign(xs, cs);
      var ms := Means(xs, labels, |cs|);
      && LabelsBelow(labels, |cs|)
      && LabelsBelow(Assign(xs, ms), |ms|)
      && Cost(xs, Assign(xs, ms), ms) <= Cost(xs, labels, ms) <= Cost(xs, labels, cs)
  {
    var labels := Assign(xs, cs);
    var ms := Means(xs, labels, |cs|);
    AssignMinimisesCost(xs, cs, labels);
    MeansMinimiseCost(xs, labels, cs);
    AssignMinimisesCost(xs, ms, labels);
  }

  /**
   * Even the as-written loop never ends with a higher cost than the seeds
   * and their nearest-centroid labels had.
   */
  lemma RunLowersCost(xs: seq<Point>, init: seq<nat>)
    requires ValidSeeds(|xs|, init)
    ensures var run := KMeansRun(xs, init);
      var seeds := Seeds(xs, init);
      run.status == Returned ==>
        && LabelsBelow(run.labels, |run.centroids|)
        && LabelsBelow(Assign(xs, seeds), |seeds|)
        && Cost(xs, run.labels, run.centroids) <= Cost(xs, Assign(xs, seeds), seeds)
  {
    var run := KMeansRun(xs, init);
    if run.status == Returned {
      var seeds := Seeds(xs, init);
      var first := Assign(xs, seeds);
      AssignMinimisesCost(xs, seeds, first);
      if run.passes == 2 {
        var moved := Means(xs, first, |init|);
        assert run.centroids == Means(xs, Assign(xs, moved), |init|);
        PassLowersCost(xs, seeds);
        PassLowersCost(xs, moved);
      }
    }
  }
}
