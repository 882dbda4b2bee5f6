/**
 * The clustering loop of Week2/kmeans.py:29-36 as its authors evidently
 * meant it: Lloyd's algorithm run until the centroids stop moving. The
 * as-written loop, modelled in `KMeans.KMeans`, shares one array between
 * `centroid` and `new_centroid` from the second pass on and so can return
 * before reaching a fixed point.
 */
module Lloyd {
  import opened Points
  import opened Nearest
  import opened KMeans
  import opened Costs

  /**
   * How the corrected loop ends: at a fixed point, with an empty cluster,
   * after the allowed number of passes, or at once when there are no
   * centroids at all.
   */
  datatype FixStatus = Converged | ZeroClusters | EmptyCluster | PassLimit

  /**
   * The centroids after `n` passes of Lloyd's algorithm from `cs`, each
   * pass assigning every row to its nearest centroid and moving every
   * centroid to the mean of its cluster. A pass that would leave a cluster
   * empty is not taken: the iteration stays where it is.
   */
  function LloydIter(xs: seq<Point>, cs: seq<Point>, n: nat): (it: seq<Point>)
    requires cs != []
    ensures |it| == |cs|
  {
    if n == 0 then cs
    else
      var prev := LloydIter(xs, cs, n - 1);
      var labels := Assign(xs, prev);
      if NoEmptyCluster(labels, |prev|) then Means(xs, labels, |prev|) else prev
  }

  /** Pass `i + 1` from `seeds` found no empty cluster and moved the centroids. */
  predicate PassMoved(xs: seq<Point>, seeds: seq<Point>, i: nat)
    requires seeds != []
  {
    && NoEmptyCluster(Assign(xs, LloydIter(xs, seeds, i)), |seeds|)
    && LloydIter(xs, seeds, i + 1) != LloydIter(xs, seeds, i)
  }

  /** Each of the first `n` passes from `seeds` moved the centroids. */
  predicate MovedEveryPass(xs: seq<Point>, seeds: seq<Point>, n: nat)
    requires seeds != []
  {
    forall i: nat :: i < n ==> PassMoved(xs, seeds, i)
  }

  /** A pass without an empty cluster takes `LloydIter` one step further. */
  lemma LloydIterStep(xs: seq<Point>, seeds: seq<Point>, n: nat, ms: seq<Point>)
    requires seeds != []
    requires NoEmptyCluster(Assign(xs, LloydIter(xs, seeds, n)), |seeds|)
    requires ms == Means(xs, Assign(xs, LloydIter(xs, seeds, n)), |seeds|)
    ensures LloydIter(xs, seeds, n + 1) == ms
  {
  }

  /** A pass that moves the centroids extends `MovedEveryPass` by one. */
  lemma MovedEveryPassStep(xs: seq<Point>, seeds: seq<Point>, n: nat)
    requires seeds != [] && MovedEveryPass(xs, seeds, n)
    requires NoEmptyCluster(Assign(xs, LloydIter(xs, seeds, n)), |seeds|)
    requires LloydIter(xs, seeds, n + 1) != LloydIter(xs, seeds, n)
    ensures MovedEveryPass(xs, seeds, n + 1)
  {
    assert PassMoved(xs, seeds, n);
  }

  /**
   * What the corrected loop keeps true after `n` passes with centroids
   * `cs`: they are the `n`-th Lloyd iterate, every pass so far moved them,
   * and they cost no more than the chosen rows with their nearest labels.
   */
  predicate OnTrack(xs: seq<Point>, seeds: seq<Point>, n: nat, cs: seq<Point>)
    requires seeds != []
  {
    && cs == LloydIter(xs, seeds, n)
    && MovedEveryPass(xs, seeds, n)
    && LabelsBelow(Assign(xs, cs), |seeds|)
    && LabelsBelow(Assign(xs, seeds), |seeds|)
    && Cost(xs, Assign(xs, cs), cs) <= Cost(xs, Assign(xs, seeds), seeds)
  }

  /** Before any pass, the loop is on track. */
  lemma OnTrackStart(xs: seq<Point>, seeds: seq<Point>)
    requires seeds != []
    ensures OnTrack(xs, seeds, 0, seeds)
  {
    AssignMinimisesCost(xs, seeds, Assign(xs, seeds));
  }

  /** A pass without an empty cluster that moves the centroids keeps the loop on track. */
  lemma OnTrackStep(xs: seq<Point>, seeds: seq<Point>, n: nat, ms: seq<Point>)
    requires seeds != [] && OnTrack(xs, seeds, n, LloydIter(xs, seeds, n))
    requires NoEmptyCluster(Assign(xs, LloydIter(xs, seeds, n)), |seeds|)
    requires ms == Means(xs, Assign(xs, LloydIter(xs, seeds, n)), |seeds|)
    requires ms != LloydIter(xs, seeds, n)
    ensures OnTrack(xs, seeds, n + 1, ms)
  {
    PassLowersCost(xs, LloydIter(xs, seeds, n));
    LloydIterStep(xs, seeds, n, ms);
    MovedEveryPassStep(xs, seeds, n);
  }

  /**
   * After a pass that moved them, the chosen rows were not a Lloyd fixed
   * point: rows at a fixed point admit no pass that moves them.
   */
  lemma MovedNotFixpoint(xs: seq<Point>, seeds: seq<Point>, n: nat)
    requires seeds != [] && 0 < n && MovedEveryPass(xs, seeds, n)
    ensures !IsLloydFixpoint(xs, Assign(xs, seeds), seeds)
  {
    assert PassMoved(xs, seeds, 0);
  }

  /**
   * One pass of lines 30-33 into a fresh buffer, from centroids on track
   * after `n` passes: the labels of every row, then the means of the
   * clusters in `next`. `complete` tells whether no cluster was empty and
   * `moved` whether the test of line 33 failed. A pass that did not move
   * the centroids found a Lloyd fixed point; one that moved them keeps the
   * loop on track.
   */
  method LloydPass(X: array<Point>, centroid: array<Point>, ghost seeds: seq<Point>, ghost n: nat)
    returns (complete: bool, moved: bool, labels: array<nat>, next: array<Point>)
    requires seeds != [] && centroid.Length == |seeds|
    requires OnTrack(X[..], seeds, n, centroid[..])
    ensures labels[..] == Assign(X[..], centroid[..])
    ensures complete == NoEmptyCluster(labels[..], |seeds|)
    ensures complete && !moved ==> IsLloydFixpoint(X[..], labels[..], centroid[..])
    ensures complete && moved ==> next.Length == |seeds| && OnTrack(X[..], seeds, n + 1, next[..])
  {
    labels := AssignStep(X, centroid);
    next := new Point[centroid.Length](_ => Origin);
    complete := UpdateStep(X, labels, next);
    moved := next[..] != centroid[..];
    if complete && moved {
      OnTrackStep(X[..], seeds, n, next[..]);
    }
  }

  /**
   * The passes of the corrected loop from the centroids in `start`, which
   * hold the chosen rows `seeds`. It leaves at a fixed point, at an empty
   * cluster, or after `maxPasses` passes that moved the centroids.
   * `KMeansToFixpoint` derives from this contract that chosen rows at a
   * fixed point converge at once.
   */
  method RunPasses(X: array<Point>, start: array<Point>, maxPasses: nat, ghost seeds: seq<Point>)
    returns (status: FixStatus, labels: array<nat>, centroid: array<Point>, passes: nat)
    requires seeds != [] && start[..] == seeds
    ensures status != ZeroClusters
    ensures passes <= maxPasses
    ensures status == PassLimit <==> passes == maxPasses
    ensures status == Converged ==> IsLloydFixpoint(X[..], labels[..], centroid[..])
    ensures centroid[..] == LloydIter(X[..], seeds, passes) && MovedEveryPass(X[..], seeds, passes)
    ensures status == EmptyCluster ==>
      centroid.Length == |seeds| && !NoEmptyCluster(Assign(X[..], centroid[..]), |seeds|)
    ensures status == Converged ==>
      && LabelsBelow(labels[..], centroid.Length)
      && LabelsBelow(Assign(X[..], seeds), |seeds|)
      && Cost(X[..], labels[..], centroid[..]) <= Cost(X[..], Assign(X[..], seeds), seeds)
  {
    labels, centroid, passes := new nat[0], start, 0;
    OnTrackStart(X[..], seeds);
    status := PassLimit;
    while passes < maxPasses
      invariant passes <= maxPasses
      invariant centroid.Length == |seeds|
      invariant OnTrack(X[..], seeds, passes, centroid[..])
      invariant status == PassLimit
    {
      var complete, moved, next;
      complete, moved, labels, next := LloydPass(X, centroid, seeds, passes);
      if !complete {
        status := EmptyCluster;
        break;
      }
      if !moved {
        status := Converged;
        break;
      }
      centroid := next;
      passes := passes + 1;
    }
  }

  /**
   * The loop of lines 29-36 as evidently intended: every pass writes the
   * means into a fresh buffer, so the test of line 33 compares the new
   * means with the centroids they were computed from, and the loop leaves
   * only at a Lloyd fixed point. `maxPasses` bounds the number of passes
   * that move the centroids; `passes` counts them, and every one of them
   * is a step of `LloydIter` that changed the centroids.
   */
  method KMeansToFixpoint(X: array<Point>, init: seq<nat>, maxPasses: nat)
    returns (status: FixStatus, labels: array<nat>, centroid: array<Point>, passes: nat)
    requires ValidSeeds(X.Length, init)
    ensures status == ZeroClusters <==> init == []
    ensures passes <= maxPasses
    ensures status == PassLimit <==> init != [] && passes == maxPasses
    ensures init != [] && maxPasses > 0 && IsLloydFixpoint(X[..], Assign(X[..], Seeds(X[..], init)), Seeds(X[..], init))
      ==> status == Converged && passes == 0
    ensures status == Converged ==> IsLloydFixpoint(X[..], labels[..], centroid[..])
    ensures init != [] ==>
      var xs, seeds := X[..], Seeds(X[..], init);
      centroid[..] == LloydIter(xs, seeds, passes) && MovedEveryPass(xs, seeds, passes)
    ensures status == EmptyCluster ==>
      centroid.Length == |init| > 0 && !NoEmptyCluster(Assign(X[..], centroid[..]), |init|)
    ensures status == Converged ==>
      var seeds := Seeds(X[..], init);
      && LabelsBelow(labels[..], centroid.Length)
      && LabelsBelow(Assign(X[..], seeds), |seeds|)
      && Cost(X[..], labels[..], centroid[..]) <= Cost(X[..], Assign(X[..], seeds), seeds)
  {
    var k := |init|;
    if k == 0 {
      labels, centroid, passes := new nat[0], new Point[0], 0;
      status := ZeroClusters;
      return;
    }
    var start := new Point[k](c requires 0 <= c < k reads X => X[init[c]]);
    assert start[..] == Seeds(X[..], init);
    ghost var xs, seeds := X[..], Seeds(X[..], init);
    status, labels, centroid, passes := RunPasses(X, start, maxPasses, seeds);
    if passes > 0 {
      MovedNotFixpoint(xs, seeds, passes);
    }
  }
}
