/**
 * The clustering loop `kmeans(X, k)` of Week2/kmeans.py:24-37: Lloyd's
 * algorithm with an assignment step (line 30), an in-place update step that
 * writes the cluster means into `new_centroid` (lines 31-32), an equality test
 * (line 33) and a final re-assignment (line 34).
 *
 * After the first pass, line 36 rebinds `centroid` to the very array
 * `new_centroid`; from then on the update step writes into the array the
 * test compares against, so the second pass leaves the loop unless it
 * leaves a cluster empty. The method `KMeans` keeps that aliasing, and `KMeansRun` states its outcome
 * as a function of the data and of the initially chosen rows.
 */
module KMeans {
  import opened Points
  import opened Nearest

  /**
   * `X[label == c]`: the data rows labelled `c`, in row order.
   */
  function Members(xs: seq<Point>, labels: seq<nat>, c: nat): (ms: seq<Point>)
    requires |labels| == |xs|
    ensures |ms| <= |xs|
    ensures ms == [] <==> c !in labels
    decreases |xs|
  {
    if xs == [] then []
    else
      var rest := Members(xs[1..], labels[1..], c);
      assert labels == [labels[0]] + labels[1..];
      if labels[0] == c then [xs[0]] + rest else rest
  }

  /** One step of `Members`: the first row, if labelled `c`, then the rest. */
  lemma MembersCons(xs: seq<Point>, labels: seq<nat>, c: nat)
    requires |labels| == |xs| > 0
    ensures Members(xs, labels, c)
      == (if labels[0] == c then [xs[0]] else []) + Members(xs[1..], labels[1..], c)
  {
    if labels[0] != c {
      assert [] + Members(xs[1..], labels[1..], c) == Members(xs[1..], labels[1..], c);
    }
  }

  /** Cluster `c` has exactly as many rows as there are labels `c`. */
  lemma {:induction false} MembersCount(xs: seq<Point>, labels: seq<nat>, c: nat)
    requires |labels| == |xs|
    ensures |Members(xs, labels, c)| == multiset(labels)[c]
    decreases |xs|
  {
    if xs != [] {
      MembersCount(xs[1..], labels[1..], c);
      MembersCons(xs, labels, c);
      assert labels == [labels[0]] + labels[1..];
    }
  }

  /** Every one of the `k` clusters has at least one row. */
  predicate NoEmptyCluster(labels: seq<nat>, k: nat)
  {
    forall c :: 0 <= c < k ==> c in labels
  }

  /**
   * Lines 31-32 when no cluster is empty: row `c` of the result is the
   * balance point of the rows labelled `c`, so as many copies of it as the
   * cluster has rows add up to the cluster's total.
   */
  function Means(xs: seq<Point>, labels: seq<nat>, k: nat): (ms: seq<Point>)
    requires |labels| == |xs|
    requires NoEmptyCluster(labels, k)
    ensures |ms| == k
    ensures forall c :: 0 <= c < k ==> IsBalancePoint(Members(xs, labels, c), ms[c])
  {
    seq(k, c requires 0 <= c < k => Mean(Members(xs, labels, c)))
  }

  /**
   * The rows chosen by `np.random.choice(X.shape[0], size=k, replace=False)`
   * (line 25): `k` distinct row indices of the data.
   */
  predicate ValidSeeds(n: nat, init: seq<nat>)
  {
    && (forall c :: 0 <= c < |init| ==> init[c] < n)
    && (forall c, d :: 0 <= c < d < |init| ==> init[c] != init[d])
  }

  /** `X[random_row, :]` (line 26). */
  function Seeds(xs: seq<Point>, init: seq<nat>): (cs: seq<Point>)
    requires ValidSeeds(|xs|, init)
    ensures |cs| == |init|
    ensures forall c :: 0 <= c < |init| ==> cs[c] == xs[init[c]]
  {
    seq(|init|, c requires 0 <= c < |init| => xs[init[c]])
  }

  /**
   * A Lloyd fixed point: the labels are the nearest-centroid labels of the
   * centroids, no cluster is empty, and every centroid is the mean of its
   * cluster. Another pass of the algorithm changes nothing.
   */
  predicate IsLloydFixpoint(xs: seq<Point>, labels: seq<nat>, cs: seq<Point>)
  {
    && cs != []
    && labels == Assign(xs, cs)
    && NoEmptyCluster(labels, |cs|)
    && Means(xs, labels, |cs|) == cs
  }

  /**
   * How a call of `kmeans` ends: it returns, numpy raises ValueError (`k`
   * is zero, so `argmin` gets an empty array), or a cluster comes out empty,
   * its mean is NaN, the test on line 33 can never succeed again and the
   * loop never exits.
   */
  datatype Status = Returned | RaisesValueError | NeverReturns

  /** The status, the returned `label` and `centroid`, and how many passes ran. */
  datatype Run = Run(status: Status, labels: seq<nat>, centroids: seq<Point>, passes: nat)

  /**
   * The outcome of `kmeans(X, k)` when line 25 picks the rows `init`.
   * The second pass returns unless it leaves a cluster empty, because by
   * then `centroid` and `new_centroid` are one array; `KMeans` below proves
   * that of the loop. A run that returns after one pass keeps the chosen
   * rows; one that returns after two gives the means of the clusters that
   * the first means induce.
   */
  function KMeansRun(xs: seq<Point>, init: seq<nat>): (run: Run)
    requires ValidSeeds(|xs|, init)
    ensures run.status == RaisesValueError <==> init == []
    ensures run.status == Returned ==>
      && 1 <= run.passes <= 2
      && |run.centroids| == |init|
      && |run.labels| == |xs|
      && forall i :: 0 <= i < |xs| ==> IsFirstNearest(xs[i], run.centroids, run.labels[i])
    ensures run.status == Returned && run.passes == 1 ==> IsLloydFixpoint(xs, run.labels, run.centroids)
    ensures init != [] ==>
      var k, seeds := |init|, Seeds(xs, init);
      var first := Assign(xs, seeds);
      && (run.status == NeverReturns <==>
            || !NoEmptyCluster(first, k)
            || (Means(xs, first, k) != seeds && !NoEmptyCluster(Assign(xs, Means(xs, first, k)), k)))
      && (run.status == Returned ==> (run.passes == 1 <==> Means(xs, first, k) == seeds))
      && (run.status == Returned && run.passes == 1 ==> run.centroids == seeds)
      && (run.status == Returned && run.passes == 2 ==>
            && NoEmptyCluster(first, k)
            && var second := Assign(xs, Means(xs, first, k));
               && NoEmptyCluster(second, k)
               && forall c :: 0 <= c < k ==> IsBalancePoint(Members(xs, second, c), run.centroids[c]))
  {
    if init == [] then Run(RaisesValueError, [], [], 0)
    else
      var k, seeds := |init|, Seeds(xs, init);
      var first := Assign(xs, seeds);
      if !NoEmptyCluster(first, k) then Run(NeverReturns, [], [], 1)
      else
        var moved := Means(xs, first, k);
        if moved == seeds then Run(Returned, Assign(xs, seeds), seeds, 1)
        else
          var second := Assign(xs, moved);
          if !NoEmptyCluster(second, k) then Run(NeverReturns, [], [], 2)
          else
            var final := Means(xs, second, k);
            Run(Returned, Assign(xs, final), final, 2)
  }

  /**
   * Lines 31-32: `new_centroid[c] = X[label == c].mean(axis=0)` for every
   * cluster `c`. `complete` tells whether every cluster had a row; the row
   * of an empty cluster, NaN in the source, is left as it was.
   */
  method UpdateStep(X: array<Point>, labels: array<nat>, newCentroid: array<Point>) returns (complete: bool)
    requires labels.Length == X.Length
    requires newCentroid != X
    modifies newCentroid
    ensures complete == NoEmptyCluster(labels[..], newCentroid.Length)
    ensures complete ==> newCentroid[..] == Means(X[..], labels[..], newCentroid.Length)
    ensures forall c :: 0 <= c < newCentroid.Length ==>
      var cluster := Members(X[..], labels[..], c);
      newCentroid[c] == if cluster != [] then Mean(cluster) else old(newCentroid[c])
  {
    ghost var xs, ls, before := X[..], labels[..], newCentroid[..];
    complete := true;
    for c := 0 to newCentroid.Length
      invariant X[..] == xs && labels[..] == ls
      invariant complete == NoEmptyCluster(ls, c)
      invariant forall d :: 0 <= d < c ==>
        var cluster := Members(xs, ls, d);
        newCentroid[d] == if cluster != [] then Mean(cluster) else before[d]
      invariant forall d :: c <= d < newCentroid.Length ==> newCentroid[d] == before[d]
    {
      var cluster := Members(X[..], labels[..], c);
      if cluster != [] {
        newCentroid[c] := Mean(cluster);
      } else {
        complete := false;
      }
    }
    if complete {
      ghost var ms := Means(xs, ls, newCentroid.Length);
      assert forall c :: 0 <= c < newCentroid.Length ==> newCentroid[c] == ms[c];
    }
  }

  /**
   * `kmeans(X, k)` with `k == |init|`, line by line: the fresh copy of the
   * chosen rows (line 26), the zero buffer (line 27), and the loop in which
   * line 36 makes `centroid` and `newCentroid` the same array.
   */
  method KMeans(X: array<Point>, init: seq<nat>)
    returns (status: Status, labels: array<nat>, centroid: array<Point>)
    requires ValidSeeds(X.Length, init)
    ensures var run := KMeansRun(X[..], init);
      && status == run.status
      && (status == Returned ==> labels[..] == run.labels && centroid[..] == run.centroids)
  {
    var k := |init|;
    labels, centroid := new nat[0], new Point[0];
    ghost var passes := 0;
    if k == 0 {
      status := RaisesValueError;
      return;
    }
    ghost var xs := X[..];
    ghost var seeds := Seeds(xs, init);
    centroid := new Point[k](c requires 0 <= c < k reads X => X[init[c]]);
    assert centroid[..] == seeds;
    var newCentroid := new Point[k](_ => Origin);
    while true
      invariant X[..] == xs
      invariant centroid.Length == k && newCentroid.Length == k && newCentroid != X
      invariant fresh(newCentroid)
      invariant passes <= 1
      invariant passes == 0 ==> centroid[..] == seeds && centroid != newCentroid
      invariant passes == 1 ==>
        var first := Assign(xs, seeds);
        && centroid == newCentroid
        && NoEmptyCluster(first, k)
        && centroid[..] == Means(xs, first, k)
        && centroid[..] != seeds
      decreases 1 - passes
    {
      passes := passes + 1;
      labels := AssignStep(X, centroid);
      var complete := UpdateStep(X, labels, newCentroid);
      if !complete {
        status := NeverReturns;
        return;
      }
      if newCentroid[..] == centroid[..] {
        labels := AssignStep(X, centroid);
        status := Returned;
        return;
      }
      centroid := newCentroid;
    }
  }

  /** `Members` distributes over a concatenation of the rows. */
  lemma {:induction false} MembersAppend(a: seq<Point>, la: seq<nat>, b: seq<Point>, lb: seq<nat>, c: nat)
    requires |la| == |a| && |lb| == |b|
    ensures Members(a + b, la + lb, c) == Members(a, la, c) + Members(b, lb, c)
    decreases |a|
  {
    if a == [] {
      assert a + b == b && la + lb == lb;
    } else {
      var ab, lab := a + b, la + lb;
      var head := if la[0] == c then [a[0]] else [];
      calc {
        Members(ab, lab, c);
      == { assert ab[0] == a[0] && lab[0] == la[0]; MembersCons(ab, lab, c); }
        head + Members(ab[1..], lab[1..], c);
      == { assert ab[1..] == a[1..] + b && lab[1..] == la[1..] + lb; }
        head + Members(a[1..] + b, la[1..] + lb, c);
      == { MembersAppend(a[1..], la[1..], b, lb, c); }
        head + (Members(a[1..], la[1..], c) + Members(b, lb, c));
      ==
        (head + Members(a[1..], la[1..], c)) + Members(b, lb, c);
      == { MembersCons(a, la, c); }
        Members(a, la, c) + Members(b, lb, c);
      }
    }
  }

  /** When every row carries label `c`, cluster `c` is all of them. */
  lemma {:induction false} MembersAll(xs: seq<Point>, labels: seq<nat>, c: nat)
    requires |labels| == |xs|
    requires forall i :: 0 <= i < |xs| ==> labels[i] == c
    ensures Members(xs, labels, c) == xs
    decreases |xs|
  {
    if xs != [] {
      MembersAll(xs[1..], labels[1..], c);
      MembersCons(xs, labels, c);
      assert xs == [xs[0]] + xs[1..];
    }
  }
}
