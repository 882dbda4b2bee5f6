/**
 * A data set on which `kmeans` as written (Week2/kmeans.py:29-36) returns a
 * result that is not a fixed point of Lloyd's algorithm. Because line 36
 * aliases `centroid` and `new_centroid`, the second pass leaves the loop
 * whatever the new means are, so the returned centroids need not be the
 * means of the returned labels.
 */
module KMeansFinding {
  import opened Points
  import opened Nearest
  import opened KMeans

  /** Five rows on the x-axis, at 0, 1, 2, 3 and 11. */
  const Line: seq<Point> := [Point(0.0, 0.0), Point(1.0, 0.0), Point(2.0, 0.0), Point(3.0, 0.0), Point(11.0, 0.0)]

  /** The rows line 25 picks: the first two. */
  const Chosen: seq<nat> := [0, 1]

  /** The run, pass by pass: centroids, then the labels computed against them. */
  const Start: seq<Point> := [Point(0.0, 0.0), Point(1.0, 0.0)]
  const FirstLabels: seq<nat> := [0, 1, 1, 1, 1]
  const Moved: seq<Point> := [Point(0.0, 0.0), Point(4.25, 0.0)]
  const SecondLabels: seq<nat> := [0, 0, 0, 1, 1]
  const Final: seq<Point> := [Point(1.0, 0.0), Point(7.0, 0.0)]
  const FinalLabels: seq<nat> := [0, 0, 0, 0, 1]

  /**
   * Starting from rows 0 and 1, the as-written loop returns after its second
   * pass, yet the returned centroids are not the means of the returned
   * labels: the result is not a Lloyd fixed point.
   */
  lemma AsWrittenStopsEarly()
    ensures ValidSeeds(|Line|, Chosen)
    ensures var run := KMeansRun(Line, Chosen);
      && run.status == Returned
      && run.passes == 2
      && !IsLloydFixpoint(Line, run.labels, run.centroids)
  {
    RunOnLine();
    NotFixpoint(FinalLabels, Final);
  }

  /** The two passes of the run on `Line`. */
  lemma RunOnLine()
    ensures ValidSeeds(|Line|, Chosen)
    ensures KMeansRun(Line, Chosen) == Run(Returned, FinalLabels, Final, 2)
  {
    StartOnLine();
    FirstPassOnLine();
    SecondPassOnLine();
    FinalOnLine();
    TwoPassRun(Line, Chosen, FirstLabels, Moved, SecondLabels, Final, FinalLabels);
  }

  lemma StartOnLine()
    ensures ValidSeeds(|Line|, Chosen)
    ensures Seeds(Line, Chosen) == Start
  {
  }

  lemma FirstPassOnLine()
    ensures Assign(Line, Start) == FirstLabels
    ensures NoEmptyCluster(FirstLabels, 2)
    ensures Means(Line, FirstLabels, 2) == Moved
    ensures Moved != Start
  {
    AssignOnLine(Start, FirstLabels);
    SplitMeans(FirstLabels, 1, Moved[0], Moved[1]);
    assert Moved[1] != Start[1];
  }

  lemma SecondPassOnLine()
    ensures Assign(Line, Moved) == SecondLabels
    ensures NoEmptyCluster(SecondLabels, 2)
    ensures Means(Line, SecondLabels, 2) == Final
  {
    AssignOnLine(Moved, SecondLabels);
    SplitMeans(SecondLabels, 3, Final[0], Final[1]);
  }

  lemma FinalOnLine()
    ensures Assign(Line, Final) == FinalLabels
  {
    AssignOnLine(Final, FinalLabels);
  }

  /** A run that moves its centroids on the first pass returns after the second. */
  lemma TwoPassRun(xs: seq<Point>, init: seq<nat>, first: seq<nat>, moved: seq<Point>,
                   second: seq<nat>, final: seq<Point>, labels: seq<nat>)
    requires ValidSeeds(|xs|, init) && init != []
    requires Assign(xs, Seeds(xs, init)) == first && NoEmptyCluster(first, |init|)
    requires Means(xs, first, |init|) == moved && moved != Seeds(xs, init)
    requires Assign(xs, moved) == second && NoEmptyCluster(second, |init|)
    requires Means(xs, second, |init|) == final && Assign(xs, final) == labels
    ensures KMeansRun(xs, init) == Run(Returned, labels, final, 2)
  {
  }

  lemma NotFixpoint(labels: seq<nat>, cs: seq<Point>)
    requires labels == [0, 0, 0, 0, 1] && cs == [Point(1.0, 0.0), Point(7.0, 0.0)]
    ensures !IsLloydFixpoint(Line, labels, cs)
  {
    ClusterMeans(labels, 4, Point(1.5, 0.0), Point(11.0, 0.0));
    MeanNotCentroid(Line, labels, cs);
  }

  /** A centroid that is not the mean of its cluster rules out a fixed point. */
  lemma MeanNotCentroid(xs: seq<Point>, labels: seq<nat>, cs: seq<Point>)
    requires |labels| == |xs| && cs != []
    requires Members(xs, labels, 0) != [] && Mean(Members(xs, labels, 0)) != cs[0]
    ensures !IsLloydFixpoint(xs, labels, cs)
  {
  }

  /** The nearest of two centroids: the second only when strictly closer. */
  lemma NearestOfTwo(p: Point, c0: Point, c1: Point)
    ensures GetCentroid(p, [c0, c1]) == if SqDist(p, c1) < SqDist(p, c0) then 1 else 0
  {
    assert [c0, c1][..1] == [c0];
  }

  /** The labels of `Line` against the three pairs of centroids the run meets. */
  lemma AssignOnLine(cs: seq<Point>, labels: seq<nat>)
    requires |cs| == 2 && |labels| == 5
    requires forall i :: 0 <= i < 5 ==>
      labels[i] == if SqDist(Line[i], cs[1]) < SqDist(Line[i], cs[0]) then 1 else 0
    ensures Assign(Line, cs) == labels
  {
    forall i | 0 <= i < 5
      ensures GetCentroid(Line[i], cs) == labels[i]
    {
      assert cs == [cs[0], cs[1]];
      NearestOfTwo(Line[i], cs[0], cs[1]);
    }
  }

  /** Labels that send the first `n` rows to cluster 0 and the rest to 1. */
  lemma MembersOfSplit(xs: seq<Point>, labels: seq<nat>, n: nat)
    requires n <= |xs| && |labels| == |xs|
    requires forall i :: 0 <= i < |xs| ==> labels[i] == if i < n then 0 else 1
    ensures Members(xs, labels, 0) == xs[..n]
    ensures Members(xs, labels, 1) == xs[n..]
  {
    var a, b, la, lb := xs[..n], xs[n..], labels[..n], labels[n..];
    assert xs == a + b && labels == la + lb;
    MembersAppend(a, la, b, lb, 0);
    MembersAppend(a, la, b, lb, 1);
    MembersAll(a, la, 0);
    MembersAll(b, lb, 1);
    assert 1 !in la && 0 !in lb;
  }

  lemma SplitMeans(labels: seq<nat>, n: nat, m0: Point, m1: Point)
    requires || (n == 1 && m0 == Point(0.0, 0.0) && m1 == Point(4.25, 0.0))
             || (n == 3 && m0 == Point(1.0, 0.0) && m1 == Point(7.0, 0.0))
    requires |labels| == 5
    requires forall i :: 0 <= i < 5 ==> labels[i] == if i < n then 0 else 1
    ensures NoEmptyCluster(labels, 2)
    ensures Means(Line, labels, 2) == [m0, m1]
  {
    SplitHasBothClusters(labels, n);
    ClusterMeans(labels, n, m0, m1);
    MeansOfTwo(Line, labels, m0, m1);
  }

  lemma SplitHasBothClusters(labels: seq<nat>, n: nat)
    requires 0 < n < 5
    requires |labels| == 5
    requires forall i :: 0 <= i < 5 ==> labels[i] == if i < n then 0 else 1
    ensures NoEmptyCluster(labels, 2)
  {
    assert labels[0] == 0 && labels[4] == 1;
  }

  /** The means of the two clusters of a split of `Line` after `n` rows. */
  lemma ClusterMeans(labels: seq<nat>, n: nat, m0: Point, m1: Point)
    requires || (n == 1 && m0 == Point(0.0, 0.0) && m1 == Point(4.25, 0.0))
             || (n == 3 && m0 == Point(1.0, 0.0) && m1 == Point(7.0, 0.0))
             || (n == 4 && m0 == Point(1.5, 0.0) && m1 == Point(11.0, 0.0))
    requires |labels| == 5
    requires forall i :: 0 <= i < 5 ==> labels[i] == if i < n then 0 else 1
    ensures Mean(Members(Line, labels, 0)) == m0
    ensures Mean(Members(Line, labels, 1)) == m1
  {
    MembersOfSplit(Line, labels, n);
    SumsOnLine();
    if n == 1 {
      MeanOnAxis(Line[..1], 0.0, 0.0);
      MeanOnAxis(Line[1..], 17.0, 4.25);
    } else if n == 3 {
      MeanOnAxis(Line[..3], 3.0, 1.0);
      MeanOnAxis(Line[3..], 14.0, 7.0);
    } else {
      MeanOnAxis(Line[..4], 6.0, 1.5);
      MeanOnAxis(Line[4..], 11.0, 11.0);
    }
  }

  lemma MeansOfTwo(xs: seq<Point>, labels: seq<nat>, m0: Point, m1: Point)
    requires |labels| == |xs| && NoEmptyCluster(labels, 2)
    requires Mean(Members(xs, labels, 0)) == m0 && Mean(Members(xs, labels, 1)) == m1
    ensures Means(xs, labels, 2) == [m0, m1]
  {
  }

  /** The mean of rows on the x-axis whose abscissae add up to `s`. */
  lemma MeanOnAxis(ps: seq<Point>, s: real, m: real)
    requires ps != [] && Sum(ps) == Point(s, 0.0)
    requires |ps| as real * m == s
    ensures Mean(ps) == Point(m, 0.0)
  {
    BalancePointUnique(ps, Point(m, 0.0));
  }

  /** Sums of the runs of `Line` that become clusters. */
  lemma SumsOnLine()
    ensures Sum(Line[..1]) == Point(0.0, 0.0)
    ensures Sum(Line[..3]) == Point(3.0, 0.0)
    ensures Sum(Line[..4]) == Point(6.0, 0.0)
    ensures Sum(Line[1..]) == Point(17.0, 0.0)
    ensures Sum(Line[3..]) == Point(14.0, 0.0)
    ensures Sum(Line[4..]) == Point(11.0, 0.0)
  {
    SumFrom(Line[4..], 11.0, 0.0, Line[5..]);
    SumFrom(Line[3..], 3.0, 11.0, Line[4..]);
    SumFrom(Line[2..], 2.0, 14.0, Line[3..]);
    SumFrom(Line[1..], 1.0, 16.0, Line[2..]);
    SumFrom(Line[..4][3..], 3.0, 0.0, Line[..4][4..]);
    SumFrom(Line[..4][2..], 2.0, 3.0, Line[..4][3..]);
    SumFrom(Line[..4][1..], 1.0, 5.0, Line[..4][2..]);
    SumFrom(Line[..4], 0.0, 6.0, Line[..4][1..]);
    SumFrom(Line[..3][2..], 2.0, 0.0, Line[..3][3..]);
    SumFrom(Line[..3][1..], 1.0, 2.0, Line[..3][2..]);
    SumFrom(Line[..3], 0.0, 3.0, Line[..3][1..]);
    SumFrom(Line[..1], 0.0, 0.0, Line[..1][1..]);
  }

  /** One step of `Sum` over rows on the x-axis. */
  lemma SumFrom(ps: seq<Point>, x: real, rest: real, tail: seq<Point>)
    requires ps != [] && ps[0] == Point(x, 0.0) && ps[1..] == tail
    requires tail == [] ==> rest == 0.0
    requires tail != [] ==> Sum(tail) == Point(rest, 0.0)
    ensures Sum(ps) == Point(x + rest, 0.0)
  {
  }
}
