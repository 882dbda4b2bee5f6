/**
 * The assignment step of k-means: `get_centroid` (Week2/kmeans.py:19-22)
 * picks, for one data row, the index of the closest centroid, and
 * `np.apply_along_axis(get_centroid, 1, X, centroid)` (line 30) applies it to
 * every row of the data matrix.
 */
module Nearest {
  import opened Points

  /**
   * `r` is what `argmin` returns on the distances from `p` to the centroids:
   * a valid index whose centroid is at least as close as every other one,
   * and strictly closer than every centroid before it (numpy returns the
   * first occurrence of the minimum).
   */
  predicate IsFirstNearest(p: Point, cs: seq<Point>, r: nat)
  {
    && r < |cs|
    && (forall j :: 0 <= j < |cs| ==> SqDist(p, cs[r]) <= SqDist(p, cs[j]))
    && (forall j :: 0 <= j < r ==> SqDist(p, cs[r]) < SqDist(p, cs[j]))
  }

  /** At most one index satisfies `IsFirstNearest`. */
  lemma FirstNearestUnique(p: Point, cs: seq<Point>, r: nat, r': nat)
    requires IsFirstNearest(p, cs, r) && IsFirstNearest(p, cs, r')
    ensures r == r'
  {
    assert SqDist(p, cs[r]) <= SqDist(p, cs[r']);
    assert SqDist(p, cs[r']) <= SqDist(p, cs[r]);
  }

  /**
   * `get_centroid(x, centroid)`: the argmin of the distances from `p` to the
   * rows of `cs`. An empty `cs` makes numpy raise ValueError; that case is
   * handled by the caller, `KMeans.KMeans`.
   */
  function GetCentroid(p: Point, cs: seq<Point>): (r: nat)
    requires cs != []
    ensures IsFirstNearest(p, cs, r)
    decreases |cs|
  {
    if |cs| == 1 then 0
    else
      var best := GetCentroid(p, cs[..|cs| - 1]);
      if SqDist(p, cs[|cs| - 1]) < SqDist(p, cs[best]) then |cs| - 1 else best
  }

  /**
   * Line 30: one label per data row, each the first nearest centroid of
   * that row.
   */
  function Assign(xs: seq<Point>, cs: seq<Point>): (labels: seq<nat>)
    requires cs != []
    ensures |labels| == |xs|
    ensures forall i :: 0 <= i < |xs| ==> IsFirstNearest(xs[i], cs, labels[i])
  {
    seq(|xs|, i requires 0 <= i < |xs| => GetCentroid(xs[i], cs))
  }

  /**
   * Any sequence of first-nearest labels is the one `Assign` computes: the
   * assignment step has exactly one possible outcome.
   */
  lemma AssignUnique(xs: seq<Point>, cs: seq<Point>, labels: seq<nat>)
    requires cs != []
    requires |labels| == |xs|
    requires forall i :: 0 <= i < |xs| ==> IsFirstNearest(xs[i], cs, labels[i])
    ensures labels == Assign(xs, cs)
  {
    var a := Assign(xs, cs);
    forall i | 0 <= i < |xs|
      ensures labels[i] == a[i]
    {
      FirstNearestUnique(xs[i], cs, labels[i], a[i]);
    }
  }

  /** `np.apply_along_axis(get_centroid, 1, X, centroid)` into a new array. */
  method AssignStep(X: array<Point>, centroid: array<Point>) returns (labels: array<nat>)
    requires centroid.Length > 0
    ensures labels[..] == Assign(X[..], centroid[..])
    ensures forall i :: 0 <= i < X.Length ==> labels[i] < centroid.Length
  {
    labels := new nat[X.Length];
    for i := 0 to X.Length
      invariant forall j :: 0 <= j < i ==> labels[j] == GetCentroid(X[j], centroid[..])
    {
      labels[i] := GetCentroid(X[i], centroid[..]);
    }
  }
}
