/**
 * The arithmetic of the dotted lines `kmeans_display` draws between the
 * centroids (Week2/kmeans.py:56-61): for every unordered pair of centroids,
 * the perpendicular bisector of the segment joining them, sampled at the
 * abscissae `np.arange(-3, 10, 1)`. The drawing itself is not modelled.
 */
module Bisector {
  import opened Points

  /**
   * Line 60 for one abscissa: with `u = c0 - c1` and `m` the midpoint,
   * `y = m[1] + u[0]/u[1]*(m[0]-x)`. The point `(x, y)` is as far from `c0`
   * as from `c1`. Equal ordinates make `u[1]` zero and the division
   * undefined, hence the precondition.
   */
  function BisectorY(c0: Point, c1: Point, x: real): (y: real)
    requires c0.y != c1.y
    ensures SqDist(Point(x, y), c0) == SqDist(Point(x, y), c1)
  {
    var u := Point(c0.x - c1.x, c0.y - c1.y);
    var m := Point((c0.x + c1.x) / 2.0, (c0.y + c1.y) / 2.0);
    var y := m.y + u.x / u.y * (m.x - x);
    EquidistantIff(c0, c1, x, y);
    y
  }

  /**
   * On the vertical line through `x`, the point of line 60 is the only one
   * that is as far from `c0` as from `c1`.
   */
  lemma BisectorUnique(c0: Point, c1: Point, x: real, y: real)
    requires c0.y != c1.y
    ensures SqDist(Point(x, y), c0) == SqDist(Point(x, y), c1) <==> y == BisectorY(c0, c1, x)
  {
    EquidistantIff(c0, c1, x, y);
  }

  /** The difference of the squared distances to two points is affine in `p`. */
  lemma DistDiff(p: Point, c0: Point, c1: Point)
    ensures SqDist(p, c0) - SqDist(p, c1)
      == 2.0 * ((c1.x - c0.x) * p.x + (c1.y - c0.y) * p.y)
         + (c0.x * c0.x + c0.y * c0.y - c1.x * c1.x - c1.y * c1.y)
  {
  }

  lemma EquidistantIff(c0: Point, c1: Point, x: real, y: real)
    requires c0.y != c1.y
    ensures SqDist(Point(x, y), c0) == SqDist(Point(x, y), c1)
      <==> y == (c0.y + c1.y) / 2.0 + (c0.x - c1.x) / (c0.y - c1.y) * ((c0.x + c1.x) / 2.0 - x)
  {
    DistDiff(Point(x, y), c0, c1);
    var ux, uy := c0.x - c1.x, c0.y - c1.y;
    var slope := ux / uy;
    assert slope * uy == ux;
    var y0 := (c0.y + c1.y) / 2.0 + slope * ((c0.x + c1.x) / 2.0 - x);
    assert SqDist(Point(x, y), c0) - SqDist(Point(x, y), c1) == -2.0 * uy * (y - y0);
    ZeroProduct(uy, y - y0);
  }

  lemma ZeroProduct(a: real, b: real)
    ensures a * b == 0.0 <==> a == 0.0 || b == 0.0
  {
  }

  /** `np.arange(start, stop, 1)` with integer bounds, as reals. */
  function Arange(start: int, stop: int): (xs: seq<real>)
    ensures |xs| == if start < stop then stop - start else 0
    ensures forall i :: 0 <= i < |xs| ==> xs[i] == (start + i) as real
    decreases stop - start
  {
    if start < stop then [start as real] + Arange(start + 1, stop) else []
  }

  /** Line 56: the abscissae -3, -2, ..., 9 at which every bisector is drawn. */
  const PlotXs: seq<real> := Arange(-3, 10)

  /** Strict lexicographic order on index pairs. */
  predicate PairBefore(a: (nat, nat), b: (nat, nat))
  {
    a.0 < b.0 || (a.0 == b.0 && a.1 < b.1)
  }

  /** The pairs `(i, j)` with `lo <= i < j < n`, first by `i`, then by `j`. */
  function PairsFrom(lo: nat, n: nat): (ps: seq<(nat, nat)>)
    ensures forall p :: p in ps <==> lo <= p.0 < p.1 < n
    ensures forall a, b :: 0 <= a < b < |ps| ==> PairBefore(ps[a], ps[b])
    decreases n - lo
  {
    if lo >= n then []
    else
      var row := seq(n - lo - 1, d requires 0 <= d < n - lo - 1 => (lo, lo + 1 + d));
      assert forall p :: p in row <==> p.0 == lo && lo < p.1 < n by {
        forall p: (nat, nat) | p.0 == lo && lo < p.1 < n
          ensures p in row
        {
          assert row[p.1 - lo - 1] == p;
        }
      }
      row + PairsFrom(lo + 1, n)
  }

  /**
   * `itertools.combinations(range(n), 2)` (line 57): every unordered pair of
   * distinct indices exactly once, in lexicographic order.
   */
  function Combinations2(n: nat): (ps: seq<(nat, nat)>)
    ensures forall p :: p in ps <==> p.0 < p.1 < n
    ensures forall a, b :: 0 <= a < b < |ps| ==> PairBefore(ps[a], ps[b])
  {
    PairsFrom(0, n)
  }

  /** No two centroids share an ordinate, so every bisector of line 60 is defined. */
  predicate DistinctOrdinates(cs: seq<Point>)
  {
    forall i, j :: 0 <= i < j < |cs| ==> cs[i].y != cs[j].y
  }

  /**
   * Lines 57-60: for each pair of centroids, in the order of
   * `combinations`, the ordinates of its bisector at the abscissae `xs`.
   * Every sampled point is as far from one centroid of its pair as from
   * the other.
   */
  function BisectorLines(cs: seq<Point>, xs: seq<real>): (lines: seq<seq<real>>)
    requires DistinctOrdinates(cs)
    ensures |lines| == |Combinations2(|cs|)|
    ensures forall l :: 0 <= l < |lines| ==>
      var (i, j) := Combinations2(|cs|)[l];
      && |lines[l]| == |xs|
      && forall t :: 0 <= t < |xs| ==>
           SqDist(Point(xs[t], lines[l][t]), cs[i]) == SqDist(Point(xs[t], lines[l][t]), cs[j])
  {
    var pairs := Combinations2(|cs|);
    seq(|pairs|, l requires 0 <= l < |pairs| =>
      assert pairs[l] in pairs;
      var (i, j) := pairs[l];
      seq(|xs|, t requires 0 <= t < |xs| => BisectorY(cs[i], cs[j], xs[t])))
  }

  /**
   * Lines 56-60 together: the plot draws, for every pair of centroids, 13
   * points at the abscissae -3, ..., 9, each as far from one centroid of
   * the pair as from the other.
   */
  lemma PlotLines(cs: seq<Point>)
    requires DistinctOrdinates(cs)
    ensures var lines := BisectorLines(cs, PlotXs);
      forall l :: 0 <= l < |lines| ==>
        var (i, j) := Combinations2(|cs|)[l];
        && |lines[l]| == 13
        && forall t :: 0 <= t < 13 ==>
             SqDist(Point((t - 3) as real, lines[l][t]), cs[i]) == SqDist(Point((t - 3) as real, lines[l][t]), cs[j])
  {
    assert |PlotXs| == 13;
    assert forall t :: 0 <= t < 13 ==> PlotXs[t] == (t - 3) as real;
  }
}
