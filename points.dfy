/**
 * Points of the plane, the rows of the N-by-2 data matrix `X` and of the
 * k-by-2 centroid matrices of Week2/kmeans.py, with the two numeric
 * ingredients of Lloyd's algorithm: the (squared) Euclidean distance used by
 * the assignment step and the coordinate-wise mean used by the update step.
 * Coordinates are exact reals; floating-point rounding is not modelled.
 */
module Points {

  /** One row `[x, y]` of a two-column numpy array. */
  datatype Point = Point(x: real, y: real)

  /** A row of `np.zeros([k, 2])`. */
  const Origin := Point(0.0, 0.0)

  /**
   * Squared Euclidean distance. The source compares `np.sqrt` of this value;
   * the square root is strictly increasing on non-negative reals, so both
   * orders, and hence every argmin, agree.
   */
  function SqDist(p: Point, q: Point): (d: real)
    ensures d >= 0.0
  {
    (p.x - q.x) * (p.x - q.x) + (p.y - q.y) * (p.y - q.y)
  }

  /** Coordinate-wise sum of a sequence of points. */
  function Sum(ps: seq<Point>): (s: Point)
  {
    if ps == [] then Origin
    else
      var rest := Sum(ps[1..]);
      Point(ps[0].x + rest.x, ps[0].y + rest.y)
  }

  /** `|ps|` copies of `m` add up to the same total as the points of `ps`. */
  predicate IsBalancePoint(ps: seq<Point>, m: Point)
  {
    Point(|ps| as real * m.x, |ps| as real * m.y) == Sum(ps)
  }

  /**
   * `ps.mean(axis=0)` for a non-empty selection of rows: the balance point
   * of the rows.
   */
  function Mean(ps: seq<Point>): (m: Point)
    requires ps != []
    ensures IsBalancePoint(ps, m)
  {
    var s, n := Sum(ps), |ps| as real;
    Point(s.x / n, s.y / n)
  }

  /** A non-empty selection has exactly one balance point: its mean. */
  lemma BalancePointUnique(ps: seq<Point>, m: Point)
    requires ps != [] && IsBalancePoint(ps, m)
    ensures m == Mean(ps)
  {
    var n, mean := |ps| as real, Mean(ps);
    assert n * m.x == n * mean.x && n * m.y == n * mean.y;
    CancelFactor(n, m.x, mean.x);
    CancelFactor(n, m.y, mean.y);
  }

  lemma CancelFactor(n: real, a: real, b: real)
    requires n > 0.0 && n * a == n * b
    ensures a == b
  {
    assert n * (a - b) == 0.0;
  }

  /** Sum of the squared distances from the points of `ps` to `q`. */
  function Spread(ps: seq<Point>, q: Point): (total: real)
  {
    if ps == [] then 0.0 else SqDist(ps[0], q) + Spread(ps[1..], q)
  }

  /** How the spread changes when the reference point moves from `r` to `q`. */
  lemma {:induction false} SpreadShift(ps: seq<Point>, q: Point, r: Point)
    ensures Spread(ps, q) - Spread(ps, r) == Shift(|ps| as real, Sum(ps), q, r)
  {
    if ps != [] {
      SpreadShift(ps[1..], q, r);
      var p, s', n := ps[0], Sum(ps[1..]), |ps[1..]| as real;
      SqDistShift(p, q, r);
      assert Sum(ps) == Point(p.x + s'.x, p.y + s'.y);
      assert |ps| as real == n + 1.0;
      ShiftAdd(n, s', p, q, r);
    }
  }

  /**
   * The right-hand side of `SpreadShift`: for `n` points with sum `s`,
   * n (|q|^2 - |r|^2) - 2 s . (q - r).
   */
  function Shift(n: real, s: Point, q: Point, r: Point): (delta: real)
  {
    n * (q.x * q.x + q.y * q.y - r.x * r.x - r.y * r.y) - 2.0 * (s.x * (q.x - r.x) + s.y * (q.y - r.y))
  }

  lemma SqDistShift(p: Point, q: Point, r: Point)
    ensures SqDist(p, q) - SqDist(p, r) == Shift(1.0, p, q, r)
  {
  }

  lemma ShiftAdd(n: real, s: Point, p: Point, q: Point, r: Point)
    ensures Shift(n, s, q, r) + Shift(1.0, p, q, r) == Shift(n + 1.0, Point(p.x + s.x, p.y + s.y), q, r)
  {
    var a := q.x * q.x + q.y * q.y - r.x * r.x - r.y * r.y;
    var dx, dy := q.x - r.x, q.y - r.y;
    assert (n + 1.0) * a == n * a + a;
    assert (p.x + s.x) * dx == p.x * dx + s.x * dx;
    assert (p.y + s.y) * dy == p.y * dy + s.y * dy;
  }

  /**
   * Moving the reference point of a cluster away from its balance point `m`
   * costs exactly `|ps|` times the squared length of the move, so no point
   * has a smaller spread than `m`.
   */
  lemma SpreadAroundBalancePoint(ps: seq<Point>, m: Point, q: Point)
    requires IsBalancePoint(ps, m)
    ensures Spread(ps, q) == Spread(ps, m) + |ps| as real * SqDist(m, q)
    ensures Spread(ps, m) <= Spread(ps, q)
  {
    SpreadShift(ps, q, m);
    ShiftFromMean(|ps| as real, m, q);
    NonNegProduct(|ps| as real, SqDist(m, q));
  }

  lemma NonNegProduct(a: real, b: real)
    requires a >= 0.0 && b >= 0.0
    ensures a * b >= 0.0
  {
  }

  lemma ShiftFromMean(n: real, m: Point, q: Point)
    ensures Shift(n, Point(n * m.x, n * m.y), q, m) == n * SqDist(m, q)
  {
    var dx, dy := q.x - m.x, q.y - m.y;
    calc {
      Shift(n, Point(n * m.x, n * m.y), q, m);
      n * (q.x * q.x + q.y * q.y - m.x * m.x - m.y * m.y) - 2.0 * (n * m.x * dx + n * m.y * dy);
      n * (q.x * q.x + q.y * q.y - m.x * m.x - m.y * m.y - 2.0 * (m.x * dx + m.y * dy));
      { assert q.x * q.x - m.x * m.x - 2.0 * m.x * dx == dx * dx;
        assert q.y * q.y - m.y * m.y - 2.0 * m.y * dy == dy * dy; }
      n * (dx * dx + dy * dy);
    }
  }
}
