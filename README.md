# k-means clustering of Week2/kmeans.py, modelled in Dafny

`Week2/kmeans.py` clusters two-dimensional points with Lloyd's algorithm and
draws the result:

- `get_centroid` picks the nearest centroid of one row by `argmin` over the
  Euclidean distances;
- `kmeans(X, k)` chooses `k` distinct rows as initial centroids, then loops:
  assign every row to its nearest centroid, write the cluster means into
  `new_centroid`, stop when they equal the current centroids, otherwise
  rebind `centroid` to `new_centroid`;
- `kmeans_display` draws, between every pair of centroids, the perpendicular
  bisector of the segment joining them.

The model is split into modules that follow those pieces:

| file | module | contents |
|---|---|---|
| points.dfy | `Points` | rows as `Point(x, y)` over exact reals, squared distance, sum, mean, and the fact that the mean minimises the sum of squared distances of a cluster |
| nearest.dfy | `Nearest` | `get_centroid` as a first-occurrence argmin, the assignment step over all rows as a function and as a method over arrays |
| kmeans.dfy | `KMeans` | cluster members, the update step (a method writing into an array), the whole loop as written (a method keeping the `centroid = new_centroid` aliasing) and its outcome as a function `KMeansRun` |
| cost.dfy | `Costs` | the within-cluster sum of squared distances, and why each step of the loop cannot raise it |
| finding.dfy | `KMeansFinding` | a concrete data set on which the loop as written returns early |
| lloyd.dfy | `Lloyd` | the loop as evidently intended: a fresh buffer every pass, leaving only at a fixed point |
| bisector.dfy | `Bisector` | the bisector formula of line 60, `np.arange(-3, 10, 1)` and `itertools.combinations(…, 2)` |

The random choice of line 25 is a parameter `init`: the chosen row indices.
`k` is `|init|`. How a call ends is a `Status`:

- it returns;
- it raises numpy's ValueError when `k == 0`: with at least one row,
  `argmin` runs on an empty array; with no rows, `np.apply_along_axis`
  itself refuses the empty input;
- it never returns. A cluster with no rows has mean NaN. NaN never compares
  equal, so the test on line 33 fails on every later pass.

Distances are compared squared. The square root of line 20 is strictly
increasing on non-negative reals, so it does not change any argmin.

The `while True` loop of lines 29-35 has one exit, the equality test of
line 33. Its evident purpose is to repeat assignment and update until the
centroids stop moving. Line 36 defeats that purpose: after the first pass
`centroid` and `new_centroid` are one array, so the second pass compares the
new means with themselves. The model keeps this behaviour in `KMeans.KMeans`
and `KMeans.KMeansRun`. The loop as evidently intended is modelled separately
in `Lloyd.KMeansToFixpoint` (see "## Findings").

## Model

| member | source | states |
|---|---|---|
| Points.SqDist | Week2/kmeans.py:20 | the squared distance between two rows is never negative |
| Points.Mean | Week2/kmeans.py:32 | the mean of a non-empty selection of rows is its balance point: as many copies of it as there are rows add up to the selection's sum |
| Points.BalancePointUnique | Week2/kmeans.py:32 | a non-empty selection has only one balance point, its mean |
| Points.SpreadShift | Week2/kmeans.py:32 | moving the reference point from `r` to `q` changes the sum of squared distances of `n` points with sum `s` by `n` times the difference of the squared norms of `q` and `r`, minus twice the dot product of `s` with `q - r` |
| Points.SpreadAroundBalancePoint | Week2/kmeans.py:31-32 | measured from any point `q`, a cluster's sum of squared distances exceeds the sum measured from its balance point by exactly the number of rows times the squared distance between the two points, so the balance point (the mean) has the smallest sum |
| Nearest.GetCentroid | Week2/kmeans.py:19-22 | the result is a valid centroid index, no centroid is strictly closer, and every earlier index is strictly farther (numpy's first-occurrence argmin) |
| Nearest.FirstNearestUnique | Week2/kmeans.py:21 | at most one index is a first nearest centroid, so `argmin` has one answer |
| Nearest.Assign | Week2/kmeans.py:30 | one label per row, each the first nearest centroid of its row |
| Nearest.AssignUnique | Week2/kmeans.py:30 | any labelling in which every label is a first nearest centroid equals `Assign` |
| Nearest.AssignStep | Week2/kmeans.py:30 | the array of labels built row by row equals `Assign` of the data and the centroids, and every label is below `k` |
| KMeans.Members | Week2/kmeans.py:32 | `X[label == c]` has at most as many rows as `X`, and is empty exactly when no label is `c` |
| KMeans.MembersCount | Week2/kmeans.py:32 | cluster `c` has exactly as many rows as there are labels equal to `c` |
| KMeans.MembersAppend | Week2/kmeans.py:32 | selecting a cluster commutes with concatenating two blocks of rows |
| KMeans.MembersAll | Week2/kmeans.py:32 | when every label is `c`, cluster `c` is all the rows, in order |
| KMeans.Means | Week2/kmeans.py:31-32 | when no cluster is empty, there are `k` new centroids, and as many copies of centroid `c` as cluster `c` has rows add up to the sum of those rows; by `BalancePointUnique`, centroid `c` is therefore the mean of cluster `c` |
| KMeans.KMeansRun | Week2/kmeans.py:24-37 | ValueError exactly when `k == 0`; a returned result ran one or two passes, has `k` centroids and one first-nearest label per row; a result returned after one pass is a Lloyd fixed point; for `k > 0` the run never returns exactly when the first pass, or a second pass that it runs, leaves a cluster empty; otherwise it returns after one pass exactly when the first means equal the chosen rows, and after two passes when they do not; after one pass it returns the chosen rows as centroids, after two it returns, for every cluster of the labelling induced by the first means, that cluster's balance point (its mean) |
| KMeans.UpdateStep | Week2/kmeans.py:31-32 | `complete` holds exactly when no cluster is empty; each row of the buffer becomes the mean of its cluster, or keeps its value when the cluster is empty; when complete, the buffer equals `Means` |
| KMeans.KMeans | Week2/kmeans.py:24-37 | the loop over arrays, with `centroid` and `new_centroid` aliased after line 36, ends with the status, and on return with the labels and centroids, that `KMeansRun` gives for the same data and chosen rows |
| Costs.Cost | Week2/kmeans.py:30-32 | the sum of squared distances from every row to the centroid of its label is never negative |
| Costs.AssignMinimisesCost | Week2/kmeans.py:30 | for fixed centroids, the labels of the assignment step have the smallest cost among all labellings |
| Costs.CostByCluster | Week2/kmeans.py:31-32 | the cost summed row by row equals the cost summed cluster by cluster |
| Costs.ClusterCostCons | Week2/kmeans.py:31-32 | removing the first row from every cluster removes its distance once, if its label is among the clusters counted |
| Costs.MeansMinimiseCost | Week2/kmeans.py:31-32 | for fixed labels without empty clusters, the means of the update step have the smallest cost among all choices of centroids |
| Costs.MeansMinimiseClusterCost | Week2/kmeans.py:31-32 | the same, for the first `k` clusters |
| Costs.PassLowersCost | Week2/kmeans.py:29-36 | one pass, assignment then update, followed by a new assignment, never raises the cost |
| Costs.RunLowersCost | Week2/kmeans.py:29-37 | the result that `kmeans` returns never costs more than the chosen rows with their nearest-centroid labels |
| Lloyd.LloydPass | Week2/kmeans.py:30-33 | one pass into a fresh buffer gives the nearest-centroid labels; it is complete exactly when no cluster is empty; a complete pass that does not move the centroids has found a Lloyd fixed point, and one that moves them gives the next Lloyd iterate, keeping the loop's invariant (every pass so far moved the centroids, the cost has not risen) |
| Lloyd.RunPasses | Week2/kmeans.py:29-36 | the passes of the corrected loop: it gives up exactly when all `maxPasses` passes moved the centroids; the centroids it ends with are the Lloyd iterate after `passes` passes, each of which moved them; a converged result is a Lloyd fixed point that costs no more than the chosen rows; an empty-cluster stop names centroids that leave a cluster without rows |
| Lloyd.MovedNotFixpoint | Week2/kmeans.py:33 | if at least one pass moved the centroids, the chosen rows were not a Lloyd fixed point |
| Lloyd.KMeansToFixpoint | Week2/kmeans.py:24-36 | the loop with a fresh buffer per pass: no centroids exactly when `k == 0`; at most `maxPasses` passes move the centroids, and it gives up exactly when `k > 0` and all `maxPasses` of them did; the centroids it ends with are `LloydIter` of the chosen rows after `passes` passes, and each of those passes moved the centroids; chosen rows that already form a Lloyd fixed point converge at once, when at least one pass is allowed; when it converges, the result is a Lloyd fixed point that costs no more than the initial centroids; when it stops on an empty cluster, the current centroids leave a cluster without rows |
| KMeansFinding.AsWrittenStopsEarly | Week2/kmeans.py:33-36 | on five rows at x = 0, 1, 2, 3, 11 with rows 0 and 1 chosen, the loop as written returns after two passes with a result that is not a Lloyd fixed point |
| Bisector.BisectorY | Week2/kmeans.py:58-60 | the point of line 60 at abscissa `x` is as far from one centroid as from the other |
| Bisector.BisectorUnique | Week2/kmeans.py:58-60 | on the vertical line through `x`, a point is equidistant from both centroids exactly when its ordinate is the one line 60 computes |
| Bisector.Arange | Week2/kmeans.py:56 | `np.arange(start, stop, 1)`: `stop - start` values, or none, the `i`-th being `start + i` |
| Bisector.PairsFrom | Week2/kmeans.py:57 | the pairs `(i, j)` with `lo <= i < j < n`, each once, in lexicographic order |
| Bisector.Combinations2 | Week2/kmeans.py:57 | `combinations` of the centroid rows: every pair `i < j` exactly once, in lexicographic order |
| Bisector.BisectorLines | Week2/kmeans.py:56-60 | one line per pair of centroids in `combinations` order, one ordinate per abscissa, each sampled point equidistant from the two centroids of its pair |
| Bisector.PlotLines | Week2/kmeans.py:56-60 | the lines drawn at `np.arange(-3, 10, 1)`: 13 points per pair of centroids, at abscissae -3 to 9, each equidistant from the two centroids of its pair |

## Left out

- The data generator `random_data` (lines 7-17), the global seed (line 5) and
  the driver code (lines 68-71): they only produce input and call `kmeans`.
- The random choice of line 25 is not modelled. The chosen rows are the
  parameter `init`, which must name distinct rows of `X` (`ValidSeeds`).
- KMeans.KMeans: numpy raises ValueError when `k` exceeds the number of rows.
  `ValidSeeds` rules that case out, so it is not modelled.
- KMeans.KMeans: a negative `k` makes `np.random.choice` on line 25 raise
  ValueError. In the model `k` is the length of `init`, which cannot be
  negative, so this case is not modelled.
- Plotting in `kmeans_display` is not modelled: points, convex hulls through
  scipy's `ConvexHull`, axis limits and the window. Only the arithmetic of
  the bisector lines is.
- Floating point is not modelled. Coordinates are exact reals, so rounding in
  the means and in the `==` test of line 33 is not captured.
- NaN values are not modelled beyond their effect on the loop. An empty
  cluster ends the as-written loop with status `NeverReturns`, and no
  centroids are produced.
- KMeans.UpdateStep: the row of an empty cluster keeps its old value instead
  of becoming NaN. Callers treat an incomplete update as the end of the run,
  so they never read that row.
- The square root of line 20 is not modelled. Distances are compared squared,
  which gives the same argmin.
- Nearest.GetCentroid and Nearest.AssignStep require at least one centroid.
  With none, numpy raises ValueError. That case is modelled one level up, in
  `KMeansRun` and `KMeans`, as `RaisesValueError`.
- Nearest.AssignStep returns an empty array when there are no rows, where
  `np.apply_along_axis` on line 30 raises ValueError. No caller reaches this
  case: the chosen rows must be distinct rows of `X`, so no rows force
  `k == 0`, and the model reports `k == 0` as `RaisesValueError` without
  assigning.
- Bisector.BisectorY requires the two centroids to have different ordinates.
  With equal ordinates, line 60 divides by zero and numpy produces infinities
  or NaN with a warning.
- Lloyd.KMeansToFixpoint takes a bound `maxPasses` that the source does not
  have. It stops with `PassLimit` after `maxPasses` passes that moved the
  centroids, so the method terminates without `decreases *`. Runs longer
  than the bound are not modelled.

## Findings

| source | as written | input that shows it | evidently intended | confidence | as-written member | corrected member |
|---|---|---|---|---|---|---|
| Week2/kmeans.py:33-36 | after the first pass, `centroid = new_centroid` makes both names refer to one array, so the update step of the second pass overwrites the centroids it is compared with; the test of line 33 then succeeds whenever no cluster is empty, and the loop returns after at most two passes | `X` = (0,0), (1,0), (2,0), (3,0), (11,0) with rows 0 and 1 chosen: it returns labels [0,0,0,0,1] and centroids (1,0), (7,0), but the means of that labelling are (1.5,0) and (11,0) | repeat assignment and update until the centroids stop moving, so the result is a Lloyd fixed point | not executed | KMeansFinding.AsWrittenStopsEarly | Lloyd.KMeansToFixpoint |
