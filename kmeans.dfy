/**
 * The from-scratch K-Means engine: Forgy initialisation, the assignment and update
 * steps, the sum of squared errors, the fit loop with its history, and prediction.
 *
 * Coordinates are reals. The Euclidean distance is used through its square wherever
 * only comparisons or squares of it matter (the arg-min and the SSE); the convergence
 * shift sums true distances, so it takes the square root as a parameter.
 */
module KMeans {
  import opened Wrappers

  type Point = seq<real>
  type Matrix = seq<Point>

  /** What `np.array(data)` yields: a vector, or a matrix of rows. */
  datatype NdArray = Flat(values: seq<real>) | Rows(rows: Matrix)

  /** One entry of the fit history: the centroids a round started from and what it computed with them. */
  datatype IterationInfo = IterationInfo(
    iteration: nat,
    centroids: Matrix,
    labels: seq<nat>,
    sse: real,
    clusters: seq<Matrix>)

  /** The dictionary `fit` returns; `clusters[i]` is the entry under the key `cluster_i`. */
  datatype FitResult = FitResult(
    centroids: Matrix,
    labels: seq<nat>,
    sse: real,
    iterations: nat,
    history: seq<IterationInfo>,
    clusters: seq<Matrix>)

  /**
   * The ways `fit` raises: `np.random.choice` refuses a sample larger than the data
   * (a ValueError), and with no round run `labels` is still None when the final SSE
   * indexes it (a TypeError).
   */
  datatype FitError = SampleLargerThanPopulation | NoIterationRan

  /** `predict` before any centroids exist raises a ValueError. */
  datatype PredictError = NotFitted

  /** `np.array(data)`, reshaped to one column when it is one-dimensional. */
  function AsRows(a: NdArray): (m: Matrix)
    ensures a.Rows? ==> m == a.rows
    ensures a.Flat? ==> |m| == |a.values| && forall i :: 0 <= i < |m| ==> m[i] == [a.values[i]]
  {
    match a
    case Rows(rows) => rows
    case Flat(v) => seq(|v|, i requires 0 <= i < |v| => [v[i]])
  }

  predicate HasDim(m: Matrix, d: nat)
  {
    forall i :: 0 <= i < |m| ==> |m[i]| == d
  }

  /** All rows have one dimension, as a 2-D numpy array does. */
  predicate IsRectangular(m: Matrix)
  {
    |m| == 0 || HasDim(m, |m[0]|)
  }

  /** At least one centroid, and points and centroids all of one dimension. */
  predicate Conformable(data: Matrix, centroids: Matrix)
  {
    |centroids| >= 1 && HasDim(centroids, |centroids[0]|) && HasDim(data, |centroids[0]|)
  }

  /** Two centroid sets of the same shape, row by row. */
  predicate SameShape(a: Matrix, b: Matrix)
  {
    |a| == |b| && forall i :: 0 <= i < |a| ==> |a[i]| == |b[i]|
  }

  /** One label per point, each a cluster index in [0, k). */
  predicate ValidLabels(labels: seq<nat>, n: nat, k: nat)
  {
    |labels| == n && forall i :: 0 <= i < n ==> labels[i] < k
  }

  // ---------------------------------------------------------------------------
  // Distances

  /** The squared Euclidean distance, `sum((p - q) ** 2)`. */
  function SqDist(p: Point, q: Point): (r: real)
    requires |p| == |q|
    ensures r >= 0.0
    decreases |p|
  {
    if |p| == 0 then 0.0
    else
      SquareFacts(p[0] - q[0]);
      Square(p[0] - q[0]) + SqDist(p[1..], q[1..])
  }

  /**
   * Real multiplication behind a function, so that what is known of a product
   * carries over between equal operands.
   */
  function Mul(a: real, b: real): real
  {
    a * b
  }

  lemma MulPositive(a: real, b: real)
    requires a > 0.0 && b > 0.0
    ensures Mul(a, b) > 0.0
  {
    assert Mul(a, b) == a * b;
  }

  function Square(x: real): real
  {
    Mul(x, x)
  }

  /** A square is never negative, and zero only at zero. */
  lemma SquareFacts(x: real)
    ensures Square(x) >= 0.0
    ensures Square(x) == 0.0 <==> x == 0.0
  {
    if x > 0.0 {
      MulPositive(x, x);
    } else if x < 0.0 {
      MulPositive(-x, -x);
      assert Mul(-x, -x) == Mul(x, x);
    } else {
      assert Mul(x, x) == 0.0;
    }
  }

  /** A distance is zero exactly between equal points. */
  lemma {:induction false} SqDistZeroIff(p: Point, q: Point)
    requires |p| == |q|
    ensures SqDist(p, q) == 0.0 <==> p == q
    decreases |p|
  {
    if |p| > 0 {
      SqDistZeroIff(p[1..], q[1..]);
      SquareFacts(p[0] - q[0]);
      assert p == [p[0]] + p[1..] && q == [q[0]] + q[1..];
    }
  }

  // ---------------------------------------------------------------------------
  // Assignment step

  /**
   * The first index of minimal distance among the first `n` centroids, the
   * choice `np.argmin` makes on ties.
   */
  predicate IsFirstNearestAmong(p: Point, cs: Matrix, n: nat, b: nat)
    requires n <= |cs| && HasDim(cs, |p|)
  {
    b < n
    && (forall i :: 0 <= i < n ==> SqDist(p, cs[b]) <= SqDist(p, cs[i]))
    && (forall i :: 0 <= i < b ==> SqDist(p, cs[b]) < SqDist(p, cs[i]))
  }

  /** The arg-min over the first `j` centroids, scanning them in index order. */
  function NearestUpTo(p: Point, cs: Matrix, j: nat): (b: nat)
    requires 1 <= j <= |cs| && HasDim(cs, |p|)
    ensures b < j
    decreases j
  {
    if j == 1 then 0
    else
      var b := NearestUpTo(p, cs, j - 1);
      if SqDist(p, cs[j - 1]) < SqDist(p, cs[b]) then j - 1 else b
  }

  /** The label `_assign_clusters` gives point `p`. */
  function Nearest(p: Point, cs: Matrix): (b: nat)
    requires |cs| >= 1 && HasDim(cs, |p|)
    ensures b < |cs|
  {
    NearestUpTo(p, cs, |cs|)
  }

  lemma {:induction false} NearestUpToIsFirstNearest(p: Point, cs: Matrix, j: nat)
    requires 1 <= j <= |cs| && HasDim(cs, |p|)
    ensures IsFirstNearestAmong(p, cs, j, NearestUpTo(p, cs, j))
    decreases j
  {
    if j > 1 {
      NearestUpToIsFirstNearest(p, cs, j - 1);
    }
  }

  /** Only one index is the first of minimal distance. */
  lemma FirstNearestUnique(p: Point, cs: Matrix, a: nat, b: nat)
    requires HasDim(cs, |p|)
    requires IsFirstNearestAmong(p, cs, |cs|, a) && IsFirstNearestAmong(p, cs, |cs|, b)
    ensures a == b
  {
    assert SqDist(p, cs[a]) <= SqDist(p, cs[b]);
    assert SqDist(p, cs[b]) <= SqDist(p, cs[a]);
  }

  /** The labels `_assign_clusters(data, centroids)` returns. */
  function Assign(data: Matrix, cs: Matrix): (labels: seq<nat>)
    requires Conformable(data, cs)
    ensures ValidLabels(labels, |data|, |cs|)
  {
    seq(|data|, i requires 0 <= i < |data| => Nearest(data[i], cs))
  }

  /**
   * The assignment gives every point exactly one label: the first index of a
   * nearest centroid, and no other index qualifies.
   */
  lemma AssignIsFirstNearest(data: Matrix, cs: Matrix, i: nat)
    requires Conformable(data, cs) && i < |data|
    ensures Assign(data, cs)[i] < |cs|
    ensures IsFirstNearestAmong(data[i], cs, |cs|, Assign(data, cs)[i])
    ensures forall b: nat :: IsFirstNearestAmong(data[i], cs, |cs|, b) ==> b == Assign(data, cs)[i]
  {
    NearestUpToIsFirstNearest(data[i], cs, |cs|);
    forall b: nat | IsFirstNearestAmong(data[i], cs, |cs|, b)
      ensures b == Assign(data, cs)[i]
    {
      FirstNearestUnique(data[i], cs, b, Assign(data, cs)[i]);
    }
  }

  /** A point that is itself one of the centroids is at distance zero from its nearest one. */
  lemma {:induction false} NearestOfCentroidIsExact(p: Point, cs: Matrix, c: nat)
    requires |cs| >= 1 && HasDim(cs, |p|) && c < |cs| && cs[c] == p
    ensures SqDist(p, cs[Nearest(p, cs)]) == 0.0
  {
    NearestUpToIsFirstNearest(p, cs, |cs|);
    SqDistZeroIff(p, cs[c]);
  }

  // ---------------------------------------------------------------------------
  // Cluster membership

  /** `data[labels == c]`: the points labelled `c`, in input order. */
  function Members(data: Matrix, labels: seq<nat>, c: nat): (pts: Matrix)
    requires |labels| == |data|
    ensures |pts| <= |data|
    decreases |data|
  {
    if |data| == 0 then []
    else (if labels[0] == c then [data[0]] else []) + Members(data[1..], labels[1..], c)
  }

  /** A group has the dimension of the data it is drawn from. */
  lemma {:induction false} MembersHasDim(data: Matrix, labels: seq<nat>, c: nat, d: nat)
    requires |labels| == |data| && HasDim(data, d)
    ensures HasDim(Members(data, labels, c), d)
    decreases |data|
  {
    if |data| > 0 {
      MembersHasDim(data[1..], labels[1..], c, d);
    }
  }

  /** The per-cluster grouping: entry `c` holds the points labelled `c`. */
  function Clusters(data: Matrix, labels: seq<nat>, k: nat): (groups: seq<Matrix>)
    requires |labels| == |data|
    ensures |groups| == k
  {
    seq(k, c requires 0 <= c < k => Members(data, labels, c))
  }

  /** All the points of a grouping, counted with multiplicity. */
  function GroupUnion(groups: seq<Matrix>): multiset<Point>
    decreases |groups|
  {
    if |groups| == 0 then multiset{} else GroupUnion(groups[..|groups| - 1]) + multiset(groups[|groups| - 1])
  }

  /** Prepending `x` to group `l` adds exactly `x` to the union. */
  lemma {:induction false} GroupUnionPrepend(g: seq<Matrix>, h: seq<Matrix>, l: nat, x: Point)
    requires |g| == |h| && l < |g|
    requires g[l] == [x] + h[l]
    requires forall c :: 0 <= c < |g| && c != l ==> g[c] == h[c]
    ensures GroupUnion(g) == multiset{x} + GroupUnion(h)
    decreases |g|
  {
    var n := |g| - 1;
    if l == n {
      assert g[..n] == h[..n];
    } else {
      GroupUnionPrepend(g[..n], h[..n], l, x);
    }
  }

  /**
   * The clusters partition the data: taken together they hold every point exactly
   * as often as the data does.
   */
  lemma {:induction false} ClustersPartition(data: Matrix, labels: seq<nat>, k: nat)
    requires ValidLabels(labels, |data|, k)
    ensures GroupUnion(Clusters(data, labels, k)) == multiset(data)
    decreases |data|
  {
    if |data| == 0 {
      var g := Clusters(data, labels, k);
      assert forall c :: 0 <= c < k ==> g[c] == [];
      EmptyGroupsUnion(g);
    } else {
      var g := Clusters(data, labels, k);
      var h := Clusters(data[1..], labels[1..], k);
      ClustersPartition(data[1..], labels[1..], k);
      ClustersOfFirst(data, labels, k);
      GroupUnionPrepend(g, h, labels[0], data[0]);
      assert data == [data[0]] + data[1..];
    }
  }

  /** The first point goes to the front of its own group; the other groups are those of the rest. */
  lemma ClustersOfFirst(data: Matrix, labels: seq<nat>, k: nat)
    requires ValidLabels(labels, |data|, k) && |data| >= 1
    ensures var g := Clusters(data, labels, k);
      var h := Clusters(data[1..], labels[1..], k);
      && g[labels[0]] == [data[0]] + h[labels[0]]
      && forall c :: 0 <= c < k && c != labels[0] ==> g[c] == h[c]
  {
  }

  lemma {:induction false} EmptyGroupsUnion(g: seq<Matrix>)
    requires forall c :: 0 <= c < |g| ==> g[c] == []
    ensures GroupUnion(g) == multiset{}
    decreases |g|
  {
    if |g| > 0 {
      EmptyGroupsUnion(g[..|g| - 1]);
    }
  }

  /** Every point lies in the group of its own label. */
  lemma {:induction false} PointInOwnCluster(data: Matrix, labels: seq<nat>, i: nat)
    requires |labels| == |data| && i < |data|
    ensures data[i] in Members(data, labels, labels[i])
    decreases i
  {
    if i > 0 {
      PointInOwnCluster(data[1..], labels[1..], i - 1);
    }
  }

  /** A group holds only points that carry its label. */
  lemma {:induction false} MembersCarryLabel(data: Matrix, labels: seq<nat>, c: nat, p: Point)
    requires |labels| == |data| && p in Members(data, labels, c)
    ensures exists i :: 0 <= i < |data| && data[i] == p && labels[i] == c
    decreases |data|
  {
    if labels[0] == c && p == data[0] {
      assert data[0] == p && labels[0] == c;
    } else {
      MembersCarryLabel(data[1..], labels[1..], c, p);
      var i :| 0 <= i < |data[1..]| && data[1..][i] == p && labels[1..][i] == c;
      assert data[i + 1] == p && labels[i + 1] == c;
    }
  }

  // ---------------------------------------------------------------------------
  // Update step

  /** The sum of coordinate `j` over the points. */
  function ColumnSum(pts: Matrix, j: nat): real
    requires forall i :: 0 <= i < |pts| ==> j < |pts[i]|
    decreases |pts|
  {
    if |pts| == 0 then 0.0 else pts[0][j] + ColumnSum(pts[1..], j)
  }

  /** `np.mean(pts, axis=0)`: the coordinate-wise mean of a non-empty set of points. */
  function Mean(pts: Matrix, d: nat): (m: Point)
    requires |pts| >= 1 && HasDim(pts, d)
    ensures |m| == d
  {
    seq(d, j requires 0 <= j < d => ColumnSum(pts, j) / (|pts| as real))
  }

  /** The new centroid of cluster `c`: the mean of its members, or `current` when it has none. */
  function NewCentroid(data: Matrix, labels: seq<nat>, c: nat, current: Point): (r: Point)
    requires |labels| == |data| && HasDim(data, |current|)
    ensures |r| == |current|
  {
    var pts := Members(data, labels, c);
    MembersHasDim(data, labels, c, |current|);
    if |pts| > 0 then Mean(pts, |current|) else current
  }

  /** The centroids `_update_centroids` computes from the labels and the current centroids. */
  function Update(data: Matrix, labels: seq<nat>, cs: Matrix): (r: Matrix)
    requires Conformable(data, cs) && |labels| == |data|
    ensures |r| == |cs| && HasDim(r, |cs[0]|) && Conformable(data, r) && SameShape(cs, r)
  {
    UpdatePrefix(data, labels, cs, |cs[0]|)
  }

  /** The new centroids of clusters `0 .. |cs|-1`, whose current centroids are `cs`. */
  function UpdatePrefix(data: Matrix, labels: seq<nat>, cs: Matrix, d: nat): (r: Matrix)
    requires |labels| == |data| && HasDim(data, d) && HasDim(cs, d)
    ensures |r| == |cs| && HasDim(r, d)
    decreases |cs|, 1
  {
    if |cs| == 0 then [] else UpdateLast(data, labels, cs, d)
  }

  /** `UpdatePrefix` of a non-empty `cs`: the new centroids before the last cluster's, then the last. */
  function UpdateLast(data: Matrix, labels: seq<nat>, cs: Matrix, d: nat): (r: Matrix)
    requires |labels| == |data| && HasDim(data, d) && HasDim(cs, d) && |cs| >= 1
    ensures |r| == |cs| && HasDim(r, d)
    decreases |cs|, 0
  {
    var n := |cs| - 1;
    UpdatePrefix(data, labels, cs[..n], d) + [NewCentroid(data, labels, n, cs[n])]
  }

  /** Cluster by cluster, the update is the new centroid of that cluster. */
  lemma {:induction false} UpdatePrefixAt(data: Matrix, labels: seq<nat>, cs: Matrix, d: nat, c: nat)
    requires |labels| == |data| && HasDim(data, d) && HasDim(cs, d) && c < |cs|
    ensures UpdatePrefix(data, labels, cs, d)[c] == NewCentroid(data, labels, c, cs[c])
    decreases |cs|
  {
    var n := |cs| - 1;
    assert UpdatePrefix(data, labels, cs, d) == UpdateLast(data, labels, cs, d);
    if c < n {
      UpdatePrefixAt(data, labels, cs[..n], d, c);
      assert cs[..n][c] == cs[c];
    }
  }

  /**
   * Each new centroid is the mean of its cluster's members, or the current centroid when
   * the cluster has no members.
   */
  lemma UpdateAt(data: Matrix, labels: seq<nat>, cs: Matrix, c: nat)
    requires Conformable(data, cs) && |labels| == |data| && c < |cs|
    ensures var pts := Members(data, labels, c);
      && HasDim(pts, |cs[0]|)
      && Update(data, labels, cs)[c] == if |pts| > 0 then Mean(pts, |cs[0]|) else cs[c]
  {
    MembersHasDim(data, labels, c, |cs[0]|);
    UpdatePrefixAt(data, labels, cs, |cs[0]|, c);
  }

  /** The column sums of copies of one point are multiples of it. */
  lemma {:induction false} ColumnSumOfCopies(pts: Matrix, q: Point, j: nat)
    requires j < |q| && forall i :: 0 <= i < |pts| ==> pts[i] == q
    ensures ColumnSum(pts, j) == (|pts| as real) * q[j]
    decreases |pts|
  {
    if |pts| > 0 {
      ColumnSumOfCopies(pts[1..], q, j);
    }
  }

  /** The mean of copies of one point is that point. */
  lemma MeanOfCopies(pts: Matrix, q: Point)
    requires |pts| >= 1 && forall i :: 0 <= i < |pts| ==> pts[i] == q
    ensures Mean(pts, |q|) == q
  {
    forall j | 0 <= j < |q|
      ensures Mean(pts, |q|)[j] == q[j]
    {
      ColumnSumOfCopies(pts, q, j);
      var n := |pts| as real;
      assert (n * q[j]) / n == q[j];
    }
  }

  /**
   * The update keeps every centroid each of whose points it already coincides with;
   * in particular it keeps every centroid of an empty cluster.
   */
  lemma UpdateKeepsExactCentroids(data: Matrix, labels: seq<nat>, cs: Matrix)
    requires Conformable(data, cs) && ValidLabels(labels, |data|, |cs|)
    requires forall i :: 0 <= i < |data| ==> data[i] == cs[labels[i]]
    ensures Update(data, labels, cs) == cs
  {
    var r := Update(data, labels, cs);
    forall c | 0 <= c < |cs|
      ensures r[c] == cs[c]
    {
      UpdateAt(data, labels, cs, c);
      var pts := Members(data, labels, c);
      if |pts| > 0 {
        forall t | 0 <= t < |pts|
          ensures pts[t] == cs[c]
        {
          assert pts[t] in pts;
          MembersCarryLabel(data, labels, c, pts[t]);
        }
        MeanOfCopies(pts, cs[c]);
      }
    }
  }

  // ---------------------------------------------------------------------------
  // Sum of squared errors and centroid shift

  /** `_calculate_sse`: the squared distance of every point to its labelled centroid, summed. */
  function Sse(data: Matrix, labels: seq<nat>, cs: Matrix): (r: real)
    requires Conformable(data, cs) && ValidLabels(labels, |data|, |cs|)
    ensures r >= 0.0
    decreases |data|
  {
    if |data| == 0 then 0.0
    else
      var n := |data| - 1;
      Sse(data[..n], labels[..n], cs) + SqDist(data[n], cs[labels[n]])
  }

  /** The SSE is zero exactly when every point coincides with its labelled centroid. */
  lemma {:induction false} SseZeroIff(data: Matrix, labels: seq<nat>, cs: Matrix)
    requires Conformable(data, cs) && ValidLabels(labels, |data|, |cs|)
    ensures Sse(data, labels, cs) == 0.0 <==> forall i :: 0 <= i < |data| ==> data[i] == cs[labels[i]]
    decreases |data|
  {
    if |data| > 0 {
      var n := |data| - 1;
      SseZeroIff(data[..n], labels[..n], cs);
      SqDistZeroIff(data[n], cs[labels[n]]);
      if forall i :: 0 <= i < |data| ==> data[i] == cs[labels[i]] {
        assert forall i :: 0 <= i < n ==> data[..n][i] == cs[labels[..n][i]];
      }
    }
  }

  /** The total centroid shift: the Euclidean distance moved by each centroid, summed. */
  function Shift(olds: Matrix, news: Matrix, sqrt: real -> real): real
    requires SameShape(olds, news)
    decreases |olds|, 1
  {
    if |olds| == 0 then 0.0 else ShiftWithLast(olds, news, sqrt)
  }

  /** `Shift` of non-empty centroid sets: the shift of all but the last, plus the last one's move. */
  function ShiftWithLast(olds: Matrix, news: Matrix, sqrt: real -> real): real
    requires SameShape(olds, news) && |olds| >= 1
    decreases |olds|, 0
  {
    var n := |olds| - 1;
    Shift(olds[..n], news[..n], sqrt) + sqrt(SqDist(olds[n], news[n]))
  }

  /** Centroids that did not move have shifted by zero. */
  lemma {:induction false} ShiftOfUnmoved(cs: Matrix, sqrt: real -> real)
    requires sqrt(0.0) == 0.0
    ensures SameShape(cs, cs) && Shift(cs, cs, sqrt) == 0.0
    decreases |cs|
  {
    if |cs| > 0 {
      var n := |cs| - 1;
      ShiftOfUnmoved(cs[..n], sqrt);
      SqDistZeroIff(cs[n], cs[n]);
      assert Shift(cs, cs, sqrt) == ShiftWithLast(cs, cs, sqrt);
    }
  }

  // ---------------------------------------------------------------------------
  // Forgy initialisation

  /** `indices` could come from `np.random.choice(n, k, replace=False)`: k distinct indices below n. */
  predicate IsSample(indices: seq<nat>, k: nat, n: nat)
  {
    |indices| == k
    && (forall i :: 0 <= i < k ==> indices[i] < n)
    && Distinct(indices)
  }

  /** No index occurs twice in `s`. */
  predicate Distinct(s: seq<nat>)
  {
    forall i, j :: 0 <= i < j < |s| ==> s[i] != s[j]
  }

  /**
   * Sampling without replacement needs a population at least as large as the
   * sample: there is no sample of k distinct indices below n when k > n.
   */
  lemma {:induction false} SampleFitsPopulation(indices: seq<nat>, k: nat, n: nat)
    requires IsSample(indices, k, n)
    ensures k <= n
    decreases k
  {
    if k > 0 {
      // drop the last index v and close the gap it leaves below n
      var v := indices[k - 1];
      var rest := seq(k - 1, i requires 0 <= i < k - 1 =>
        if indices[i] > v then indices[i] - 1 else indices[i]);
      forall i, j | 0 <= i < j < k - 1
        ensures rest[i] != rest[j]
      {
        assert indices[i] != indices[j] && indices[i] != v && indices[j] != v;
      }
      forall i | 0 <= i < k - 1
        ensures rest[i] < n - 1
      {
        assert indices[i] != v;
      }
      SampleFitsPopulation(rest, k - 1, n - 1);
    }
  }

  /**
   * `_initialize_centroids`: copies of the data rows at the sampled indices, or the
   * ValueError `np.random.choice` raises when k exceeds the number of rows.
   */
  function InitializeCentroids(data: Matrix, k: nat, indices: seq<nat>): (r: Result<Matrix, FitError>)
    requires k <= |data| ==> IsSample(indices, k, |data|)
    ensures r.Success? <==> k <= |data|
    ensures r.Failure? ==> r.error == SampleLargerThanPopulation
    ensures r.Success? ==>
      && |r.value| == k
      && (forall c :: 0 <= c < k ==> r.value[c] == data[indices[c]])
      && Distinct(indices)
    ensures r.Success? && k >= 1 && IsRectangular(data) ==> Conformable(data, r.value)
  {
    if k > |data| then Failure(SampleLargerThanPopulation)
    else
      var cs := seq(k, c requires 0 <= c < k => data[indices[c]]);
      assert k >= 1 && IsRectangular(data) ==> |cs[0]| == |data[0]|;
      Success(cs)
  }

  // ---------------------------------------------------------------------------
  // The fit loop

  /** One round: assign against `cs`, then record what was assigned and its SSE against `cs`. */
  function Round(data: Matrix, cs: Matrix, iteration: nat): (info: IterationInfo)
    requires Conformable(data, cs)
    ensures info.iteration == iteration && info.centroids == cs
    ensures ValidLabels(info.labels, |data|, |cs|) && |info.clusters| == |cs|
  {
    var labels := Assign(data, cs);
    IterationInfo(iteration, cs, labels, Sse(data, labels, cs), Clusters(data, labels, |cs|))
  }

  /** Where `fit`'s loop stands after some passes: the rounds recorded, the adopted centroids, and whether it broke off. */
  datatype Progress = Progress(history: seq<IterationInfo>, centroids: Matrix, converged: bool)

  /**
   * The state of `fit`'s loop after `n` passes from the centroids `init`. A pass records
   * a round, adopts the update, and breaks off when the update moved the centroids by
   * less than the tolerance; passes after a break change nothing.
   */
  function Iterate(data: Matrix, init: Matrix, tol: real, sqrt: real -> real, n: nat): (p: Progress)
    requires Conformable(data, init)
    ensures Conformable(data, p.centroids) && SameShape(init, p.centroids)
    ensures |p.history| <= n && (!p.converged ==> |p.history| == n)
    ensures n >= 1 ==> |p.history| >= 1 && ValidLabels(p.history[|p.history| - 1].labels, |data|, |init|)
    decreases n, 2
  {
    if n == 0 then Progress([], init, false) else Pass(data, init, tol, sqrt, n)
  }

  /** Pass number `n` (from 1) of `fit`'s loop, run on the state the earlier passes left. */
  function Pass(data: Matrix, init: Matrix, tol: real, sqrt: real -> real, n: nat): (p: Progress)
    requires Conformable(data, init) && n >= 1
    ensures Conformable(data, p.centroids) && SameShape(init, p.centroids)
    ensures 1 <= |p.history| <= n && (!p.converged ==> |p.history| == n)
    ensures ValidLabels(p.history[|p.history| - 1].labels, |data|, |init|)
    decreases n, 1
  {
    var p := Iterate(data, init, tol, sqrt, n - 1);
    if p.converged then p else Advance(data, init, tol, sqrt, n)
  }

  /**
   * Pass number `n` when the loop is still running: it records round `n`, adopts the
   * update, and breaks off when that moved the centroids by less than the tolerance.
   */
  function Advance(data: Matrix, init: Matrix, tol: real, sqrt: real -> real, n: nat): (p: Progress)
    requires Conformable(data, init) && n >= 1 && !Iterate(data, init, tol, sqrt, n - 1).converged
    ensures Conformable(data, p.centroids) && SameShape(init, p.centroids)
    ensures |p.history| == n && ValidLabels(p.history[n - 1].labels, |data|, |init|)
    decreases n, 0
  {
    var p := Iterate(data, init, tol, sqrt, n - 1);
    var info := Round(data, p.centroids, n);
    var next := Update(data, info.labels, p.centroids);
    Progress(p.history + [info], next, Shift(p.centroids, next, sqrt) < tol)
  }

  /**
   * What `fit` returns for `data` when the random sample is `indices`: the adopted
   * centroids, the last labels, the SSE of those labels against the adopted centroids,
   * the number of rounds, the history, and the final grouping.
   */
  function FitSpec(data: Matrix, k: nat, maxIters: int, tol: real, sqrt: real -> real, indices: seq<nat>)
    : (r: Result<FitResult, FitError>)
    requires k >= 1 && IsRectangular(data)
    requires k <= |data| ==> IsSample(indices, k, |data|)
    ensures r.Failure? <==> k > |data| || maxIters < 1
    ensures r.Failure? ==> r.error == if k > |data| then SampleLargerThanPopulation else NoIterationRan
  {
    var init := InitializeCentroids(data, k, indices);
    if init.Failure? then Failure(init.error)
    else if maxIters < 1 then Failure(NoIterationRan)
    else
      var p := Iterate(data, init.value, tol, sqrt, maxIters);
      var labels := p.history[|p.history| - 1].labels;
      Success(FitResult(p.centroids, labels, Sse(data, labels, p.centroids), |p.history|, p.history,
                        Clusters(data, labels, k)))
  }

  /** `FitSpec` in terms of the state the loop ends in. */
  lemma FitSpecOfLoop(data: Matrix, k: nat, maxIters: int, tol: real, sqrt: real -> real, indices: seq<nat>,
                      init: Matrix, p: Progress)
    requires k >= 1 && IsRectangular(data) && k <= |data| && IsSample(indices, k, |data|) && maxIters >= 1
    requires InitializeCentroids(data, k, indices) == Success(init)
    requires p == Iterate(data, init, tol, sqrt, maxIters)
    ensures |p.history| >= 1 && |p.centroids| == k && ValidLabels(p.history[|p.history| - 1].labels, |data|, k)
    ensures var labels := p.history[|p.history| - 1].labels;
      FitSpec(data, k, maxIters, tol, sqrt, indices)
        == Success(FitResult(p.centroids, labels, Sse(data, labels, p.centroids), |p.history|, p.history,
                             Clusters(data, labels, k)))
  {
  }

  /** Once the loop has broken off, later passes leave its state alone. */
  lemma {:induction false} IterateAfterBreak(data: Matrix, init: Matrix, tol: real, sqrt: real -> real, n: nat, m: nat)
    requires Conformable(data, init) && n <= m
    requires Iterate(data, init, tol, sqrt, n).converged
    ensures Iterate(data, init, tol, sqrt, m) == Iterate(data, init, tol, sqrt, n)
    decreases m - n
  {
    if n < m {
      IterateAfterBreak(data, init, tol, sqrt, n, m - 1);
      assert Iterate(data, init, tol, sqrt, m) == Pass(data, init, tol, sqrt, m);
    }
  }

  /** One more pass from an unconverged state records its round and moves to the updated centroids. */
  lemma IterateStep(data: Matrix, init: Matrix, tol: real, sqrt: real -> real, n: nat,
                    history: seq<IterationInfo>, current: Matrix, info: IterationInfo, next: Matrix)
    requires Conformable(data, init)
    requires Iterate(data, init, tol, sqrt, n) == Progress(history, current, false)
    requires info == Round(data, current, n + 1) && next == Update(data, info.labels, current)
    ensures Iterate(data, init, tol, sqrt, n + 1) == Progress(history + [info], next, Shift(current, next, sqrt) < tol)
  {
    assert Iterate(data, init, tol, sqrt, n + 1) == Pass(data, init, tol, sqrt, n + 1);
    assert Pass(data, init, tol, sqrt, n + 1) == Advance(data, init, tol, sqrt, n + 1);
  }

  // ---------------------------------------------------------------------------
  // What a run of the loop looks like, round by round

  /**
   * The round `r`, the `i`-th (from 0), followed by the centroids `after`: it is numbered
   * `i + 1`, it assigns against and records the centroids it started from, `after` is
   * the update of its labels, and it converged exactly when that update moved the
   * centroids by less than the tolerance.
   */
  predicate RoundFollows(data: Matrix, tol: real, sqrt: real -> real, r: IterationInfo, i: nat, after: Matrix,
                         converged: bool)
  {
    && Conformable(data, r.centroids)
    && r == Round(data, r.centroids, i + 1)
    && after == Update(data, r.labels, r.centroids)
    && (converged <==> Shift(r.centroids, after, sqrt) < tol)
  }

  /**
   * Round `i` of the rounds `h` of a run that ends on `final` and reports `converged`:
   * it follows on to the next round's centroids, or to `final` when it is the last, and
   * only the last round can have converged.
   */
  predicate RoundAt(data: Matrix, tol: real, sqrt: real -> real, h: seq<IterationInfo>, final: Matrix, converged: bool,
                    i: nat)
    requires i < |h|
  {
    if i + 1 < |h| then RoundFollows(data, tol, sqrt, h[i], i, h[i + 1].centroids, false)
    else RoundFollows(data, tol, sqrt, h[i], i, final, converged)
  }

  /** The last round of `h` moved the centroids to `final` by less than the tolerance. */
  predicate ConvergedAt(tol: real, sqrt: real -> real, h: seq<IterationInfo>, final: Matrix)
  {
    |h| >= 1 && SameShape(h[|h| - 1].centroids, final) && Shift(h[|h| - 1].centroids, final, sqrt) < tol
  }

  /**
   * A run of `fit`'s loop from `init` whose rounds are `h`, which holds `final` after them
   * and reports `converged`: each round is computed from the centroids the rounds before
   * it left, the centroids after it are the update of its labels, the rounds before the
   * last did not converge, and the run reports convergence exactly when its last update
   * moved the centroids by less than the tolerance.
   */
  predicate IsRun(data: Matrix, init: Matrix, tol: real, sqrt: real -> real, h: seq<IterationInfo>, final: Matrix,
                  converged: bool)
    decreases |h|, 1
  {
    if |h| == 0 then final == init && !converged else LastRoundFollows(data, init, tol, sqrt, h, final, converged)
  }

  /** The rounds before the last make a run that did not converge, and the last round follows on from it. */
  predicate LastRoundFollows(data: Matrix, init: Matrix, tol: real, sqrt: real -> real, h: seq<IterationInfo>,
                             final: Matrix, converged: bool)
    requires |h| >= 1
    decreases |h|, 0
  {
    var n := |h| - 1;
    IsRun(data, init, tol, sqrt, h[..n], h[n].centroids, false) && RoundFollows(data, tol, sqrt, h[n], n, final, converged)
  }

  /** A run that has not converged, extended by one more round from where it stands. */
  lemma RunExtends(data: Matrix, init: Matrix, tol: real, sqrt: real -> real, h: seq<IterationInfo>, final: Matrix,
                   info: IterationInfo, next: Matrix)
    requires IsRun(data, init, tol, sqrt, h, final, false) && Conformable(data, final)
    requires info == Round(data, final, |h| + 1) && next == Update(data, info.labels, final)
    ensures IsRun(data, init, tol, sqrt, h + [info], next, Shift(final, next, sqrt) < tol)
  {
    assert (h + [info])[..|h|] == h;
  }

  /** After `n` passes the loop has made a run from `init`, and reports what that run reports. */
  lemma {:induction false} IterateIsRun(data: Matrix, init: Matrix, tol: real, sqrt: real -> real, n: nat, p: Progress)
    requires Conformable(data, init) && p == Iterate(data, init, tol, sqrt, n)
    ensures IsRun(data, init, tol, sqrt, p.history, p.centroids, p.converged)
    decreases n, 1
  {
    if n > 0 {
      var q := Iterate(data, init, tol, sqrt, n - 1);
      IterateIsRun(data, init, tol, sqrt, n - 1, q);
      if q.converged {
        assert Iterate(data, init, tol, sqrt, n) == Pass(data, init, tol, sqrt, n);
      } else {
        AdvanceIsRun(data, init, tol, sqrt, n, q);
      }
    }
  }

  /** A pass that runs a round extends the run the earlier passes made. */
  lemma AdvanceIsRun(data: Matrix, init: Matrix, tol: real, sqrt: real -> real, n: nat, q: Progress)
    requires Conformable(data, init) && n >= 1 && q == Iterate(data, init, tol, sqrt, n - 1) && !q.converged
    requires IsRun(data, init, tol, sqrt, q.history, q.centroids, q.converged)
    ensures var p := Iterate(data, init, tol, sqrt, n); IsRun(data, init, tol, sqrt, p.history, p.centroids, p.converged)
  {
    assert Iterate(data, init, tol, sqrt, n) == Pass(data, init, tol, sqrt, n) == Advance(data, init, tol, sqrt, n);
    var info := Round(data, q.centroids, n);
    RunExtends(data, init, tol, sqrt, q.history, q.centroids, info, Update(data, info.labels, q.centroids));
  }

  /** A run reports convergence exactly when its last round converged. */
  lemma RunConverged(data: Matrix, init: Matrix, tol: real, sqrt: real -> real, h: seq<IterationInfo>, final: Matrix,
                     converged: bool)
    requires IsRun(data, init, tol, sqrt, h, final, converged)
    ensures converged <==> ConvergedAt(tol, sqrt, h, final)
  {
    if |h| >= 1 {
      assert LastRoundFollows(data, init, tol, sqrt, h, final, converged);
    }
  }

  /**
   * Every round `i` of a run, seen from the whole run: numbered `i + 1`, computed from the
   * centroids it records, followed by the update of its labels, and not converged unless last.
   */
  lemma {:induction false} RunRoundAt(data: Matrix, init: Matrix, tol: real, sqrt: real -> real,
                                      h: seq<IterationInfo>, final: Matrix, converged: bool, i: nat)
    requires IsRun(data, init, tol, sqrt, h, final, converged) && i < |h|
    ensures RoundAt(data, tol, sqrt, h, final, converged, i)
    decreases |h|
  {
    var n := |h| - 1;
    assert LastRoundFollows(data, init, tol, sqrt, h, final, converged);
    if i < n {
      RunRoundAt(data, init, tol, sqrt, h[..n], h[n].centroids, false, i);
      assert h[..n][i] == h[i];
      if i + 1 < n {
        assert h[..n][i + 1] == h[i + 1];
      }
    }
  }

  /** A run starts from `init`, and a non-empty one ends on centroids that fit the data. */
  lemma {:induction false} RunEnds(data: Matrix, init: Matrix, tol: real, sqrt: real -> real,
                                   h: seq<IterationInfo>, final: Matrix, converged: bool)
    requires IsRun(data, init, tol, sqrt, h, final, converged) && |h| >= 1
    ensures h[0].centroids == init
    ensures Conformable(data, final) && |final| == |h[|h| - 1].centroids|
    ensures Conformable(data, h[|h| - 1].centroids) && h[|h| - 1].labels == Assign(data, h[|h| - 1].centroids)
    decreases |h|
  {
    var n := |h| - 1;
    assert LastRoundFollows(data, init, tol, sqrt, h, final, converged);
    if n > 0 {
      RunEnds(data, init, tol, sqrt, h[..n], h[n].centroids, false);
      assert h[..n][0] == h[0];
    } else {
      assert IsRun(data, init, tol, sqrt, h[..0], h[0].centroids, false);
    }
  }

  /**
   * What `fit` promises when it returns: between 1 and `max_iters` rounds, one history
   * entry per round, each numbered, computed and followed as a run from the sampled
   * centroids requires, ending before `max_iters` only by converging; k adopted
   * centroids; the labels are the last round's assignment, against the centroids that
   * round started from; the SSE is that of those labels against the adopted centroids;
   * and the clusters are the labelled groups, which partition the data.
   */
  lemma FitGuarantees(data: Matrix, k: nat, maxIters: int, tol: real, sqrt: real -> real, indices: seq<nat>)
    requires k >= 1 && IsRectangular(data)
    requires k <= |data| ==> IsSample(indices, k, |data|)
    ensures var r := FitSpec(data, k, maxIters, tol, sqrt, indices);
      r.Success? ==>
        var f := r.value;
        var init := InitializeCentroids(data, k, indices).value;
        && 1 <= f.iterations <= maxIters && |f.history| == f.iterations
        && IsRun(data, init, tol, sqrt, f.history, f.centroids, ConvergedAt(tol, sqrt, f.history, f.centroids))
        && f.history[0].centroids == init
        && (forall i :: 0 <= i < |f.history| ==>
              RoundAt(data, tol, sqrt, f.history, f.centroids, ConvergedAt(tol, sqrt, f.history, f.centroids), i))
        && (f.iterations < maxIters ==> ConvergedAt(tol, sqrt, f.history, f.centroids))
        && |f.centroids| == k && Conformable(data, f.centroids)
        && Conformable(data, f.history[f.iterations - 1].centroids)
        && f.labels == Assign(data, f.history[f.iterations - 1].centroids)
        && ValidLabels(f.labels, |data|, k)
        && f.sse == Sse(data, f.labels, f.centroids)
        && f.clusters == Clusters(data, f.labels, k)
        && GroupUnion(f.clusters) == multiset(data)
  {
    if k <= |data| && maxIters >= 1 {
      var init := InitializeCentroids(data, k, indices).value;
      var p := Iterate(data, init, tol, sqrt, maxIters);
      FitSpecOfLoop(data, k, maxIters, tol, sqrt, indices, init, p);
      IterateIsRun(data, init, tol, sqrt, maxIters, p);
      RunConverged(data, init, tol, sqrt, p.history, p.centroids, p.converged);
      RunEnds(data, init, tol, sqrt, p.history, p.centroids, p.converged);
      forall i | 0 <= i < |p.history|
        ensures RoundAt(data, tol, sqrt, p.history, p.centroids, p.converged, i)
      {
        RunRoundAt(data, init, tol, sqrt, p.history, p.centroids, p.converged, i);
      }
      ClustersPartition(data, p.history[|p.history| - 1].labels, k);
    }
  }

  /** When the first update moves the centroids by less than the tolerance, the loop makes exactly one round. */
  lemma FirstShiftBelowTolerance(data: Matrix, init: Matrix, tol: real, sqrt: real -> real, n: nat)
    requires Conformable(data, init) && n >= 1
    requires Shift(init, Update(data, Assign(data, init), init), sqrt) < tol
    ensures var p := Iterate(data, init, tol, sqrt, n);
      && p.history == [Round(data, init, 1)] && p.converged
      && p.centroids == Update(data, Assign(data, init), init)
  {
    assert Iterate(data, init, tol, sqrt, 1) == Pass(data, init, tol, sqrt, 1);
    IterateAfterBreak(data, init, tol, sqrt, 1, n);
  }

  /**
   * Starting centroids with SSE zero (every point already on its nearest centroid) are a
   * fixed point: with a positive tolerance the loop keeps them and stops after one round,
   * and the final SSE is zero.
   */
  lemma ExactStartConverges(data: Matrix, init: Matrix, tol: real, sqrt: real -> real, n: nat)
    requires Conformable(data, init) && n >= 1 && tol > 0.0 && sqrt(0.0) == 0.0
    requires Sse(data, Assign(data, init), init) == 0.0
    ensures var p := Iterate(data, init, tol, sqrt, n);
      && |p.history| == 1 && p.converged && p.centroids == init
      && Sse(data, p.history[0].labels, p.centroids) == 0.0
  {
    var labels := Assign(data, init);
    SseZeroIff(data, labels, init);
    UpdateKeepsExactCentroids(data, labels, init);
    ShiftOfUnmoved(init, sqrt);
    FirstShiftBelowTolerance(data, init, tol, sqrt, n);
  }

  /**
   * Predicting on the training data gives back the fitted labels when the last update
   * left the centroids where they were: the labels belong to the centroids the last
   * round started from, and those are then the adopted ones.
   */
  lemma PredictReproducesStableFit(data: Matrix, k: nat, maxIters: int, tol: real, sqrt: real -> real,
                                   indices: seq<nat>)
    requires k >= 1 && IsRectangular(data)
    requires k <= |data| ==> IsSample(indices, k, |data|)
    requires var r := FitSpec(data, k, maxIters, tol, sqrt, indices);
      r.Success? && |r.value.history| >= 1
      && r.value.centroids == r.value.history[|r.value.history| - 1].centroids
    ensures var f := FitSpec(data, k, maxIters, tol, sqrt, indices).value;
      Conformable(data, f.centroids) && Assign(data, f.centroids) == f.labels
  {
    FitGuarantees(data, k, maxIters, tol, sqrt, indices);
  }

  /**
   * In general predicting on the training data does not give back the fitted labels:
   * with points 0, 1 and 10, k = 2, one round and the sample [0, 1], the round labels
   * the points [0, 1, 1] against the centroids 0 and 1, the update moves them to 0 and
   * 5.5, and against those the point 1 is nearer to cluster 0.
   */
  lemma PredictAfterFitCanDiffer(tol: real, sqrt: real -> real)
    ensures var data := [[0.0], [1.0], [10.0]];
      var r := FitSpec(data, 2, 1, tol, sqrt, [0, 1]);
      && r.Success? && r.value.labels == [0, 1, 1] && r.value.centroids == [[0.0], [5.5]]
      && Assign(data, r.value.centroids) == [0, 0, 1]
  {
    var data: Matrix := [[0.0], [1.0], [10.0]];
    var init: Matrix := [[0.0], [1.0]];
    ExampleSample(data, init);
    var p := Iterate(data, init, tol, sqrt, 1);
    FitSpecOfLoop(data, 2, 1, tol, sqrt, [0, 1], init, p);
    assert Iterate(data, init, tol, sqrt, 1) == Pass(data, init, tol, sqrt, 1) == Advance(data, init, tol, sqrt, 1);
    ExampleRound(data, init);
    ExampleUpdate(data, init);
    ExamplePredict(data);
  }

  lemma ExampleSample(data: Matrix, init: Matrix)
    requires data == [[0.0], [1.0], [10.0]] && init == [[0.0], [1.0]]
    ensures IsSample([0, 1], 2, |data|) && InitializeCentroids(data, 2, [0, 1]) == Success(init)
  {
    var sampled := InitializeCentroids(data, 2, [0, 1]);
    assert |sampled.value| == 2;
    assert sampled.value[0] == init[0] && sampled.value[1] == init[1];
    assert sampled.value == init;
  }

  lemma ExampleRound(data: Matrix, init: Matrix)
    requires data == [[0.0], [1.0], [10.0]] && init == [[0.0], [1.0]]
    ensures Conformable(data, init) && Assign(data, init) == [0, 1, 1]
  {
    ExampleDistances();
    assert Nearest([0.0], init) == 0 && Nearest([1.0], init) == 1 && Nearest([10.0], init) == 1;
    var labels := Assign(data, init);
    assert labels[0] == 0 && labels[1] == 1 && labels[2] == 1;
  }

  lemma ExampleDistances()
    ensures SqDist([0.0], [0.0]) == 0.0 && SqDist([0.0], [1.0]) == 1.0 && SqDist([0.0], [5.5]) == 30.25
    ensures SqDist([1.0], [0.0]) == 1.0 && SqDist([1.0], [1.0]) == 0.0 && SqDist([1.0], [5.5]) == 20.25
    ensures SqDist([10.0], [0.0]) == 100.0 && SqDist([10.0], [1.0]) == 81.0 && SqDist([10.0], [5.5]) == 20.25
  {
    assert Square(-1.0) == 1.0 && Square(-5.5) == 30.25 && Square(1.0) == 1.0 && Square(-4.5) == 20.25;
    assert Square(10.0) == 100.0 && Square(9.0) == 81.0 && Square(4.5) == 20.25 && Square(0.0) == 0.0;
  }

  lemma ExampleUpdate(data: Matrix, init: Matrix)
    requires data == [[0.0], [1.0], [10.0]] && init == [[0.0], [1.0]]
    ensures Conformable(data, init) && Update(data, [0, 1, 1], init) == [[0.0], [5.5]]
  {
    var labels: seq<nat> := [0, 1, 1];
    var next := Update(data, labels, init);
    UpdateAt(data, labels, init, 0);
    UpdateAt(data, labels, init, 1);
    ExampleMembers(data, labels);
    ExampleMeans();
    assert next[0] == [0.0] && next[1] == [5.5];
  }

  lemma ExampleMembers(data: Matrix, labels: seq<nat>)
    requires data == [[0.0], [1.0], [10.0]] && labels == [0, 1, 1]
    ensures Members(data, labels, 0) == [[0.0]] && Members(data, labels, 1) == [[1.0], [10.0]]
  {
    assert data[1..] == [[1.0], [10.0]] && labels[1..] == [1, 1];
    assert Members([[10.0]], [1], 0) == [] && Members([[10.0]], [1], 1) == [[10.0]];
    assert Members([[1.0], [10.0]], [1, 1], 0) == [] && Members([[1.0], [10.0]], [1, 1], 1) == [[1.0], [10.0]];
  }

  lemma ExampleMeans()
    ensures Mean([[0.0]], 1) == [0.0] && Mean([[1.0], [10.0]], 1) == [5.5]
  {
    assert ColumnSum([[10.0]], 0) == 10.0;
    assert ColumnSum([[1.0], [10.0]], 0) == 11.0;
    assert Mean([[1.0], [10.0]], 1)[0] == 5.5;
    assert ColumnSum([[0.0]], 0) == 0.0;
    assert Mean([[0.0]], 1)[0] == 0.0;
  }

  lemma ExamplePredict(data: Matrix)
    requires data == [[0.0], [1.0], [10.0]]
    ensures Conformable(data, [[0.0], [5.5]]) && Assign(data, [[0.0], [5.5]]) == [0, 0, 1]
  {
    ExampleDistances();
    var cs: Matrix := [[0.0], [5.5]];
    assert Nearest([0.0], cs) == 0 && Nearest([1.0], cs) == 0 && Nearest([10.0], cs) == 1;
    var labels := Assign(data, cs);
    assert labels[0] == 0 && labels[1] == 0 && labels[2] == 1;
  }

  // ---------------------------------------------------------------------------
  // The steps of one round, as the loops `KMeansClustering` runs

  /** `_assign_clusters`: for each point, `np.argmin` of its distances to the centroids. */
  method AssignClusters(data: Matrix, centroids: Matrix) returns (labels: seq<nat>)
    requires Conformable(data, centroids)
    ensures labels == Assign(data, centroids)
  {
    labels := seq(|data|, _ => 0);
    for i := 0 to |data|
      invariant |labels| == |data|
      invariant forall i' :: 0 <= i' < i ==> labels[i'] == Nearest(data[i'], centroids)
    {
      // np.argmin keeps the first of equal distances, so only a strictly smaller one wins
      var best := 0;
      for j := 1 to |centroids|
        invariant best == NearestUpTo(data[i], centroids, j)
      {
        if SqDist(data[i], centroids[j]) < SqDist(data[i], centroids[best]) {
          best := j;
        }
      }
      labels := labels[i := best];
    }
  }

  /**
   * `_update_centroids`: each cluster's new centroid is the mean of its members; a
   * cluster with no members keeps its current centroid.
   */
  method UpdateCentroids(data: Matrix, labels: seq<nat>, current: Matrix) returns (next: Matrix)
    requires Conformable(data, current) && |labels| == |data|
    ensures next == Update(data, labels, current)
  {
    var d := |current[0]|;
    next := seq(|current|, _ => seq(d, _ => 0.0));
    for c := 0 to |current|
      invariant |next| == |current|
      invariant forall c' :: 0 <= c' < c ==> next[c'] == Update(data, labels, current)[c']
    {
      var members := Members(data, labels, c);
      UpdateAt(data, labels, current, c);
      if |members| > 0 {
        next := next[c := Mean(members, d)];
      } else {
        next := next[c := current[c]];
      }
    }
  }

  /** `_calculate_sse`: the squared distance of every point to its own cluster's centroid, summed. */
  method CalculateSse(data: Matrix, labels: seq<nat>, centroids: Matrix) returns (sse: real)
    requires Conformable(data, centroids) && ValidLabels(labels, |data|, |centroids|)
    ensures sse == Sse(data, labels, centroids)
  {
    sse := 0.0;
    for i := 0 to |data|
      invariant sse == Sse(data[..i], labels[..i], centroids)
    {
      assert data[..i + 1][..i] == data[..i] && labels[..i + 1][..i] == labels[..i];
      sse := sse + SqDist(data[i], centroids[labels[i]]);
    }
    assert data[..|data|] == data && labels[..|data|] == labels;
  }

  /** The grouping `fit` records under `cluster_0` .. `cluster_{k-1}`: the points with each label. */
  method GroupByCluster(data: Matrix, labels: seq<nat>, k: nat) returns (groups: seq<Matrix>)
    requires |labels| == |data|
    ensures groups == Clusters(data, labels, k)
  {
    groups := [];
    for c := 0 to k
      invariant |groups| == c
      invariant forall c' :: 0 <= c' < c ==> groups[c'] == Members(data, labels, c')
    {
      groups := groups + [Members(data, labels, c)];
    }
  }

  /**
   * One pass of `fit`'s loop up to its stopping test: assign, update, measure the SSE
   * against the centroids assigned to, and group the points; the record it appends
   * to the history and the centroids it moves to.
   */
  method RunRound(data: Matrix, current: Matrix, iteration: nat) returns (info: IterationInfo, next: Matrix)
    requires Conformable(data, current)
    ensures info == Round(data, current, iteration + 1) && next == Update(data, info.labels, current)
  {
    var labels := AssignClusters(data, current);
    next := UpdateCentroids(data, labels, current);
    var sse := CalculateSse(data, labels, current);
    var groups := GroupByCluster(data, labels, |current|);
    info := IterationInfo(iteration + 1, current, labels, sse, groups);
  }

  // ---------------------------------------------------------------------------
  // The model object

  class KMeansClustering {
    const k: nat
    const maxIters: int
    const tolerance: real
    var centroids: Option<Matrix>
    var labels: Option<seq<nat>>
    var iterations: nat
    var history: seq<IterationInfo>

    /**
     * Fitted centroids are k rows of one dimension, and labels exist only once a
     * round has run, which needs at least one permitted iteration.
     */
    predicate Valid()
      reads this
    {
      && k >= 1
      && (centroids.Some? ==> |centroids.value| == k && HasDim(centroids.value, |centroids.value[0]|))
      && (labels.Some? ==> maxIters >= 1)
    }

    /** A model that has not been fitted; the source's defaults are 100 rounds and tolerance 1e-4. */
    constructor(k: nat, maxIters: int, tolerance: real)
      requires k >= 1
      ensures Valid()
      ensures this.k == k && this.maxIters == maxIters && this.tolerance == tolerance
      ensures centroids.None? && labels.None? && iterations == 0 && history == []
    {
      this.k := k;
      this.maxIters := maxIters;
      this.tolerance := tolerance;
      centroids := None;
      labels := None;
      iterations := 0;
      history := [];
    }

    /**
     * `fit` on `input` when the random sample drawn is `indices`: the result is the
     * one `FitSpec` describes, and the model keeps the adopted centroids, the last
     * labels, the number of rounds and the history. When sampling fails nothing
     * changes; when no round may run the fresh centroids and the emptied history
     * are left behind.
     */
    method Fit(input: NdArray, indices: seq<nat>, sqrt: real -> real) returns (r: Result<FitResult, FitError>)
      requires Valid() && IsRectangular(AsRows(input))
      requires k <= |AsRows(input)| ==> IsSample(indices, k, |AsRows(input)|)
      modifies this
      ensures Valid()
      ensures r == FitSpec(AsRows(input), k, maxIters, tolerance, sqrt, indices)
      ensures r.Success? ==>
        && centroids == Some(r.value.centroids) && labels == Some(r.value.labels)
        && iterations == r.value.iterations && history == r.value.history
      ensures r == Failure(SampleLargerThanPopulation) ==> unchanged(this)
      ensures r == Failure(NoIterationRan) ==>
        && centroids == Some(InitializeCentroids(AsRows(input), k, indices).value)
        && labels == old(labels) && iterations == old(iterations) && history == []
    {
      var data := AsRows(input);
      var init := InitializeCentroids(data, k, indices);
      if init.Failure? {
        return Failure(init.error);
      }
      centroids := Some(init.value);
      history := [];
      RunPasses(data, init.value, sqrt);
      if labels.None? {
        return Failure(NoIterationRan);
      }
      FitSpecOfLoop(data, k, maxIters, tolerance, sqrt, indices, init.value, Iterate(data, init.value, tolerance, sqrt, maxIters));
      var finalSse := CalculateSse(data, labels.value, centroids.value);
      var clusters := GroupByCluster(data, labels.value, k);
      r := Success(FitResult(centroids.value, labels.value, finalSse, iterations, history, clusters));
    }

    /** The fields hold the state `p` reached after at least one pass. */
    predicate Holds(p: Progress)
      reads this
    {
      && |p.history| >= 1
      && history == p.history && centroids == Some(p.centroids)
      && labels == Some(p.history[|p.history| - 1].labels) && iterations == |p.history|
    }

    /**
     * The `for iteration in range(self.max_iters)` loop of `fit`, entered with the sampled
     * centroids and an empty history: it leaves the state `Iterate` describes after
     * `max_iters` passes, and touches nothing when no pass may run.
     */
    method RunPasses(data: Matrix, init: Matrix, sqrt: real -> real)
      requires Conformable(data, init) && centroids == Some(init) && history == []
      modifies this
      ensures maxIters < 1 ==>
        centroids == old(centroids) && labels == old(labels) && iterations == old(iterations) && history == []
      ensures maxIters >= 1 ==> Holds(Iterate(data, init, tolerance, sqrt, maxIters))
    {
      var iteration := 0;
      while iteration < maxIters
        invariant 0 <= iteration && (maxIters >= 1 ==> iteration <= maxIters) && (maxIters < 1 ==> iteration == 0)
        invariant centroids.Some?
        invariant Iterate(data, init, tolerance, sqrt, iteration) == Progress(history, centroids.value, false)
        invariant iteration == 0 ==> labels == old(labels) && iterations == old(iterations)
        invariant iteration > 0 ==> Holds(Iterate(data, init, tolerance, sqrt, iteration))
        decreases maxIters - iteration
      {
        var stop := RunPass(data, init, sqrt, iteration);
        if stop {
          IterateAfterBreak(data, init, tolerance, sqrt, iteration + 1, maxIters);
          return;
        }
        iteration := iteration + 1;
      }
    }

    /**
     * One pass of the loop body of `fit`: assign, update, measure the SSE against the
     * current centroids, append the record, adopt the new centroids and set `iterations`;
     * `stop` is the `centroid_shift < tolerance` test that ends the loop.
     */
    method RunPass(data: Matrix, init: Matrix, sqrt: real -> real, iteration: nat) returns (stop: bool)
      requires Conformable(data, init) && centroids.Some?
      requires Iterate(data, init, tolerance, sqrt, iteration) == Progress(history, centroids.value, false)
      modifies this
      ensures Holds(Iterate(data, init, tolerance, sqrt, iteration + 1))
      ensures Iterate(data, init, tolerance, sqrt, iteration + 1) == Progress(history, centroids.value, stop)
    {
      var current := centroids.value;
      var info, next := RunRound(data, current, iteration);
      IterateStep(data, init, tolerance, sqrt, iteration, history, current, info, next);
      labels := Some(info.labels);
      history := history + [info];
      var shift := Shift(current, next, sqrt);
      centroids := Some(next);
      iterations := iteration + 1;
      stop := shift < tolerance;
    }

    /** `predict`: the nearest fitted centroid of each row, or the ValueError of an unfitted model. */
    method Predict(input: NdArray) returns (r: Result<seq<nat>, PredictError>)
      requires Valid()
      requires centroids.Some? ==> HasDim(AsRows(input), |centroids.value[0]|)
      ensures r.Failure? <==> centroids.None?
      ensures r.Success? ==> r.value == Assign(AsRows(input), centroids.value)
    {
      if centroids.None? {
        return Failure(NotFitted);
      }
      var data := AsRows(input);
      var predicted := AssignClusters(data, centroids.value);
      r := Success(predicted);
    }
  }
}
