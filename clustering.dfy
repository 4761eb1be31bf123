/**
 * RAPTOR clustering: the crisp logic around the foreign numerics (UMAP reduction,
 * Gaussian-mixture fitting and K-means), which enter as opaque deterministic functions.
 */
module Clustering {
  import opened Wrappers
  import opened Basics

  type Embedding = seq<real>

  /** The settings of a `RAPTORClustering` object; they never change after construction. */
  datatype ClusteringConfig = ClusteringConfig(
    maxClusterSize: nat,
    minClusterSize: nat,
    reductionDimension: int,
    algorithm: string)

  /** The constructor's defaults. */
  function DefaultClusteringConfig(): ClusteringConfig {
    ClusteringConfig(100, 5, 10, "gaussian_mixture")
  }

  /**
   * The foreign numerics, each seeded with random_state=42 and therefore a function of its inputs:
   * `umap(points, n_neighbors, n_components)`, the BIC and the membership probabilities of a
   * Gaussian mixture with the given number of components fitted to the points, and the labels
   * K-means with the given number of clusters assigns to the points.
   */
  datatype Numerics = Numerics(
    umap: (seq<Embedding>, nat, int) -> seq<Embedding>,
    bic: (seq<Embedding>, nat) -> real,
    proba: (seq<Embedding>, nat) -> seq<seq<real>>,
    kmeans: (seq<Embedding>, nat) -> seq<int>)

  /** What UMAP and scikit-learn guarantee about shapes: one output row per input point. */
  ghost predicate WellShaped(num: Numerics) {
    && (forall pts, k, d :: |num.umap(pts, k, d)| == |pts|)
    && (forall pts, k :: |num.proba(pts, k)| == |pts|)
    && (forall pts, k :: |num.kmeans(pts, k)| == |pts|)
  }

  predicate StrictlyIncreasing(s: seq<nat>) {
    forall a, b :: 0 <= a < b < |s| ==> s[a] < s[b]
  }

  /** Appending a value above every element keeps a sequence strictly increasing. */
  lemma AppendLarger(s: seq<nat>, x: nat)
    requires StrictlyIncreasing(s) && forall y :: y in s ==> y < x
    ensures StrictlyIncreasing(s + [x])
  {
    forall a, b | 0 <= a < b < |s| + 1 ensures (s + [x])[a] < (s + [x])[b] {
      if b == |s| { assert s[a] in s; }
    }
  }

  /** `int(m ** 0.5)`: the integer square root of `m`. */
  function ISqrt(m: nat): (r: nat)
    ensures r * r <= m < (r + 1) * (r + 1)
  {
    if m == 0 then 0
    else
      var r := ISqrt(m - 1);
      if (r + 1) * (r + 1) <= m then r + 1 else r
  }

  /** The `n_neighbors` and `n_components` a reduction hands to UMAP. */
  datatype UmapParams = UmapParams(nNeighbors: nat, nComponents: int)

  /**
   * `global_cluster_embeddings` on `n` points: `dim` defaults to the configured reduction
   * dimension, `n_neighbors` to the integer square root of `n - 1`, and the number of
   * components is capped at `n - 2`. (For `n = 0` Python would take the square root of -1.)
   */
  function GlobalReductionParams(cfg: ClusteringConfig, n: nat, dim: Option<int>, nNeighbors: Option<nat>): (p: UmapParams)
    requires nNeighbors.Some? || n >= 1
    ensures nNeighbors.Some? ==> p.nNeighbors == nNeighbors.value
    ensures nNeighbors.None? ==> p.nNeighbors * p.nNeighbors <= n - 1 < (p.nNeighbors + 1) * (p.nNeighbors + 1)
    ensures var d := if dim.Some? then dim.value else cfg.reductionDimension;
            p.nComponents <= d && p.nComponents <= n - 2 && (p.nComponents == d || p.nComponents == n - 2)
  {
    var d := if dim.Some? then dim.value else cfg.reductionDimension;
    var k := if nNeighbors.Some? then nNeighbors.value else ISqrt(n - 1);
    UmapParams(k, Min(d, n - 2))
  }

  /** UMAP's error for a neighbour count below two. */
  function NeighborsError(): Error {
    ValueError("n_neighbors must be greater than 1")
  }

  /**
   * The parameter check UMAP makes before fitting: fewer than two neighbours, or fewer than one
   * component, raise a ValueError.
   */
  function UmapCheck(p: UmapParams): (r: Option<Error>)
    ensures r.None? <==> p.nNeighbors >= 2 && p.nComponents >= 1
  {
    if p.nNeighbors < 2 then Some(NeighborsError())
    else if p.nComponents < 1 then Some(ValueError("n_components must be greater than 0"))
    else None
  }

  /** `local_cluster_embeddings` on `n` points: the caller's neighbour count (default 10). */
  function LocalReductionParams(cfg: ClusteringConfig, n: nat, dim: Option<int>, numNeighbors: nat := 10): (p: UmapParams)
    ensures p.nNeighbors == numNeighbors
    ensures var d := if dim.Some? then dim.value else cfg.reductionDimension;
            p.nComponents <= d && p.nComponents <= n - 2 && (p.nComponents == d || p.nComponents == n - 2)
  {
    var d := if dim.Some? then dim.value else cfg.reductionDimension;
    UmapParams(numNeighbors, Min(d, n - 2))
  }

  /** `np.argmin`: the first position of the smallest value. */
  function ArgMin(s: seq<real>): (r: nat)
    requires |s| > 0
    ensures r < |s|
    ensures forall j :: 0 <= j < |s| ==> s[r] <= s[j]
    ensures forall j :: 0 <= j < r ==> s[r] < s[j]
  {
    if |s| == 1 then 0
    else
      var r := ArgMin(s[..|s| - 1]);
      if s[|s| - 1] < s[r] then |s| - 1 else r
  }

  /** The BIC of each candidate component count 1, 2, ..., top - 1. */
  function Bics(num: Numerics, emb: seq<Embedding>, top: nat): (bics: seq<real>)
    requires top >= 1
  {
    seq(top - 1, i requires 0 <= i < top - 1 => num.bic(emb, i + 1))
  }

  /**
   * The component count `get_optimal_clusters` selects: the first candidate in
   * `1 .. min(maxClusters, N) - 1` whose BIC is minimal. With no candidate, `np.argmin`
   * raises a ValueError.
   */
  function OptimalClusters(num: Numerics, emb: seq<Embedding>, maxClusters: int): Result<nat, Error> {
    var top := Min(maxClusters, |emb|);
    if top <= 1 then Err(ValueError("attempt to get argmin of an empty sequence"))
    else
      var k: nat := 1 + ArgMin(Bics(num, emb, top));
      Ok(k)
  }

  /** The loop of `get_optimal_clusters`, collecting one BIC per candidate count. */
  method GetOptimalClusters(num: Numerics, emb: seq<Embedding>, maxClusters: int := 50) returns (r: Result<nat, Error>)
    ensures r == OptimalClusters(num, emb, maxClusters)
    ensures r.Ok? <==> Min(maxClusters, |emb|) >= 2
    ensures r.Ok? ==> 1 <= r.value < Min(maxClusters, |emb|)
    ensures r.Ok? ==> forall c :: 1 <= c < Min(maxClusters, |emb|) ==> num.bic(emb, r.value) <= num.bic(emb, c)
    ensures r.Ok? ==> forall c :: 1 <= c < r.value ==> num.bic(emb, r.value) < num.bic(emb, c)
  {
    var top := Min(maxClusters, |emb|);
    if top <= 1 {
      return Err(ValueError("attempt to get argmin of an empty sequence"));
    }
    var bics: seq<real> := [];
    var n := 1;
    while n < top
      invariant 1 <= n <= top
      invariant |bics| == n - 1
      invariant forall i :: 0 <= i < n - 1 ==> bics[i] == num.bic(emb, i + 1)
    {
      bics := bics + [num.bic(emb, n)];
      n := n + 1;
    }
    assert bics == Bics(num, emb, top);
    var best := ArgMin(bics);
    r := Ok(1 + best);
    forall c | 1 <= c < top ensures num.bic(emb, 1 + best) <= num.bic(emb, c) {
      assert bics[c - 1] == num.bic(emb, c);
    }
    forall c | 1 <= c < 1 + best ensures num.bic(emb, 1 + best) < num.bic(emb, c) {
      assert bics[c - 1] == num.bic(emb, c);
    }
  }

  /** The points whose probability for component `c` is strictly above `threshold`, ascending. */
  function Members(probs: seq<seq<real>>, c: nat, threshold: real): seq<nat> {
    if probs == [] then []
    else
      var i := |probs| - 1;
      Members(probs[..i], c, threshold) + (if c < |probs[i]| && probs[i][c] > threshold then [i] else [])
  }

  /** Membership in a component is exactly the strict threshold test, and members ascend. */
  lemma {:induction false} MembersSpec(probs: seq<seq<real>>, c: nat, threshold: real)
    ensures forall i: nat :: i in Members(probs, c, threshold) <==> i < |probs| && c < |probs[i]| && probs[i][c] > threshold
    ensures StrictlyIncreasing(Members(probs, c, threshold))
  {
    if probs != [] {
      var i := |probs| - 1;
      MembersSpec(probs[..i], c, threshold);
      forall j | 0 <= j < i ensures probs[..i][j] == probs[j] { }
      AppendLarger(Members(probs[..i], c, threshold), i);
    }
  }

  /** The non-empty lists of `groups`, in their original order. */
  function NonEmpty(groups: seq<seq<nat>>): (r: seq<seq<nat>>)
    ensures forall g :: g in r <==> g in groups && g != []
  {
    if groups == [] then []
    else
      var last := groups[|groups| - 1];
      NonEmpty(groups[..|groups| - 1]) + (if last != [] then [last] else [])
  }

  /** `gmm_clustering`'s grouping: one list per component, empty ones dropped. */
  function GmmGroups(probs: seq<seq<real>>, k: nat, threshold: real): seq<seq<nat>> {
    NonEmpty(seq(k, c requires 0 <= c < k => Members(probs, c, threshold)))
  }

  /** The nested loops of `gmm_clustering` that append each point to every component it passes. */
  method GroupByThreshold(probs: seq<seq<real>>, k: nat, threshold: real) returns (clusters: seq<seq<nat>>)
    ensures clusters == GmmGroups(probs, k, threshold)
  {
    var groups: seq<seq<nat>> := seq(k, _ => []);
    var idx := 0;
    while idx < |probs|
      invariant 0 <= idx <= |probs| && |groups| == k
      invariant forall c :: 0 <= c < k ==> groups[c] == Members(probs[..idx], c, threshold)
    {
      groups := AddPoint(groups, probs, idx, threshold);
      idx := idx + 1;
    }
    assert probs[..|probs|] == probs;
    assert groups == seq(k, c requires 0 <= c < k => Members(probs, c, threshold));
    clusters := DropEmpty(groups);
  }

  /** The inner loop over the components for point `idx`: it joins every one whose probability it passes. */
  method AddPoint(groups: seq<seq<nat>>, probs: seq<seq<real>>, idx: nat, threshold: real) returns (next: seq<seq<nat>>)
    requires idx < |probs|
    requires forall c :: 0 <= c < |groups| ==> groups[c] == Members(probs[..idx], c, threshold)
    ensures |next| == |groups|
    ensures forall c :: 0 <= c < |groups| ==> next[c] == Members(probs[..idx + 1], c, threshold)
  {
    var row := probs[idx];
    assert probs[..idx + 1][..idx] == probs[..idx] && probs[..idx + 1][idx] == row;
    next := groups;
    var c := 0;
    while c < |groups|
      invariant 0 <= c <= |groups| && |next| == |groups|
      invariant forall c' :: 0 <= c' < c ==> next[c'] == Members(probs[..idx + 1], c', threshold)
      invariant forall c' :: c <= c' < |groups| ==> next[c'] == groups[c']
    {
      if c < |row| && row[c] > threshold {
        next := next[c := next[c] + [idx]];
      }
      c := c + 1;
    }
  }

  /** The final loop of `gmm_clustering`, keeping the non-empty lists in order. */
  method DropEmpty(groups: seq<seq<nat>>) returns (clusters: seq<seq<nat>>)
    ensures clusters == NonEmpty(groups)
  {
    clusters := [];
    var c := 0;
    while c < |groups|
      invariant 0 <= c <= |groups|
      invariant clusters == NonEmpty(groups[..c])
    {
      assert groups[..c + 1][..c] == groups[..c];
      if groups[c] != [] {
        clusters := clusters + [groups[c]];
      }
      c := c + 1;
    }
    assert groups[..|groups|] == groups;
  }

  /** `gmm_clustering`: select the component count, then group by the probability threshold. */
  function GmmClusters(num: Numerics, emb: seq<Embedding>, threshold: real): Result<seq<seq<nat>>, Error> {
    var k :- OptimalClusters(num, emb, 50);
    Ok(GmmGroups(num.proba(emb, k), k, threshold))
  }

  method GmmClustering(num: Numerics, emb: seq<Embedding>, threshold: real := 0.5) returns (r: Result<seq<seq<nat>>, Error>)
    ensures r == GmmClusters(num, emb, threshold)
  {
    var k :- GetOptimalClusters(num, emb);
    var probs := num.proba(emb, k);
    var clusters := GroupByThreshold(probs, k, threshold);
    r := Ok(clusters);
  }

  /** The points K-means labelled `c`, ascending. */
  function LabelClass(labels: seq<int>, c: nat): seq<nat> {
    if labels == [] then []
    else
      var i := |labels| - 1;
      LabelClass(labels[..i], c) + (if labels[i] == c then [i] else [])
  }

  lemma {:induction false} LabelClassSpec(labels: seq<int>, c: nat)
    ensures forall i: nat :: i in LabelClass(labels, c) <==> i < |labels| && labels[i] == c
    ensures StrictlyIncreasing(LabelClass(labels, c))
  {
    if labels != [] {
      var i := |labels| - 1;
      LabelClassSpec(labels[..i], c);
      forall j | 0 <= j < i ensures labels[..i][j] == labels[j] { }
      AppendLarger(LabelClass(labels[..i], c), i);
    }
  }

  /** `[np.where(labels == i)[0] for i in range(n)]`. */
  function KMeansClasses(labels: seq<int>, n: nat): seq<seq<nat>> {
    seq(n, c requires 0 <= c < n => LabelClass(labels, c))
  }

  /** With labels in `0 .. n - 1`, the K-means classes partition the points: each lies in exactly its own class. */
  lemma KMeansPartition(labels: seq<int>, n: nat)
    requires forall i :: 0 <= i < |labels| ==> 0 <= labels[i] < n
    ensures |KMeansClasses(labels, n)| == n
    ensures forall i, c :: 0 <= i < |labels| && 0 <= c < n ==>
              (i in KMeansClasses(labels, n)[c] <==> c == labels[i])
  {
    forall c | 0 <= c < n { LabelClassSpec(labels, c); }
  }

  /** The clusters with at least `minSize` members, in order. */
  function SizeFilter(clusters: seq<seq<nat>>, minSize: nat): (r: seq<seq<nat>>)
    ensures forall g :: g in r <==> g in clusters && |g| >= minSize
  {
    if clusters == [] then []
    else
      var last := clusters[|clusters| - 1];
      SizeFilter(clusters[..|clusters| - 1], minSize) + (if |last| >= minSize then [last] else [])
  }

  /**
   * `perform_clustering`: a small input is one cluster of every point; otherwise the points are
   * reduced with UMAP (which first checks its parameters), clustered by the configured algorithm,
   * and undersized clusters are dropped.
   */
  function PerformClustering(cfg: ClusteringConfig, num: Numerics, emb: seq<Embedding>, dim: int := 10, threshold: real := 0.5)
    : Result<seq<seq<nat>>, Error>
  {
    var n := |emb|;
    if n <= cfg.minClusterSize then Ok([Range(n)])
    else
      var p := GlobalReductionParams(cfg, n, Some(dim), None);
      if UmapCheck(p).Some? then Err(UmapCheck(p).value)
      else
      var reduced := num.umap(emb, p.nNeighbors, p.nComponents);
      if cfg.algorithm == "gaussian_mixture" then
        var clusters :- GmmClusters(num, reduced, threshold);
        Ok(SizeFilter(clusters, cfg.minClusterSize))
      else if cfg.algorithm == "kmeans" then
        if cfg.minClusterSize == 0 then Err(ZeroDivisionError)
        else
          var k := Min(n / cfg.minClusterSize, 10);
          Ok(SizeFilter(KMeansClasses(num.kmeans(reduced, k), k), cfg.minClusterSize))
      else Err(ValueError("Unknown clustering algorithm: " + cfg.algorithm))
  }

  /** At or below the minimum size, the result is the single cluster 0 .. N-1, in order. */
  lemma SmallInputOneCluster(cfg: ClusteringConfig, num: Numerics, emb: seq<Embedding>, dim: int, threshold: real)
    requires |emb| <= cfg.minClusterSize
    ensures PerformClustering(cfg, num, emb, dim, threshold) == Ok([Range(|emb|)])
    ensures forall i :: 0 <= i < |emb| ==> Range(|emb|)[i] == i
  {
  }

  /** Every Gaussian-mixture group is ascending and holds only row indices of `probs`. */
  lemma GmmGroupsWellFormed(probs: seq<seq<real>>, k: nat, threshold: real)
    ensures forall g :: g in GmmGroups(probs, k, threshold) ==>
              StrictlyIncreasing(g) && forall i :: i in g ==> i < |probs|
  {
    forall c | 0 <= c < k { MembersSpec(probs, c, threshold); }
  }

  /** Every K-means class is ascending and holds only indices of `labels`. */
  lemma KMeansClassesWellFormed(labels: seq<int>, k: nat)
    ensures forall g :: g in KMeansClasses(labels, k) ==>
              StrictlyIncreasing(g) && forall i :: i in g ==> i < |labels|
  {
    forall c | 0 <= c < k { LabelClassSpec(labels, c); }
  }

  /**
   * Above the minimum size every returned cluster has at least `minClusterSize` members, holds
   * only valid point indices, and lists them in ascending order without repeats.
   */
  lemma PerformClusteringClusters(cfg: ClusteringConfig, num: Numerics, emb: seq<Embedding>, dim: int, threshold: real)
    requires WellShaped(num)
    requires |emb| > cfg.minClusterSize
    requires PerformClustering(cfg, num, emb, dim, threshold).Ok?
    ensures forall g :: g in PerformClustering(cfg, num, emb, dim, threshold).value ==>
              |g| >= cfg.minClusterSize && StrictlyIncreasing(g) && forall i :: i in g ==> i < |emb|
  {
    var n := |emb|;
    var p := GlobalReductionParams(cfg, n, Some(dim), None);
    assert UmapCheck(p).None?;
    var reduced := num.umap(emb, p.nNeighbors, p.nComponents);
    assert |reduced| == n;
    var r := PerformClustering(cfg, num, emb, dim, threshold);
    if cfg.algorithm == "gaussian_mixture" {
      var g := GmmClusters(num, reduced, threshold);
      assert g.Ok? && r == Ok(SizeFilter(g.value, cfg.minClusterSize));
      var k := OptimalClusters(num, reduced, 50).value;
      var probs := num.proba(reduced, k);
      assert |probs| == n;
      GmmGroupsWellFormed(probs, k, threshold);
      assert g.value == GmmGroups(probs, k, threshold);
    } else {
      assert cfg.algorithm == "kmeans" && cfg.minClusterSize != 0;
      var q := n / cfg.minClusterSize;
      DivNonNegative(n, cfg.minClusterSize);
      var k: nat := Min(q, 10);
      var labels := num.kmeans(reduced, k);
      assert r == Ok(SizeFilter(KMeansClasses(labels, k), cfg.minClusterSize));
      assert |labels| == n;
      KMeansClassesWellFormed(labels, k);
    }
  }

  /**
   * Any algorithm name other than the two known ones raises: a ValueError naming it once UMAP has
   * accepted its parameters, UMAP's own error before that.
   */
  lemma UnknownAlgorithmRaises(cfg: ClusteringConfig, num: Numerics, emb: seq<Embedding>, dim: int, threshold: real)
    requires |emb| > cfg.minClusterSize
    requires cfg.algorithm != "gaussian_mixture" && cfg.algorithm != "kmeans"
    ensures var p := GlobalReductionParams(cfg, |emb|, Some(dim), None);
            PerformClustering(cfg, num, emb, dim, threshold)
            == Err(if UmapCheck(p).Some? then UmapCheck(p).value else ValueError("Unknown clustering algorithm: " + cfg.algorithm))
  {
  }

  /** The default neighbour count `int((n - 1) ** 0.5)` is at least two exactly from five points on. */
  lemma DefaultNeighbors(n: nat)
    requires n >= 1
    ensures ISqrt(n - 1) >= 2 <==> n >= 5
  {
    var r := ISqrt(n - 1);
    if r >= 2 {
      MulMono(2, r);
    } else {
      MulMono(r + 1, 2);
    }
  }

  /** UMAP accepts the default parameters for `n` points exactly from five points on, given a target dimension of one or more. */
  lemma DefaultParamsAccepted(cfg: ClusteringConfig, n: nat, dim: int)
    requires n >= 1
    ensures UmapCheck(GlobalReductionParams(cfg, n, Some(dim), None)).None? <==> n >= 5 && dim >= 1
  {
    var p := GlobalReductionParams(cfg, n, Some(dim), None);
    assert p.nNeighbors == ISqrt(n - 1) && p.nComponents == Min(dim, n - 2);
    DefaultNeighbors(n);
  }

  /** Dividing a natural number by a positive one gives a natural number. */
  lemma DivNonNegative(a: nat, b: nat)
    requires b > 0
    ensures a / b >= 0
  {
  }

  /** Squaring is monotone on natural numbers. */
  lemma MulMono(a: nat, b: nat)
    requires a <= b
    ensures a * a <= b * b
  {
    assert a * a <= a * b by { assert a * (b - a) >= 0; }
    assert a * b <= b * b by { assert (b - a) * b >= 0; }
  }

  /**
   * Under the Gaussian-mixture algorithm, clustering raises exactly when there are more points
   * than the minimum cluster size but UMAP's parameter check fails: fewer than five points
   * (the default neighbour count is then below two) or a target dimension below one. The error
   * is UMAP's.
   */
  lemma GaussianMixtureSucceeds(cfg: ClusteringConfig, num: Numerics, emb: seq<Embedding>, dim: int, threshold: real)
    requires WellShaped(num)
    requires cfg.algorithm == "gaussian_mixture"
    ensures var r := PerformClustering(cfg, num, emb, dim, threshold);
            && (r.Ok? <==> |emb| <= cfg.minClusterSize || (|emb| >= 5 && dim >= 1))
            && (r.Err? ==> r.error == UmapCheck(GlobalReductionParams(cfg, |emb|, Some(dim), None)).value)
  {
    var r := PerformClustering(cfg, num, emb, dim, threshold);
    if |emb| > cfg.minClusterSize {
      var p := GlobalReductionParams(cfg, |emb|, Some(dim), None);
      DefaultParamsAccepted(cfg, |emb|, dim);
      if UmapCheck(p).None? {
        var reduced := num.umap(emb, p.nNeighbors, p.nComponents);
        assert |reduced| == |emb|;
        var g := GmmClusters(num, reduced, threshold);
        assert g.Ok? by {
          assert OptimalClusters(num, reduced, 50).Ok?;
        }
        assert r == Ok(SizeFilter(g.value, cfg.minClusterSize));
      } else {
        assert r == Err(UmapCheck(p).value);
      }
    } else {
      assert r == Ok([Range(|emb|)]);
    }
  }

  /**
   * The K-means branch asks for min(N div minClusterSize, 10) clusters, between 1 and 10,
   * and before size filtering its classes partition the points.
   */
  lemma KMeansBranch(cfg: ClusteringConfig, num: Numerics, emb: seq<Embedding>, dim: int, threshold: real)
    requires WellShaped(num)
    requires cfg.algorithm == "kmeans" && |emb| > cfg.minClusterSize >= 1
    ensures var k := Min(|emb| / cfg.minClusterSize, 10);
            var p := GlobalReductionParams(cfg, |emb|, Some(dim), None);
            var labels := num.kmeans(num.umap(emb, p.nNeighbors, p.nComponents), k);
            && 1 <= k <= 10
            && (UmapCheck(p).Some? ==> PerformClustering(cfg, num, emb, dim, threshold) == Err(UmapCheck(p).value))
            && (UmapCheck(p).None? ==>
                  PerformClustering(cfg, num, emb, dim, threshold) == Ok(SizeFilter(KMeansClasses(labels, k), cfg.minClusterSize)))
            && ((forall i :: 0 <= i < |labels| ==> 0 <= labels[i] < k) ==>
                 forall i, c :: 0 <= i < |emb| && 0 <= c < k ==>
                   (i in KMeansClasses(labels, k)[c] <==> c == labels[i]))
  {
    var k := Min(|emb| / cfg.minClusterSize, 10);
    var p := GlobalReductionParams(cfg, |emb|, Some(dim), None);
    var labels := num.kmeans(num.umap(emb, p.nNeighbors, p.nComponents), k);
    assert |labels| == |emb|;
    if forall i :: 0 <= i < |labels| ==> 0 <= labels[i] < k {
      KMeansPartition(labels, k);
    }
  }
}
