/**
 * The RAPTOR tree: leaves from chunks, then level after level of cluster summaries. Every node
 * holds its child nodes; `all_nodes` is an insertion-ordered dict from id to node.
 */
module Tree {
  import opened Wrappers
  import opened NodeIds
  import opened Clustering
  import opened Basics
  import Chunker

  /** A node's metadata dict: a leaf keeps its chunk dict, a parent its cluster facts. */
  datatype Metadata = ChunkMeta(chunk: Chunker.Chunk) | ClusterMeta(numChildren: nat, clusterIdx: nat)

  /** A `ClusterNode`; its children are the child nodes themselves. */
  datatype Node = Node(
    id: string,
    text: string,
    embedding: Embedding,
    children: seq<Node>,
    level: nat,
    metadata: Metadata)

  /** `TreeConfig`. */
  datatype TreeConfig = TreeConfig(
    maxDepth: int,
    maxClusterSize: nat,
    minClusterSize: nat,
    reductionDimension: int,
    summarizationLength: nat)

  function DefaultTreeConfig(): TreeConfig {
    TreeConfig(3, 100, 5, 10, 200)
  }

  /**
   * The embedding model (`create_embedding`, `create_embeddings`) and the summarisation model
   * (`summarize(texts, max_tokens)`), as functions.
   */
  datatype Models = Models(
    embed: string -> Embedding,
    embedBatch: seq<string> -> seq<Embedding>,
    summarize: (seq<string>, nat) -> string)

  /** A Python dict from id to node: its entries and the order in which keys were first inserted. */
  datatype NodeDict = NodeDict(entries: map<string, Node>, order: seq<string>) {
    ghost predicate Wf() {
      && (forall a, b :: 0 <= a < b < |order| ==> order[a] != order[b])
      && (forall k :: k in entries <==> k in order)
    }

    /** `d[n.id] = n`: an existing key keeps its position, a new key goes last. */
    function Put(n: Node): (d: NodeDict)
      ensures Wf() ==> d.Wf()
    {
      NodeDict(entries[n.id := n], if n.id in entries then order else order + [n.id])
    }

    /** Registering the nodes one after another. */
    function PutAll(ns: seq<Node>): NodeDict
      decreases |ns|
    {
      if ns == [] then this else PutAll(ns[..|ns| - 1]).Put(ns[|ns| - 1])
    }

    /** `d.get(k)`. */
    function Get(k: string): (r: Option<Node>)
      ensures r.Some? <==> k in entries
      ensures r.Some? ==> r.value == entries[k]
    {
      if k in entries then Some(entries[k]) else None
    }

    /** `list(d.values())`, in insertion order. */
    function Values(): (vs: seq<Node>)
      requires Wf()
      ensures |vs| == |order| && |vs| == |entries|
      ensures forall i :: 0 <= i < |order| ==> vs[i] == entries[order[i]]
    {
      DistinctCard(order, entries.Keys);
      seq(|order|, i requires 0 <= i < |order| => entries[order[i]])
    }
  }

  function EmptyDict(): NodeDict {
    NodeDict(map[], [])
  }

  /** A list without repeats whose elements are exactly a set's has the set's size. */
  lemma {:induction false} DistinctCard(s: seq<string>, keys: set<string>)
    requires forall a, b :: 0 <= a < b < |s| ==> s[a] != s[b]
    requires forall k :: k in keys <==> k in s
    ensures |keys| == |s|
    decreases |s|
  {
    if s != [] {
      var last := s[|s| - 1];
      var init := s[..|s| - 1];
      forall k | k in init ensures k in keys - {last} {
        var i :| 0 <= i < |init| && init[i] == k;
        assert s[i] == k;
      }
      forall k | k in keys - {last} ensures k in init {
        var i :| 0 <= i < |s| && s[i] == k;
        assert init[i] == k;
      }
      DistinctCard(init, keys - {last});
    }
  }

  lemma {:induction false} PutAllWf(d: NodeDict, ns: seq<Node>)
    requires d.Wf()
    ensures d.PutAll(ns).Wf()
    decreases |ns|
  {
    if ns != [] {
      PutAllWf(d, ns[..|ns| - 1]);
    }
  }

  lemma {:induction false} PutAllConcat(d: NodeDict, a: seq<Node>, b: seq<Node>)
    ensures d.PutAll(a + b) == d.PutAll(a).PutAll(b)
    decreases |b|
  {
    if b == [] {
      assert a + b == a;
    } else {
      assert (a + b)[..|a + b| - 1] == a + b[..|b| - 1];
      PutAllConcat(d, a, b[..|b| - 1]);
    }
  }

  lemma PutAllSnoc(d: NodeDict, ns: seq<Node>, n: Node)
    ensures d.PutAll(ns + [n]) == d.PutAll(ns).Put(n)
  {
    assert (ns + [n])[..|ns|] == ns;
  }

  /** Each of `ns` is the value stored under its own id. */
  ghost predicate Registered(ns: seq<Node>, d: NodeDict) {
    forall n :: n in ns ==> n.id in d.entries && d.entries[n.id] == n
  }

  /** No node of `ns` shares an id with a node of `ms`. */
  ghost predicate Apart(ns: seq<Node>, ms: seq<Node>) {
    forall a, b :: a in ns && b in ms ==> a.id != b.id
  }

  /** Node `t` of `ns` carries the `t`-th id of level `level`. */
  ghost predicate Named(ns: seq<Node>, level: nat) {
    forall t :: 0 <= t < |ns| ==> ns[t].id == LevelId(level, t)
  }

  lemma NamedApart(ns: seq<Node>, level: nat, ms: seq<Node>, level': nat)
    requires Named(ns, level) && Named(ms, level') && level != level'
    ensures Apart(ns, ms)
  {
    forall a, b | a in ns && b in ms ensures a.id != b.id {
      var t :| 0 <= t < |ns| && ns[t] == a;
      var u :| 0 <= u < |ms| && ms[u] == b;
      LevelIdInjective(level, t, level', u);
    }
  }

  /** Putting the last node, whose id is fresh, keeps the earlier nodes registered and registers it. */
  lemma PutRegistered(d: NodeDict, ns: seq<Node>)
    requires ns != [] && Registered(ns[..|ns| - 1], d) && Apart(ns[..|ns| - 1], [ns[|ns| - 1]])
    ensures Registered(ns, d.Put(ns[|ns| - 1]))
  {
    forall n | n in ns ensures n.id in d.Put(ns[|ns| - 1]).entries && d.Put(ns[|ns| - 1]).entries[n.id] == n {
      var i :| 0 <= i < |ns| && ns[i] == n;
      if i < |ns| - 1 {
        assert ns[..|ns| - 1][i] == n;
      }
    }
  }

  /** Nodes whose ids the put nodes avoid stay registered. */
  lemma {:induction false} PutAllRegistered(d: NodeDict, ns: seq<Node>, ms: seq<Node>)
    requires Registered(ms, d) && Apart(ns, ms)
    ensures Registered(ms, d.PutAll(ns))
    decreases |ns|
  {
    if ns != [] {
      PutAllRegistered(d, ns[..|ns| - 1], ms);
      assert ns[|ns| - 1] in ns;
    }
  }

  function ClusteringFor(cfg: TreeConfig): ClusteringConfig {
    ClusteringConfig(cfg.maxClusterSize, cfg.minClusterSize, cfg.reductionDimension, "gaussian_mixture")
  }

  /**
   * The `RAPTORClustering` object a tree owns, as the function from embeddings to the clusters
   * it computes or the exception it raises.
   */
  type Clusterer = seq<Embedding> -> Result<seq<seq<nat>>, Error>

  /**
   * `self.clustering.perform_clustering(embeddings)` with the clustering built from the tree
   * config, at dimension 10 and threshold 0.5 (the defaults).
   */
  function ClustererFor(cfg: TreeConfig, num: Numerics): Clusterer {
    emb => PerformClustering(ClusteringFor(cfg), num, emb, 10, 0.5)
  }

  /** Every index in every cluster is a valid position in a list of `n` nodes. */
  predicate IndicesBelow(clusters: seq<seq<nat>>, n: nat) {
    forall j, t :: 0 <= j < |clusters| && 0 <= t < |clusters[j]| ==> clusters[j][t] < n
  }

  /** Clusters of valid, ascending indices with at least `min` members each. */
  predicate ClustersFit(clusters: seq<seq<nat>>, n: nat, min: nat) {
    && IndicesBelow(clusters, n)
    && forall j :: 0 <= j < |clusters| ==> |clusters[j]| >= min && StrictlyIncreasing(clusters[j])
  }

  /** What `_build_level` relies on: for two points or more, above `min`, clusters returned fit. */
  ghost predicate ClustererOk(f: Clusterer, min: nat) {
    forall emb: seq<Embedding> :: |emb| >= 2 && |emb| > min && f(emb).Ok? ==> ClustersFit(f(emb).value, |emb|, min)
  }

  /**
   * The tree's own clusterer meets that contract, given well-shaped numerics; above the minimum
   * cluster size it raises exactly for at most four points, with UMAP's neighbour-count error.
   */
  lemma ClustererForOk(cfg: TreeConfig, num: Numerics)
    requires WellShaped(num)
    ensures ClustererOk(ClustererFor(cfg, num), cfg.minClusterSize)
    ensures forall emb: seq<Embedding> {:trigger PerformClustering(ClusteringFor(cfg), num, emb, 10, 0.5)} ::
              |emb| > cfg.minClusterSize ==>
                && (ClustererFor(cfg, num)(emb).Err? <==> |emb| <= 4)
                && (ClustererFor(cfg, num)(emb).Err? ==> ClustererFor(cfg, num)(emb).error == NeighborsError())
  {
    forall emb: seq<Embedding> | |emb| > cfg.minClusterSize
      ensures && (ClustererFor(cfg, num)(emb).Err? <==> |emb| <= 4)
              && (ClustererFor(cfg, num)(emb).Err? ==> ClustererFor(cfg, num)(emb).error == NeighborsError())
    {
      GaussianMixtureSucceeds(ClusteringFor(cfg), num, emb, 10, 0.5);
      if |emb| <= 4 {
        DefaultNeighbors(|emb|);
      }
    }
    forall emb: seq<Embedding> | |emb| >= 2 && |emb| > cfg.minClusterSize && ClustererFor(cfg, num)(emb).Ok?
      ensures ClustersFit(ClustererFor(cfg, num)(emb).value, |emb|, cfg.minClusterSize)
    {
      PerformClusteringClusters(ClusteringFor(cfg), num, emb, 10, 0.5);
      var cs := PerformClustering(ClusteringFor(cfg), num, emb, 10, 0.5).value;
      assert ClustererFor(cfg, num)(emb).value == cs;
      assert forall j :: 0 <= j < |cs| ==> cs[j] in cs;
      assert forall j, t :: 0 <= j < |cs| && 0 <= t < |cs[j]| ==> cs[j][t] in cs[j];
    }
  }

  function Embeddings(nodes: seq<Node>): (es: seq<Embedding>)
    ensures |es| == |nodes|
  {
    seq(|nodes|, i requires 0 <= i < |nodes| => nodes[i].embedding)
  }

  function Texts(nodes: seq<Node>): seq<string> {
    seq(|nodes|, i requires 0 <= i < |nodes| => nodes[i].text)
  }

  function Ids(nodes: seq<Node>): (ids: seq<string>)
    ensures |ids| == |nodes| && forall i :: 0 <= i < |nodes| ==> ids[i] == nodes[i].id
  {
    seq(|nodes|, i requires 0 <= i < |nodes| => nodes[i].id)
  }

  /** `[nodes[i] for i in cluster]`. */
  function Pick(nodes: seq<Node>, cluster: seq<nat>): (picked: seq<Node>)
    requires forall t :: 0 <= t < |cluster| ==> cluster[t] < |nodes|
    ensures |picked| == |cluster| && forall t :: 0 <= t < |cluster| ==> picked[t] == nodes[cluster[t]]
  {
    seq(|cluster|, t requires 0 <= t < |cluster| => nodes[cluster[t]])
  }

  /** Leaf `i`: the chunk's text, the chunk's embedding, level 0, the chunk dict as metadata. */
  function Leaf(i: nat, chunk: Chunker.Chunk, embedding: Embedding): Node {
    Node(LeafId(i), chunk.text, embedding, [], 0, ChunkMeta(chunk))
  }

  /** The leaves of the first `n` pairs of `zip(chunks, embeddings)`. */
  function LeavesUpTo(chunks: seq<Chunker.Chunk>, embeddings: seq<Embedding>, n: nat): seq<Node>
    requires n <= |chunks| && n <= |embeddings|
  {
    if n == 0 then [] else LeavesUpTo(chunks, embeddings, n - 1) + [Leaf(n - 1, chunks[n - 1], embeddings[n - 1])]
  }

  /** One leaf per pair of `zip(chunks, embeddings)`. */
  function Leaves(chunks: seq<Chunker.Chunk>, embeddings: seq<Embedding>): seq<Node> {
    LeavesUpTo(chunks, embeddings, Min(|chunks|, |embeddings|))
  }

  /** The first `n` leaves: leaf `i` is `leaf_<i>` at level 0 with no children, chunk `i`'s text and embedding `i`. */
  lemma {:induction false} LeavesUpToSpec(chunks: seq<Chunker.Chunk>, embeddings: seq<Embedding>, n: nat)
    requires n <= |chunks| && n <= |embeddings|
    ensures var ls := LeavesUpTo(chunks, embeddings, n);
            && |ls| == n
            && Named(ls, 0)
            && forall i :: 0 <= i < n ==>
                 && ls[i].text == chunks[i].text && ls[i].embedding == embeddings[i]
                 && ls[i].children == [] && ls[i].level == 0 && ls[i].metadata == ChunkMeta(chunks[i])
  {
    if n > 0 {
      LeavesUpToSpec(chunks, embeddings, n - 1);
    }
  }

  /** The leaves: one per zipped pair, `leaf_<i>` at level 0 with no children and the chunk as metadata. */
  lemma LeavesSpec(chunks: seq<Chunker.Chunk>, embeddings: seq<Embedding>)
    ensures var ls := Leaves(chunks, embeddings);
            && |ls| == Min(|chunks|, |embeddings|)
            && Named(ls, 0)
            && forall i :: 0 <= i < |ls| ==>
                 && ls[i].text == chunks[i].text && ls[i].embedding == embeddings[i]
                 && ls[i].children == [] && ls[i].level == 0 && ls[i].metadata == ChunkMeta(chunks[i])
  {
    LeavesUpToSpec(chunks, embeddings, Min(|chunks|, |embeddings|));
  }

  /** Parent `j` of level `level`: the summary of its children's texts and that summary's embedding. */
  function MakeParent(cfg: TreeConfig, models: Models, level: nat, j: nat, kids: seq<Node>): Node {
    var summary := models.summarize(Texts(kids), cfg.summarizationLength);
    Node(ClusterId(level, j), summary, models.embed(summary), kids, level, ClusterMeta(|kids|, j))
  }

  /** The parents of the first `n` clusters, in cluster order. */
  function ParentsUpTo(cfg: TreeConfig, models: Models, level: nat, nodes: seq<Node>, clusters: seq<seq<nat>>, n: nat): seq<Node>
    requires IndicesBelow(clusters, |nodes|) && n <= |clusters|
  {
    if n == 0 then []
    else ParentsUpTo(cfg, models, level, nodes, clusters, n - 1) + [MakeParent(cfg, models, level, n - 1, Pick(nodes, clusters[n - 1]))]
  }

  /** One parent per cluster, in cluster order. */
  function Parents(cfg: TreeConfig, models: Models, level: nat, nodes: seq<Node>, clusters: seq<seq<nat>>): seq<Node>
    requires IndicesBelow(clusters, |nodes|)
  {
    ParentsUpTo(cfg, models, level, nodes, clusters, |clusters|)
  }

  /**
   * Parent `j` of a level has id `level_L_cluster_j`, level L, the nodes `nodes[i]` for `i` in
   * cluster `j` as children (in cluster order), metadata {num_children, cluster_idx: j}, the
   * summary of those children's texts as text, and that text's embedding.
   */
  lemma {:induction false} ParentsUpToSpec(cfg: TreeConfig, models: Models, level: nat, nodes: seq<Node>, clusters: seq<seq<nat>>, n: nat)
    requires IndicesBelow(clusters, |nodes|) && n <= |clusters|
    ensures var ps := ParentsUpTo(cfg, models, level, nodes, clusters, n);
            && |ps| == n
            && forall j :: 0 <= j < n ==>
                 var kids := Pick(nodes, clusters[j]);
                 && ps[j] == MakeParent(cfg, models, level, j, kids)
                 && ps[j].id == ClusterId(level, j)
                 && ps[j].level == level
                 && ps[j].children == kids
                 && ps[j].metadata == ClusterMeta(|clusters[j]|, j)
                 && ps[j].text == models.summarize(Texts(kids), cfg.summarizationLength)
                 && ps[j].embedding == models.embed(ps[j].text)
  {
    if n > 0 {
      ParentsUpToSpec(cfg, models, level, nodes, clusters, n - 1);
    }
  }

  /**
   * `_build_level`: nothing at or below the minimum size, otherwise one parent per cluster; an
   * exception of the clustering propagates.
   */
  function NextLevel(cfg: TreeConfig, models: Models, f: Clusterer, nodes: seq<Node>, level: nat): Result<seq<Node>, Error>
    requires ClustererOk(f, cfg.minClusterSize) && |nodes| >= 2
  {
    if |nodes| <= cfg.minClusterSize then Ok([])
    else
      var clusters := f(Embeddings(nodes));
      if clusters.Err? then Err(clusters.error)
      else Ok(Parents(cfg, models, level, nodes, clusters.value))
  }

  /** `n` is a level-`level` node with at least `min` children, all drawn from `below`. */
  ghost predicate ParentOf(n: Node, below: seq<Node>, level: nat, min: nat) {
    && n.level == level
    && |n.children| >= min
    && forall c :: c in n.children ==> c in below
  }

  /**
   * A built level: no parents for a level of at most `min_cluster_size` nodes; the clustering's
   * exception, if it raises; otherwise parents named `level_L_cluster_0, 1, …`, each at level L
   * with at least `min_cluster_size` children taken from the level below.
   */
  lemma NextLevelSpec(cfg: TreeConfig, models: Models, f: Clusterer, nodes: seq<Node>, level: nat)
    requires ClustererOk(f, cfg.minClusterSize) && |nodes| >= 2 && level >= 1
    ensures var r := NextLevel(cfg, models, f, nodes, level);
            && (|nodes| <= cfg.minClusterSize ==> r == Ok([]))
            && (r.Err? <==> |nodes| > cfg.minClusterSize && f(Embeddings(nodes)).Err?)
            && (r.Err? ==> r.error == f(Embeddings(nodes)).error)
            && (r.Ok? ==> Named(r.value, level))
            && (r.Ok? ==> forall n :: n in r.value ==> ParentOf(n, nodes, level, cfg.minClusterSize))
  {
    if |nodes| > cfg.minClusterSize && f(Embeddings(nodes)).Ok? {
      var clusters := f(Embeddings(nodes)).value;
      var ps := Parents(cfg, models, level, nodes, clusters);
      ParentsUpToSpec(cfg, models, level, nodes, clusters, |clusters|);
      forall j | 0 <= j < |ps| ensures ParentOf(ps[j], nodes, level, cfg.minClusterSize) {
        var kids := Pick(nodes, clusters[j]);
        forall c | c in kids ensures c in nodes {
          var t :| 0 <= t < |kids| && kids[t] == c;
        }
      }
    }
  }

  /** `_build_level` as a function value: the nodes of a level and the number of the level to build. */
  type LevelBuilder = (seq<Node>, nat) --> Result<seq<Node>, Error>

  /** The tree's own `_build_level`. */
  ghost function BuilderOf(cfg: TreeConfig, models: Models, f: Clusterer): LevelBuilder {
    (nodes: seq<Node>, level: nat) requires ClustererOk(f, cfg.minClusterSize) && |nodes| >= 2 =>
      NextLevel(cfg, models, f, nodes, level)
  }

  /** A builder that applies to every list of two nodes or more. */
  ghost predicate Defined(step: LevelBuilder) {
    forall nodes: seq<Node>, level: nat :: |nodes| >= 2 ==> step.requires(nodes, level)
  }

  /** What the level loop relies on from `_build_level`: the contract `NextLevelSpec` proves. */
  ghost predicate BuilderOk(step: LevelBuilder, min: nat)
    requires Defined(step)
  {
    forall nodes: seq<Node>, level: nat :: |nodes| >= 2 && level >= 1 ==>
      && (|nodes| <= min ==> step(nodes, level) == Ok([]))
      && (step(nodes, level).Ok? ==> Named(step(nodes, level).value, level))
      && (step(nodes, level).Ok? ==> forall n :: n in step(nodes, level).value ==> ParentOf(n, nodes, level, min))
  }

  /** `step` computes what `_build_level` computes, on every list of two nodes or more. */
  ghost predicate Implements(step: LevelBuilder, cfg: TreeConfig, models: Models, f: Clusterer) {
    && ClustererOk(f, cfg.minClusterSize)
    && forall nodes: seq<Node>, level: nat {:trigger NextLevel(cfg, models, f, nodes, level)} :: |nodes| >= 2 ==>
         step.requires(nodes, level) && step(nodes, level) == NextLevel(cfg, models, f, nodes, level)
  }

  /** What a builder that implements `_build_level` computes, in the terms the method computes it. */
  lemma ImplementsUnfold(step: LevelBuilder, cfg: TreeConfig, models: Models, f: Clusterer, nodes: seq<Node>, level: nat)
    requires Defined(step) && Implements(step, cfg, models, f) && |nodes| >= 2
    ensures |nodes| <= cfg.minClusterSize ==> step(nodes, level) == Ok([])
    ensures |nodes| > cfg.minClusterSize && f(Embeddings(nodes)).Err? ==> step(nodes, level) == Err(f(Embeddings(nodes)).error)
    ensures |nodes| > cfg.minClusterSize && f(Embeddings(nodes)).Ok? ==>
              var clusters := f(Embeddings(nodes)).value;
              && IndicesBelow(clusters, |nodes|)
              && step(nodes, level) == Ok(ParentsUpTo(cfg, models, level, nodes, clusters, |clusters|))
  {
    assert step(nodes, level) == NextLevel(cfg, models, f, nodes, level);
  }

  /** The tree's own `_build_level` meets the contract the level loop relies on. */
  lemma BuilderOfOk(cfg: TreeConfig, models: Models, f: Clusterer)
    requires ClustererOk(f, cfg.minClusterSize)
    ensures Defined(BuilderOf(cfg, models, f))
    ensures BuilderOk(BuilderOf(cfg, models, f), cfg.minClusterSize)
    ensures Implements(BuilderOf(cfg, models, f), cfg, models, f)
  {
    var step := BuilderOf(cfg, models, f);
    forall nodes: seq<Node>, level: nat | |nodes| >= 2 && level >= 1
      ensures && (|nodes| <= cfg.minClusterSize ==> step(nodes, level) == Ok([]))
              && (step(nodes, level).Ok? ==> Named(step(nodes, level).value, level))
              && (step(nodes, level).Ok? ==> forall n :: n in step(nodes, level).value ==> ParentOf(n, nodes, level, cfg.minClusterSize))
    {
      NextLevelSpec(cfg, models, f, nodes, level);
    }
  }

  /**
   * The levels the level loop of `build_tree` adds above `current` (at level `level`), lowest
   * first, up to the first level whose building raises.
   */
  ghost function Levels(step: LevelBuilder, maxDepth: int, current: seq<Node>, level: nat): seq<seq<Node>>
    requires Defined(step)
    decreases maxDepth - level
  {
    if level < maxDepth && |current| > 1 then
      var next := step(current, level + 1);
      if next.Err? || next.value == [] then [] else [next.value] + Levels(step, maxDepth, next.value, level + 1)
    else []
  }

  /** The exception that ends the level loop, if building a level raises. */
  ghost function LevelsError(step: LevelBuilder, maxDepth: int, current: seq<Node>, level: nat): Option<Error>
    requires Defined(step)
    decreases maxDepth - level
  {
    if level < maxDepth && |current| > 1 then
      var next := step(current, level + 1);
      if next.Err? then Some(next.error)
      else if next.value == [] then None
      else LevelsError(step, maxDepth, next.value, level + 1)
    else None
  }

  /** The levels `build_tree` builds over `leaves` with the tree's own `_build_level`. */
  ghost function TreeLevels(cfg: TreeConfig, models: Models, f: Clusterer, leaves: seq<Node>): seq<seq<Node>>
    requires ClustererOk(f, cfg.minClusterSize)
  {
    BuilderOfOk(cfg, models, f);
    Levels(BuilderOf(cfg, models, f), cfg.maxDepth, leaves, 0)
  }

  /** The exception `build_tree` raises over `leaves`, if any. */
  ghost function TreeError(cfg: TreeConfig, models: Models, f: Clusterer, leaves: seq<Node>): Option<Error>
    requires ClustererOk(f, cfg.minClusterSize)
  {
    BuilderOfOk(cfg, models, f);
    LevelsError(BuilderOf(cfg, models, f), cfg.maxDepth, leaves, 0)
  }

  /** A level builder that never raises makes the level loop raise nothing. */
  lemma {:induction false} LevelsNoError(step: LevelBuilder, maxDepth: int, current: seq<Node>, level: nat)
    requires Defined(step)
    requires forall nodes: seq<Node>, l: nat :: |nodes| >= 2 ==> step(nodes, l).Ok?
    ensures LevelsError(step, maxDepth, current, level) == None
    decreases maxDepth - level
  {
    if level < maxDepth && |current| > 1 {
      var next := step(current, level + 1);
      if next.value != [] {
        LevelsNoError(step, maxDepth, next.value, level + 1);
      }
    }
  }

  /**
   * With a minimum cluster size of four or more (the default is five) the tree's own clusterer
   * never raises on a level it is asked to split, so `build_tree` raises nothing.
   */
  lemma TreeNeverRaises(cfg: TreeConfig, models: Models, num: Numerics, leaves: seq<Node>)
    requires WellShaped(num) && cfg.minClusterSize >= 4
    ensures ClustererOk(ClustererFor(cfg, num), cfg.minClusterSize)
    ensures TreeError(cfg, models, ClustererFor(cfg, num), leaves) == None
  {
    ClustererForOk(cfg, num);
    var f := ClustererFor(cfg, num);
    BuilderOfOk(cfg, models, f);
    var step := BuilderOf(cfg, models, f);
    forall nodes: seq<Node>, l: nat | |nodes| >= 2 ensures step(nodes, l).Ok? {
      if |nodes| > cfg.minClusterSize {
        assert f(Embeddings(nodes)) == PerformClustering(ClusteringFor(cfg), num, Embeddings(nodes), 10, 0.5);
      }
    }
    LevelsNoError(step, cfg.maxDepth, leaves, 0);
  }

  /** The root level: the last level built, or the leaves when none was. */
  function RootsOf(leaves: seq<Node>, levels: seq<seq<Node>>): seq<Node> {
    if levels == [] then leaves else levels[|levels| - 1]
  }

  /** The level just below level `t` of `levels` (level 0 of which sits on `current`). */
  function Below(current: seq<Node>, levels: seq<seq<Node>>, t: nat): seq<Node>
    requires t < |levels|
  {
    if t == 0 then current else levels[t - 1]
  }

  /** One more turn of the level loop: the level built is the next of the levels still to come. */
  lemma LevelsTurn(step: LevelBuilder, maxDepth: int, leaves: seq<Node>, built: seq<seq<Node>>, current: seq<Node>, level: nat, next: seq<Node>)
    requires Defined(step)
    requires Levels(step, maxDepth, leaves, 0) == built + Levels(step, maxDepth, current, level)
    requires LevelsError(step, maxDepth, leaves, 0) == LevelsError(step, maxDepth, current, level)
    requires level < maxDepth && |current| > 1 && step(current, level + 1) == Ok(next) && next != []
    ensures Levels(step, maxDepth, leaves, 0) == (built + [next]) + Levels(step, maxDepth, next, level + 1)
    ensures LevelsError(step, maxDepth, leaves, 0) == LevelsError(step, maxDepth, next, level + 1)
    ensures RootsOf(leaves, built + [next]) == next
    ensures Flatten(built + [next]) == Flatten(built) + next
  {
    assert Levels(step, maxDepth, current, level) == [next] + Levels(step, maxDepth, next, level + 1);
    assert (built + [next])[..|built|] == built;
  }

  /** When the level loop stops without an exception, the levels built are all the levels. */
  lemma LevelsEnd(step: LevelBuilder, maxDepth: int, leaves: seq<Node>, built: seq<seq<Node>>, current: seq<Node>, level: nat)
    requires Defined(step)
    requires Levels(step, maxDepth, leaves, 0) == built + Levels(step, maxDepth, current, level)
    requires LevelsError(step, maxDepth, leaves, 0) == LevelsError(step, maxDepth, current, level)
    requires !(level < maxDepth && |current| > 1) || step(current, level + 1) == Ok([])
    ensures Levels(step, maxDepth, leaves, 0) == built
    ensures LevelsError(step, maxDepth, leaves, 0) == None
  {
    assert built + [] == built;
  }

  /** When building a level raises, the levels built are all the levels and the loop raises that exception. */
  lemma LevelsFail(step: LevelBuilder, maxDepth: int, leaves: seq<Node>, built: seq<seq<Node>>, current: seq<Node>, level: nat)
    requires Defined(step)
    requires Levels(step, maxDepth, leaves, 0) == built + Levels(step, maxDepth, current, level)
    requires LevelsError(step, maxDepth, leaves, 0) == LevelsError(step, maxDepth, current, level)
    requires level < maxDepth && |current| > 1 && step(current, level + 1).Err?
    ensures Levels(step, maxDepth, leaves, 0) == built
    ensures LevelsError(step, maxDepth, leaves, 0) == Some(step(current, level + 1).error)
  {
    assert built + [] == built;
  }

  /** The level loop builds at most `max_depth - level` levels. */
  lemma {:induction false} LevelsBound(step: LevelBuilder, maxDepth: int, current: seq<Node>, level: nat)
    requires Defined(step)
    ensures var ls := Levels(step, maxDepth, current, level);
            ls == [] || level + |ls| <= maxDepth
    decreases maxDepth - level
  {
    if level < maxDepth && |current| > 1 && step(current, level + 1).Ok? {
      var next := step(current, level + 1).value;
      if next != [] {
        LevelsBound(step, maxDepth, next, level + 1);
      }
    }
  }

  /**
   * The level loop stops without an exception only because the depth bound is reached, a single
   * node remains at the top, or `_build_level` returns nothing for the top level; it raises
   * exactly when building the level above the top raises, with that exception.
   */
  lemma {:induction false} LevelsStop(step: LevelBuilder, maxDepth: int, current: seq<Node>, level: nat)
    requires Defined(step)
    ensures var ls := Levels(step, maxDepth, current, level);
            var top := RootsOf(current, ls);
            var e := LevelsError(step, maxDepth, current, level);
            && (e.None? ==> level + |ls| >= maxDepth || |top| <= 1 || step(top, level + |ls| + 1) == Ok([]))
            && (e.Some? ==> level + |ls| < maxDepth && |top| > 1 && step(top, level + |ls| + 1) == Err(e.value))
    decreases maxDepth - level
  {
    var ls := Levels(step, maxDepth, current, level);
    if level < maxDepth && |current| > 1 && step(current, level + 1).Ok? {
      var next := step(current, level + 1).value;
      if next != [] {
        var rest := Levels(step, maxDepth, next, level + 1);
        LevelsStop(step, maxDepth, next, level + 1);
        assert ls == [next] + rest;
        if rest != [] {
          assert RootsOf(current, ls) == RootsOf(next, rest);
        }
      }
    }
  }

  /**
   * Level `t` of the levels built is non-empty and named `level_<L>_cluster_0, 1, …` for its
   * number L, and each of its nodes is a level-L parent with at least `min_cluster_size`
   * children, all from the level below.
   */
  lemma {:induction false} LevelAt(step: LevelBuilder, min: nat, maxDepth: int, current: seq<Node>, level: nat, t: nat)
    requires Defined(step) && BuilderOk(step, min)
    requires t < |Levels(step, maxDepth, current, level)|
    ensures var ls := Levels(step, maxDepth, current, level);
            && ls[t] != []
            && Named(ls[t], level + t + 1)
            && forall n :: n in ls[t] ==> ParentOf(n, Below(current, ls, t), level + t + 1, min)
    decreases t
  {
    var ls := Levels(step, maxDepth, current, level);
    var next := step(current, level + 1).value;
    var rest := Levels(step, maxDepth, next, level + 1);
    assert ls == [next] + rest;
    if t > 0 {
      LevelAt(step, min, maxDepth, next, level + 1, t - 1);
      assert ls[t] == rest[t - 1] && Below(current, ls, t) == Below(next, rest, t - 1);
    }
  }

  /** `LevelAt` for every level built. */
  lemma LevelsNodes(step: LevelBuilder, min: nat, maxDepth: int, current: seq<Node>, level: nat)
    requires Defined(step) && BuilderOk(step, min)
    ensures var ls := Levels(step, maxDepth, current, level);
            forall t :: 0 <= t < |ls| ==>
              && ls[t] != []
              && Named(ls[t], level + t + 1)
              && forall n :: n in ls[t] ==> ParentOf(n, Below(current, ls, t), level + t + 1, min)
  {
    var ls := Levels(step, maxDepth, current, level);
    forall t | 0 <= t < |ls|
      ensures && ls[t] != []
              && Named(ls[t], level + t + 1)
              && forall n :: n in ls[t] ==> ParentOf(n, Below(current, ls, t), level + t + 1, min)
    {
      LevelAt(step, min, maxDepth, current, level, t);
    }
  }

  /** Every child of a node sits exactly one level below it, all the way down. */
  ghost predicate Leveled(n: Node)
    decreases n
  {
    forall c :: c in n.children ==> c.level + 1 == n.level && Leveled(c)
  }

  /** Parents built over a leveled list sit one level above it and are leveled themselves. */
  lemma NextLeveled(step: LevelBuilder, min: nat, current: seq<Node>, level: nat)
    requires Defined(step) && BuilderOk(step, min) && |current| >= 2 && step(current, level + 1).Ok?
    requires forall n :: n in current ==> n.level == level && Leveled(n)
    ensures forall n :: n in step(current, level + 1).value ==> n.level == level + 1 && Leveled(n)
  {
    forall n | n in step(current, level + 1).value ensures n.level == level + 1 && Leveled(n) {
      assert ParentOf(n, current, level + 1, min);
    }
  }

  /** A leveled first level followed by levels leveled from the next number up. */
  lemma LeveledCons(next: seq<Node>, rest: seq<seq<Node>>, level: nat)
    requires forall n :: n in next ==> n.level == level + 1 && Leveled(n)
    requires forall t, n: Node :: 0 <= t < |rest| && n in rest[t] ==> n.level == level + 1 + t + 1 && Leveled(n)
    ensures forall t, n: Node :: 0 <= t < |[next] + rest| && n in ([next] + rest)[t] ==> n.level == level + t + 1 && Leveled(n)
  {
    var ls := [next] + rest;
    forall t, n: Node | 0 <= t < |ls| && n in ls[t] ensures n.level == level + t + 1 && Leveled(n) {
      if t > 0 {
        assert ls[t] == rest[t - 1];
      }
    }
  }

  /**
   * Over nodes at level `level` whose children sit one level down all the way, every node of
   * level `t` of the levels built sits at level `level + t + 1` and so does every child of it one
   * level lower, and the top level sits at level `level + |levels|`.
   */
  lemma {:induction false} LevelsLeveled(step: LevelBuilder, min: nat, maxDepth: int, current: seq<Node>, level: nat)
    requires Defined(step) && BuilderOk(step, min)
    requires forall n :: n in current ==> n.level == level && Leveled(n)
    ensures var ls := Levels(step, maxDepth, current, level);
            && (forall t, n: Node :: 0 <= t < |ls| && n in ls[t] ==> n.level == level + t + 1 && Leveled(n))
            && (forall n :: n in RootsOf(current, ls) ==> n.level == level + |ls| && Leveled(n))
    decreases maxDepth - level
  {
    var ls := Levels(step, maxDepth, current, level);
    if level < maxDepth && |current| > 1 && step(current, level + 1).Ok? {
      var next := step(current, level + 1).value;
      if next != [] {
        NextLeveled(step, min, current, level);
        var rest := Levels(step, maxDepth, next, level + 1);
        LevelsLeveled(step, min, maxDepth, next, level + 1);
        assert ls == [next] + rest;
        LeveledCons(next, rest, level);
        if rest != [] {
          assert RootsOf(current, ls) == RootsOf(next, rest);
        }
      }
    }
  }

  /**
   * The roots of a built tree sit at level `|levels|`, never above `max_depth` once a level is
   * built, and every child of every node sits one level below its parent.
   */
  lemma RootLevel(cfg: TreeConfig, models: Models, f: Clusterer, chunks: seq<Chunker.Chunk>, embeddings: seq<Embedding>)
    requires ClustererOk(f, cfg.minClusterSize)
    ensures var leaves := Leaves(chunks, embeddings);
            var ls := TreeLevels(cfg, models, f, leaves);
            && (ls != [] ==> |ls| <= cfg.maxDepth)
            && forall n :: n in RootsOf(leaves, ls) ==> n.level == |ls| && Leveled(n)
  {
    var leaves := Leaves(chunks, embeddings);
    var step := BuilderOf(cfg, models, f);
    BuilderOfOk(cfg, models, f);
    LeavesSpec(chunks, embeddings);
    LevelsBound(step, cfg.maxDepth, leaves, 0);
    LevelsLeveled(step, cfg.minClusterSize, cfg.maxDepth, leaves, 0);
  }

  /** A prefix of a named level is named the same way. */
  lemma NamedPrefix(ns: seq<Node>, level: nat, m: nat)
    requires Named(ns, level) && m <= |ns|
    ensures Named(ns[..m], level)
  {
    forall t | 0 <= t < m ensures ns[..m][t].id == LevelId(level, t) {
      assert ns[..m][t] == ns[t];
    }
  }

  /** The last node of a named level shares its id with no node before it. */
  lemma NamedLastApart(ns: seq<Node>, level: nat)
    requires Named(ns, level) && ns != []
    ensures Apart(ns[..|ns| - 1], [ns[|ns| - 1]])
  {
    var init := ns[..|ns| - 1];
    forall a, b | a in init && b in [ns[|ns| - 1]] ensures a.id != b.id {
      var t :| 0 <= t < |init| && init[t] == a;
      assert ns[t] == a;
      LevelIdInjective(level, t, level, |ns| - 1);
    }
  }

  /** Nodes named after the consecutive positions of one level are all registered once put. */
  lemma {:induction false} PutAllNamed(d: NodeDict, ns: seq<Node>, level: nat)
    requires Named(ns, level)
    ensures Registered(ns, d.PutAll(ns))
    decreases |ns|
  {
    if ns != [] {
      var init := ns[..|ns| - 1];
      NamedPrefix(ns, level, |ns| - 1);
      PutAllNamed(d, init, level);
      NamedLastApart(ns, level);
      PutRegistered(d.PutAll(init), ns);
    }
  }

  /**
   * Putting the levels built above `current` keeps the leaves registered and registers the
   * top level: ids never collide across levels.
   */
  lemma {:induction false} LevelsRegistered(step: LevelBuilder, min: nat, maxDepth: int, current: seq<Node>, level: nat, d: NodeDict, leaves: seq<Node>)
    requires Defined(step) && BuilderOk(step, min)
    requires Named(current, level) && Registered(current, d)
    requires Named(leaves, 0) && Registered(leaves, d)
    ensures var ls := Levels(step, maxDepth, current, level);
            var d' := d.PutAll(Flatten(ls));
            Registered(leaves, d') && Registered(RootsOf(current, ls), d')
    decreases maxDepth - level
  {
    var ls := Levels(step, maxDepth, current, level);
    if level < maxDepth && |current| > 1 && step(current, level + 1).Ok? {
      var next := step(current, level + 1).value;
      if next != [] {
        var d1 := d.PutAll(next);
        PutAllNamed(d, next, level + 1);
        NamedApart(next, level + 1, leaves, 0);
        PutAllRegistered(d, next, leaves);
        var rest := Levels(step, maxDepth, next, level + 1);
        LevelsRegistered(step, min, maxDepth, next, level + 1, d1, leaves);
        assert ls == [next] + rest;
        FlattenCons(next, rest);
        PutAllConcat(d, next, Flatten(rest));
        if rest != [] {
          assert RootsOf(current, ls) == RootsOf(next, rest);
        }
        return;
      }
    }
  }

  /** After a build, `all_nodes` is well formed and holds the leaves and the roots under their ids. */
  lemma BuiltRegistered(cfg: TreeConfig, models: Models, f: Clusterer, d: NodeDict, leaves: seq<Node>)
    requires ClustererOk(f, cfg.minClusterSize) && d.Wf() && Named(leaves, 0)
    ensures var ls := TreeLevels(cfg, models, f, leaves);
            var d' := d.PutAll(leaves + Flatten(ls));
            d'.Wf() && Registered(leaves, d') && Registered(RootsOf(leaves, ls), d')
  {
    var ls := TreeLevels(cfg, models, f, leaves);
    BuilderOfOk(cfg, models, f);
    PutAllNamed(d, leaves, 0);
    LevelsRegistered(BuilderOf(cfg, models, f), cfg.minClusterSize, cfg.maxDepth, leaves, 0, d.PutAll(leaves), leaves);
    PutAllConcat(d, leaves, Flatten(ls));
    PutAllWf(d, leaves + Flatten(ls));
  }

  /** A `RAPTORTree`: its configuration, models and clustering, its root and leaf lists, and `all_nodes`. */
  class RaptorTree {
    const models: Models
    const config: TreeConfig
    const clusterer: Clusterer
    var rootNodes: seq<Node>
    var leafNodes: seq<Node>
    var allNodes: NodeDict

    /** `all_nodes` is a well-formed dict, and the clustering meets what `_build_level` relies on. */
    ghost predicate Valid()
      reads this
    {
      && allNodes.Wf()
      && ClustererOk(clusterer, config.minClusterSize)
    }

    /** Every root and every leaf is the node `all_nodes` holds under its id. */
    ghost predicate Linked()
      reads this
    {
      && Registered(rootNodes, allNodes)
      && Registered(leafNodes, allNodes)
    }

    /** The tree's fields as one value. */
    function State(): TreeState
      reads this
    {
      TreeState(config, rootNodes, leafNodes, allNodes)
    }

    /** `RAPTORTree(embedding_model, summarization_model, config)`; a missing config is the default. */
    constructor(models: Models, numerics: Numerics, config: Option<TreeConfig>)
      requires WellShaped(numerics)
      ensures Valid() && Linked()
      ensures this.models == models
      ensures this.config == if config.Some? then config.value else DefaultTreeConfig()
      ensures clusterer == ClustererFor(this.config, numerics)
      ensures rootNodes == [] && leafNodes == [] && allNodes == EmptyDict()
    {
      this.models := models;
      var cfg := if config.Some? then config.value else DefaultTreeConfig();
      this.config := cfg;
      this.clusterer := ClustererFor(cfg, numerics);
      rootNodes := [];
      leafNodes := [];
      allNodes := EmptyDict();
      ClustererForOk(cfg, numerics);
    }

    /** `get_node_by_id`: the node registered under `id`, if any. */
    function GetNodeById(id: string): (r: Option<Node>)
      reads this
      ensures r.Some? <==> id in allNodes.entries
      ensures r.Some? ==> r.value == allNodes.entries[id]
    {
      allNodes.Get(id)
    }

    /**
     * `_build_level`: creates and registers one parent per cluster of `nodes` (the nodes of
     * level `level - 1`), returning them in cluster order; a clustering exception propagates
     * before anything is registered. `step` names the function this computes, `NextLevel`, for
     * callers that reason about the builder through its contract.
     */
    method BuildLevel(nodes: seq<Node>, level: nat, ghost step: LevelBuilder) returns (r: Result<seq<Node>, Error>)
      requires Defined(step) && Implements(step, config, models, clusterer) && |nodes| >= 2
      modifies this
      ensures r == step(nodes, level)
      ensures allNodes == old(allNodes).PutAll(if r.Ok? then r.value else [])
      ensures rootNodes == old(rootNodes) && leafNodes == old(leafNodes)
    {
      ImplementsUnfold(step, config, models, clusterer, nodes, level);
      if |nodes| <= config.minClusterSize {
        return Ok([]);
      }
      var clusters := clusterer(Embeddings(nodes));
      if clusters.Err? {
        return Err(clusters.error);
      }
      if |clusters.value| == 0 {
        return Ok([]);
      }
      var newNodes := AddParents(nodes, level, clusters.value);
      r := Ok(newNodes);
    }

    /** The loop of `_build_level`: one parent per cluster, each registered as it is made. */
    method AddParents(nodes: seq<Node>, level: nat, clusters: seq<seq<nat>>) returns (newNodes: seq<Node>)
      requires IndicesBelow(clusters, |nodes|)
      modifies this
      ensures newNodes == ParentsUpTo(config, models, level, nodes, clusters, |clusters|)
      ensures allNodes == old(allNodes).PutAll(newNodes)
      ensures rootNodes == old(rootNodes) && leafNodes == old(leafNodes)
    {
      newNodes := [];
      var j := 0;
      while j < |clusters|
        invariant 0 <= j <= |clusters|
        invariant newNodes == ParentsUpTo(config, models, level, nodes, clusters, j)
        invariant allNodes == old(allNodes).PutAll(newNodes)
        invariant rootNodes == old(rootNodes) && leafNodes == old(leafNodes)
      {
        var clusterNodes := Pick(nodes, clusters[j]);
        var summary := models.summarize(Texts(clusterNodes), config.summarizationLength);
        var embedding := models.embed(summary);
        var parent := Node(ClusterId(level, j), summary, embedding, clusterNodes, level, ClusterMeta(|clusterNodes|, j));
        assert parent == MakeParent(config, models, level, j, clusterNodes);
        PutAllSnoc(old(allNodes), newNodes, parent);
        newNodes := newNodes + [parent];
        allNodes := allNodes.Put(parent);
        j := j + 1;
      }
    }

    /**
     * `build_tree`: resets the leaf list, registers one leaf per (chunk, embedding) pair, then
     * builds levels while below `max_depth` with more than one node, stopping early when a level
     * comes back empty; the last level built (or the leaves) becomes the roots. `all_nodes` is not
     * cleared: earlier entries survive unless an id is reused. A clustering exception ends the
     * build with the leaves and the levels built so far registered and the old roots in place.
     */
    method BuildTree(chunks: seq<Chunker.Chunk>, embeddings: seq<Embedding>) returns (r: Result<(), Error>)
      requires Valid()
      modifies this
      ensures Valid()
      ensures leafNodes == Leaves(chunks, embeddings)
      ensures r.Err? <==> TreeError(config, models, clusterer, leafNodes).Some?
      ensures r.Err? ==> r.error == TreeError(config, models, clusterer, leafNodes).value
      ensures rootNodes == if r.Ok? then RootsOf(leafNodes, TreeLevels(config, models, clusterer, leafNodes)) else old(rootNodes)
      ensures allNodes == old(allNodes).PutAll(leafNodes + Flatten(TreeLevels(config, models, clusterer, leafNodes)))
      ensures Registered(leafNodes, allNodes)
      ensures r.Ok? ==> Linked()
      ensures old(allNodes) == EmptyDict() ==> SelfContained(allNodes)
    {
      ghost var d0 := allNodes;
      LeafLoop(chunks, embeddings);
      BuilderOfOk(config, models, clusterer);
      ghost var levels;
      var failure;
      levels, failure := LevelLoop(BuilderOf(config, models, clusterer));
      PutAllConcat(d0, leafNodes, Flatten(levels));
      LeavesSpec(chunks, embeddings);
      BuiltRegistered(config, models, clusterer, d0, leafNodes);
      if d0 == EmptyDict() {
        BuiltSelfContained(config, models, clusterer, chunks, embeddings);
      }
      r := if failure.Some? then Err(failure.value) else Ok(());
    }

    /** The leaf loop of `build_tree`. */
    method LeafLoop(chunks: seq<Chunker.Chunk>, embeddings: seq<Embedding>)
      modifies this
      ensures rootNodes == old(rootNodes)
      ensures leafNodes == Leaves(chunks, embeddings)
      ensures allNodes == old(allNodes).PutAll(leafNodes)
    {
      var count := Min(|chunks|, |embeddings|);
      leafNodes := [];
      var i := 0;
      while i < count
        invariant 0 <= i <= count
        invariant leafNodes == LeavesUpTo(chunks, embeddings, i)
        invariant rootNodes == old(rootNodes)
        invariant allNodes == old(allNodes).PutAll(leafNodes)
      {
        var leaf := Node(LeafId(i), chunks[i].text, embeddings[i], [], 0, ChunkMeta(chunks[i]));
        PutAllSnoc(old(allNodes), leafNodes, leaf);
        leafNodes := leafNodes + [leaf];
        allNodes := allNodes.Put(leaf);
        i := i + 1;
      }
    }

    /**
     * The level loop of `build_tree`, from the leaves up, with `_build_level` computing `step`;
     * it returns the levels built and the exception that ended it, if any, and sets the roots
     * only when it ends without one.
     */
    method LevelLoop(ghost step: LevelBuilder) returns (ghost levels: seq<seq<Node>>, failure: Option<Error>)
      requires Defined(step) && Implements(step, config, models, clusterer)
      modifies this
      ensures leafNodes == old(leafNodes)
      ensures levels == Levels(step, config.maxDepth, leafNodes, 0)
      ensures failure == LevelsError(step, config.maxDepth, leafNodes, 0)
      ensures rootNodes == if failure.None? then RootsOf(leafNodes, levels) else old(rootNodes)
      ensures allNodes == old(allNodes).PutAll(Flatten(levels))
    {
      var current := leafNodes;
      ghost var leaves := leafNodes;
      var level: nat := 0;
      ghost var built: seq<seq<Node>> := [];
      while level < config.maxDepth && |current| > 1
        invariant leafNodes == leaves == old(leafNodes) && rootNodes == old(rootNodes)
        invariant Levels(step, config.maxDepth, leaves, 0) == built + Levels(step, config.maxDepth, current, level)
        invariant LevelsError(step, config.maxDepth, leaves, 0) == LevelsError(step, config.maxDepth, current, level)
        invariant current == RootsOf(leaves, built)
        invariant allNodes == old(allNodes).PutAll(Flatten(built))
        decreases config.maxDepth - level
      {
        var next := BuildLevel(current, level + 1, step);
        if next.Err? {
          LevelsFail(step, config.maxDepth, leaves, built, current, level);
          levels := built;
          failure := Some(next.error);
          return;
        }
        if |next.value| == 0 {
          LevelsEnd(step, config.maxDepth, leaves, built, current, level);
          break;
        }
        LevelsTurn(step, config.maxDepth, leaves, built, current, level, next.value);
        PutAllConcat(old(allNodes), Flatten(built), next.value);
        built := built + [next.value];
        current := next.value;
        level := level + 1;
      }
      LevelsEnd(step, config.maxDepth, leaves, built, current, level);
      rootNodes := current;
      levels := built;
      failure := None;
    }
  }

  /** The state a tree's JSON record captures: config, root and leaf lists, and `all_nodes`. */
  datatype TreeState = TreeState(config: TreeConfig, rootNodes: seq<Node>, leafNodes: seq<Node>, allNodes: NodeDict)

  /** One entry of the record's `all_nodes`: a node with its children replaced by their ids. */
  datatype NodeRecord = NodeRecord(
    nodeId: string,
    text: string,
    embedding: Embedding,
    childrenIds: seq<string>,
    level: nat,
    metadata: Metadata)

  /** The JSON object `save` writes; `order` is the key order of its `all_nodes` object. */
  datatype TreeRecord = TreeRecord(
    config: TreeConfig,
    rootNodeIds: seq<string>,
    leafNodeIds: seq<string>,
    allNodes: map<string, NodeRecord>,
    order: seq<string>)

  function ToRecord(n: Node): NodeRecord {
    NodeRecord(n.id, n.text, n.embedding, Ids(n.children), n.level, n.metadata)
  }

  /** The record's `all_nodes` object: one record per entry of the dict, under the same key. */
  function SaveNodes(d: NodeDict): (nodes: map<string, NodeRecord>)
    ensures nodes.Keys == d.entries.Keys
  {
    map k | k in d.entries :: ToRecord(d.entries[k])
  }

  /** `save`: config, root ids, leaf ids, and one record per entry of `all_nodes`, keeping the key order. */
  function Encode(s: TreeState): TreeRecord {
    TreeRecord(s.config, Ids(s.rootNodes), Ids(s.leafNodes), SaveNodes(s.allNodes), s.allNodes.order)
  }

  /** A JSON object's keys: listed once each, in order. */
  ghost predicate RecordWf(r: TreeRecord) {
    && (forall a, b :: 0 <= a < b < |r.order| ==> r.order[a] != r.order[b])
    && (forall k :: k in r.allNodes <==> k in r.order)
  }

  /** Every child id that is a key names a node of a lower level. */
  ghost predicate Descending(nodes: map<string, NodeRecord>) {
    forall k, c :: k in nodes && c in nodes[k].childrenIds && c in nodes ==> nodes[c].level < nodes[k].level
  }

  /** Every child id is a key. */
  ghost predicate ChildrenPresent(nodes: map<string, NodeRecord>) {
    forall k, c :: k in nodes && c in nodes[k].childrenIds ==> c in nodes
  }

  /** The position of the first id of `ids` that is not a key, if any. */
  function FirstMissing(nodes: map<string, NodeRecord>, ids: seq<string>): (r: Option<nat>)
    ensures r.None? <==> forall i :: 0 <= i < |ids| ==> ids[i] in nodes
    ensures r.Some? ==> r.value < |ids| && ids[r.value] !in nodes && forall i :: 0 <= i < r.value ==> ids[i] in nodes
  {
    if ids == [] then None
    else if ids[0] !in nodes then Some(0)
    else match FirstMissing(nodes, ids[1..])
      case None => None
      case Some(i) => Some(i + 1)
  }

  /** The first dangling child id, visiting nodes in key order and children in list order. */
  function FirstDangling(nodes: map<string, NodeRecord>, order: seq<string>): (r: Option<string>)
    requires forall k :: k in order ==> k in nodes
    ensures r.None? <==> forall k, c :: k in order && c in nodes[k].childrenIds ==> c in nodes
    ensures r.Some? ==> r.value !in nodes && exists k :: k in order && r.value in nodes[k].childrenIds
  {
    if order == [] then None
    else
      var ids := nodes[order[0]].childrenIds;
      match FirstMissing(nodes, ids)
      case Some(i) => assert ids[i] in ids; Some(ids[i])
      case None =>
        var rest := FirstDangling(nodes, order[1..]);
        assert forall k :: k in order ==> k == order[0] || k in order[1..];
        rest
  }

  /** The node an id resolves to once every `children_ids` list has been replaced by the nodes it names. */
  function Resolve(nodes: map<string, NodeRecord>, k: string): Node
    requires k in nodes && ChildrenPresent(nodes) && Descending(nodes)
    decreases nodes[k].level
  {
    var r := nodes[k];
    Node(r.nodeId, r.text, r.embedding,
         seq(|r.childrenIds|, i requires 0 <= i < |r.childrenIds| => Resolve(nodes, r.childrenIds[i])),
         r.level, r.metadata)
  }

  function ResolveAll(nodes: map<string, NodeRecord>, ids: seq<string>): (ns: seq<Node>)
    requires forall i :: 0 <= i < |ids| ==> ids[i] in nodes
    requires ChildrenPresent(nodes) && Descending(nodes)
    ensures |ns| == |ids| && forall i :: 0 <= i < |ids| ==> ns[i] == Resolve(nodes, ids[i])
  {
    seq(|ids|, i requires 0 <= i < |ids| => Resolve(nodes, ids[i]))
  }

  /**
   * `load` from the JSON record: a child id that is not a key raises KeyError (the first one in
   * key order, then child order), then a missing root id, then a missing leaf id; otherwise every
   * key maps to its node with the children it names, and the root and leaf lists are looked up
   * by id, in order.
   */
  function Load(rec: TreeRecord): (r: Result<TreeState, Error>)
    requires RecordWf(rec) && Descending(rec.allNodes)
    ensures r.Ok? <==> && ChildrenPresent(rec.allNodes)
                       && (forall i :: 0 <= i < |rec.rootNodeIds| ==> rec.rootNodeIds[i] in rec.allNodes)
                       && (forall i :: 0 <= i < |rec.leafNodeIds| ==> rec.leafNodeIds[i] in rec.allNodes)
    ensures r.Err? ==> r.error.KeyError?
    ensures r.Ok? ==>
              && r.value.config == rec.config
              && r.value.allNodes.order == rec.order
              && r.value.allNodes.entries.Keys == rec.allNodes.Keys
              && r.value.allNodes.entries == (map k | k in rec.allNodes :: Resolve(rec.allNodes, k))
              && r.value.rootNodes == ResolveAll(rec.allNodes, rec.rootNodeIds)
              && r.value.leafNodes == ResolveAll(rec.allNodes, rec.leafNodeIds)
  {
    var nodes := rec.allNodes;
    match FirstDangling(nodes, rec.order)
    case Some(c) => Err(KeyError(c))
    case None =>
      match FirstMissing(nodes, rec.rootNodeIds)
      case Some(i) => Err(KeyError(rec.rootNodeIds[i]))
      case None =>
        match FirstMissing(nodes, rec.leafNodeIds)
        case Some(i) => Err(KeyError(rec.leafNodeIds[i]))
        case None =>
          Ok(TreeState(
            rec.config,
            ResolveAll(nodes, rec.rootNodeIds),
            ResolveAll(nodes, rec.leafNodeIds),
            NodeDict(map k | k in nodes :: Resolve(nodes, k), rec.order)))
  }

  /**
   * A dict every node of which is stored under its own id, and whose nodes' children are the
   * very nodes stored under the children's ids, one level lower: what save and load preserve.
   */
  ghost predicate SelfContained(d: NodeDict) {
    forall k :: k in d.entries ==>
      && d.entries[k].id == k
      && forall c :: c in d.entries[k].children ==>
           c.id in d.entries && d.entries[c.id] == c && c.level < d.entries[k].level
  }

  /** In a saved self-contained dict every child id is a key, of a node one level lower or more. */
  lemma SaveNodesLinked(d: NodeDict)
    requires SelfContained(d)
    ensures ChildrenPresent(SaveNodes(d)) && Descending(SaveNodes(d))
  {
    var nodes := SaveNodes(d);
    forall k, c | k in nodes && c in nodes[k].childrenIds
      ensures c in nodes && nodes[c].level < nodes[k].level
    {
      var kids := d.entries[k].children;
      var i :| 0 <= i < |kids| && Ids(kids)[i] == c;
      assert kids[i] in kids;
    }
  }

  /** Resolving a saved key rebuilds the very node that was saved. */
  lemma {:induction false} ResolveSaved(d: NodeDict, k: string)
    requires SelfContained(d) && k in d.entries
    requires ChildrenPresent(SaveNodes(d)) && Descending(SaveNodes(d))
    ensures Resolve(SaveNodes(d), k) == d.entries[k]
    decreases d.entries[k].level
  {
    var nodes := SaveNodes(d);
    var kids := d.entries[k].children;
    forall i | 0 <= i < |kids| ensures Resolve(nodes, Ids(kids)[i]) == kids[i] {
      assert kids[i] in kids;
      ResolveSaved(d, kids[i].id);
    }
  }

  /** Loading the saved `all_nodes` object gives back the dict's entries. */
  lemma ResolveSavedAll(d: NodeDict)
    requires SelfContained(d)
    ensures ChildrenPresent(SaveNodes(d)) && Descending(SaveNodes(d))
    ensures (map k | k in SaveNodes(d) :: Resolve(SaveNodes(d), k)) == d.entries
  {
    SaveNodesLinked(d);
    var nodes := SaveNodes(d);
    forall k | k in nodes ensures Resolve(nodes, k) == d.entries[k] {
      ResolveSaved(d, k);
    }
  }

  /** Looking up the saved ids of registered nodes gives back those nodes, in order. */
  lemma ResolveSavedIds(d: NodeDict, ns: seq<Node>)
    requires SelfContained(d) && Registered(ns, d)
    requires ChildrenPresent(SaveNodes(d)) && Descending(SaveNodes(d))
    ensures forall i :: 0 <= i < |Ids(ns)| ==> Ids(ns)[i] in SaveNodes(d)
    ensures ResolveAll(SaveNodes(d), Ids(ns)) == ns
  {
    forall i | 0 <= i < |ns| ensures ns[i].id in d.entries && Resolve(SaveNodes(d), ns[i].id) == ns[i] {
      assert ns[i] in ns;
      ResolveSaved(d, ns[i].id);
    }
  }

  /**
   * Saving a self-contained tree state and loading it back gives the same config, the same root
   * and leaf lists, and the same `all_nodes` (keys, key order and nodes, children included).
   */
  lemma LoadSave(s: TreeState)
    requires s.allNodes.Wf() && SelfContained(s.allNodes)
    requires Registered(s.rootNodes, s.allNodes) && Registered(s.leafNodes, s.allNodes)
    ensures RecordWf(Encode(s)) && Descending(Encode(s).allNodes)
    ensures Load(Encode(s)) == Ok(s)
  {
    var d := s.allNodes;
    var rec := Encode(s);
    var nodes := rec.allNodes;
    ResolveSavedAll(d);
    ResolveSavedIds(d, s.rootNodes);
    ResolveSavedIds(d, s.leafNodes);
    assert RecordWf(rec);
    assert FirstDangling(nodes, rec.order) == None;
    assert FirstMissing(nodes, rec.rootNodeIds) == None;
    assert FirstMissing(nodes, rec.leafNodeIds) == None;
    assert NodeDict(map k | k in nodes :: Resolve(nodes, k), rec.order) == d;
  }

  /** Every entry of the record's `all_nodes` object sits under its own `node_id`. */
  ghost predicate KeyedById(nodes: map<string, NodeRecord>) {
    forall k :: k in nodes ==> nodes[k].nodeId == k
  }

  /** Resolving ids of a record keyed by id gives nodes with those very ids. */
  lemma ResolveAllIds(nodes: map<string, NodeRecord>, ids: seq<string>)
    requires forall i :: 0 <= i < |ids| ==> ids[i] in nodes
    requires ChildrenPresent(nodes) && Descending(nodes) && KeyedById(nodes)
    ensures Ids(ResolveAll(nodes, ids)) == ids
  {
  }

  /**
   * Loading a record and saving the result gives back the record: the config, the root and leaf
   * id lists, the key order, and for every key the node's id, text, embedding, level, metadata
   * and ordered child ids. This holds for any loadable record whose entries sit under their own
   * `node_id`, including one written after a rebuild left stale nodes in `all_nodes`.
   */
  lemma EncodeLoad(rec: TreeRecord)
    requires RecordWf(rec) && Descending(rec.allNodes) && ChildrenPresent(rec.allNodes) && KeyedById(rec.allNodes)
    requires forall i :: 0 <= i < |rec.rootNodeIds| ==> rec.rootNodeIds[i] in rec.allNodes
    requires forall i :: 0 <= i < |rec.leafNodeIds| ==> rec.leafNodeIds[i] in rec.allNodes
    ensures Load(rec).Ok?
    ensures Encode(Load(rec).value) == rec
  {
    var nodes := rec.allNodes;
    var s := Load(rec).value;
    ResolveAllIds(nodes, rec.rootNodeIds);
    ResolveAllIds(nodes, rec.leafNodeIds);
    forall k | k in nodes ensures ToRecord(s.allNodes.entries[k]) == nodes[k] {
      ResolveAllIds(nodes, nodes[k].childrenIds);
      assert Resolve(nodes, k).children == ResolveAll(nodes, nodes[k].childrenIds);
    }
    assert SaveNodes(s.allNodes) == nodes;
  }

  /** No id of level `from` or above is a key of `d`. */
  ghost predicate FreshFrom(d: NodeDict, from: nat) {
    forall l: nat, t: nat :: l >= from ==> LevelId(l, t) !in d.entries
  }

  /** Children that are registered one level down or more, under a fresh id, keep a dict self-contained. */
  lemma PutFreshSelfContained(d: NodeDict, n: Node)
    requires SelfContained(d) && n.id !in d.entries
    requires forall c :: c in n.children ==> c.id in d.entries && d.entries[c.id] == c && c.level < n.level
    ensures SelfContained(d.Put(n))
  {
  }

  /**
   * Putting nodes named after their positions in level `level` into a dict with no key of that
   * level or above overwrites nothing and adds only their ids.
   */
  lemma {:induction false} PutAllFreshKeys(d: NodeDict, ns: seq<Node>, level: nat)
    requires FreshFrom(d, level) && Named(ns, level)
    ensures forall k :: k in d.entries ==> k in d.PutAll(ns).entries && d.PutAll(ns).entries[k] == d.entries[k]
    ensures forall k :: k in d.PutAll(ns).entries ==> k in d.entries || k in Ids(ns)
    decreases |ns|
  {
    if ns != [] {
      var init := ns[..|ns| - 1];
      var last := ns[|ns| - 1];
      NamedPrefix(ns, level, |ns| - 1);
      PutAllFreshKeys(d, init, level);
      assert d.PutAll(ns) == d.PutAll(init).Put(last);
      assert last.id == LevelId(level, |ns| - 1) && last.id !in d.entries;
      assert Ids(ns) == Ids(init) + [last.id];
    }
  }

  /**
   * Putting the nodes of level `level`, named after their positions, whose children are
   * registered below them, into a self-contained dict with no key of that level or above keeps
   * it self-contained.
   */
  lemma {:induction false} PutAllFresh(d: NodeDict, ns: seq<Node>, level: nat)
    requires SelfContained(d) && FreshFrom(d, level) && Named(ns, level)
    requires forall n :: n in ns ==>
               n.level == level && forall c :: c in n.children ==> c.id in d.entries && d.entries[c.id] == c && c.level < level
    ensures SelfContained(d.PutAll(ns))
    decreases |ns|
  {
    if ns != [] {
      var init := ns[..|ns| - 1];
      var last := ns[|ns| - 1];
      NamedPrefix(ns, level, |ns| - 1);
      assert forall n :: n in init ==> n in ns;
      PutAllFresh(d, init, level);
      PutAllFreshKeys(d, init, level);
      var d1 := d.PutAll(init);
      assert d.PutAll(ns) == d1.Put(last);
      assert last.id == LevelId(level, |ns| - 1) && last.id !in d.entries;
      forall t | 0 <= t < |init| ensures Ids(init)[t] != last.id {
        LevelIdInjective(level, t, level, |ns| - 1);
      }
      assert last.id !in d1.entries;
      assert last in ns;
      PutFreshSelfContained(d1, last);
    }
  }

  /** After putting fresh nodes of level `level`, no id of a higher level is a key. */
  lemma PutAllFreshFrom(d: NodeDict, ns: seq<Node>, level: nat)
    requires FreshFrom(d, level) && Named(ns, level)
    requires forall k :: k in d.PutAll(ns).entries ==> k in d.entries || k in Ids(ns)
    ensures FreshFrom(d.PutAll(ns), level + 1)
  {
    forall l: nat, t: nat | l >= level + 1 ensures LevelId(l, t) !in d.PutAll(ns).entries {
      forall u | 0 <= u < |ns| ensures Ids(ns)[u] != LevelId(l, t) {
        LevelIdInjective(level, u, l, t);
      }
    }
  }

  /**
   * Putting the levels built above `current` (the top level so far, registered in `d`) into a
   * self-contained dict with no key above that level keeps it self-contained.
   */
  lemma {:induction false} LevelsSelfContained(step: LevelBuilder, min: nat, maxDepth: int, current: seq<Node>, level: nat, d: NodeDict)
    requires Defined(step) && BuilderOk(step, min)
    requires SelfContained(d) && FreshFrom(d, level + 1) && Registered(current, d)
    requires forall n :: n in current ==> n.level == level
    ensures SelfContained(d.PutAll(Flatten(Levels(step, maxDepth, current, level))))
    decreases maxDepth - level
  {
    var ls := Levels(step, maxDepth, current, level);
    if level < maxDepth && |current| > 1 && step(current, level + 1).Ok? {
      var next := step(current, level + 1).value;
      if next != [] {
        forall n | n in next
          ensures n.level == level + 1 && forall c :: c in n.children ==> c.id in d.entries && d.entries[c.id] == c && c.level < level + 1
        {
          assert ParentOf(n, current, level + 1, min);
        }
        PutAllFresh(d, next, level + 1);
        PutAllFreshKeys(d, next, level + 1);
        PutAllFreshFrom(d, next, level + 1);
        PutAllNamed(d, next, level + 1);
        var d1 := d.PutAll(next);
        var rest := Levels(step, maxDepth, next, level + 1);
        LevelsSelfContained(step, min, maxDepth, next, level + 1, d1);
        assert ls == [next] + rest;
        FlattenCons(next, rest);
        PutAllConcat(d, next, Flatten(rest));
        return;
      }
    }
    assert ls == [];
  }

  /**
   * Building into an empty `all_nodes` gives a self-contained dict: every node sits under its
   * own id, and every child is the node stored under the child's id, one level lower.
   */
  lemma BuiltSelfContained(cfg: TreeConfig, models: Models, f: Clusterer, chunks: seq<Chunker.Chunk>, embeddings: seq<Embedding>)
    requires ClustererOk(f, cfg.minClusterSize)
    ensures var leaves := Leaves(chunks, embeddings);
            SelfContained(EmptyDict().PutAll(leaves + Flatten(TreeLevels(cfg, models, f, leaves))))
  {
    var leaves := Leaves(chunks, embeddings);
    var d0 := EmptyDict().PutAll(leaves);
    LeavesSpec(chunks, embeddings);
    PutAllFresh(EmptyDict(), leaves, 0);
    PutAllFreshKeys(EmptyDict(), leaves, 0);
    PutAllFreshFrom(EmptyDict(), leaves, 0);
    PutAllNamed(EmptyDict(), leaves, 0);
    BuilderOfOk(cfg, models, f);
    LevelsSelfContained(BuilderOf(cfg, models, f), cfg.minClusterSize, cfg.maxDepth, leaves, 0, d0);
    PutAllConcat(EmptyDict(), leaves, Flatten(TreeLevels(cfg, models, f, leaves)));
  }

  /**
   * A tree built into an empty `all_nodes` survives save and load: loading its JSON record gives
   * back the config, the roots the build sets, the leaves and `all_nodes`, children included.
   */
  lemma BuiltLoadSave(cfg: TreeConfig, models: Models, f: Clusterer, chunks: seq<Chunker.Chunk>, embeddings: seq<Embedding>)
    requires ClustererOk(f, cfg.minClusterSize)
    ensures var leaves := Leaves(chunks, embeddings);
            var ls := TreeLevels(cfg, models, f, leaves);
            var s := TreeState(cfg, RootsOf(leaves, ls), leaves, EmptyDict().PutAll(leaves + Flatten(ls)));
            && RecordWf(Encode(s)) && Descending(Encode(s).allNodes)
            && Load(Encode(s)) == Ok(s)
  {
    var leaves := Leaves(chunks, embeddings);
    LeavesSpec(chunks, embeddings);
    BuiltSelfContained(cfg, models, f, chunks, embeddings);
    BuiltRegistered(cfg, models, f, EmptyDict(), leaves);
    var ls := TreeLevels(cfg, models, f, leaves);
    LoadSave(TreeState(cfg, RootsOf(leaves, ls), leaves, EmptyDict().PutAll(leaves + Flatten(ls))));
  }

  /** A record with a child id that is not a key fails to load with KeyError naming that id. */
  lemma LoadDangling(rec: TreeRecord, k: string, c: string)
    requires RecordWf(rec) && Descending(rec.allNodes)
    requires k in rec.allNodes && c in rec.allNodes[k].childrenIds && c !in rec.allNodes
    ensures Load(rec).Err? && Load(rec).error.KeyError?
  {
  }
}
