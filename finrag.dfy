/**
 * The `FinRAG` facade: adding documents (chunk, embed in batches, build the tree), querying
 * with the configured defaults, and the tree statistics.
 */
module FinRag {
  import opened Wrappers
  import opened Basics
  import opened Text
  import opened Clustering
  import opened Chunker
  import opened Tree
  import opened Retrieval

  /** The parts of `FinRAGConfig` the facade reads. */
  datatype FinRagConfig = FinRagConfig(
    chunking: ChunkerConfig,
    tree: TreeConfig,
    topK: nat,
    traversalMethod: string)

  /** The defaults of `FinRAGConfig` when no environment variable overrides them. */
  function DefaultFinRagConfig(): FinRagConfig {
    FinRagConfig(ChunkerConfig(512, 50), TreeConfig(3, 100, 5, 10, 200), 10, "tree_traversal")
  }

  // ---------------------------------------------------------------------------------------------
  // `get_statistics`.

  /** The level of each node, in order. */
  function LevelsOf(nodes: seq<Node>): (ls: seq<nat>)
    ensures |ls| == |nodes| && forall i :: 0 <= i < |nodes| ==> ls[i] == nodes[i].level
  {
    seq(|nodes|, i requires 0 <= i < |nodes| => nodes[i].level)
  }

  /** `m.get(l, 0)`. */
  function Get0(m: map<nat, nat>, l: nat): nat {
    if l in m then m[l] else 0
  }

  /** The `levels` dict after counting `ls` one by one with `levels.get(level, 0) + 1`. */
  function Tally(ls: seq<nat>): map<nat, nat>
    decreases |ls|
  {
    if ls == [] then map[]
    else
      var m := Tally(ls[..|ls| - 1]);
      var l := ls[|ls| - 1];
      m[l := Get0(m, l) + 1]
  }

  /** The keys of `Tally(ls)` in dict order: each level where it first occurs. */
  function FirstSeen(ls: seq<nat>): seq<nat>
    decreases |ls|
  {
    if ls == [] then []
    else
      var ks := FirstSeen(ls[..|ls| - 1]);
      if ls[|ls| - 1] in ks then ks else ks + [ls[|ls| - 1]]
  }

  /** `sum(m[k] for k in ks)`. */
  function SumCounts(m: map<nat, nat>, ks: seq<nat>): nat
    requires forall i :: 0 <= i < |ks| ==> ks[i] in m
    decreases |ks|
  {
    if ks == [] then 0 else SumCounts(m, ks[..|ks| - 1]) + m[ks[|ks| - 1]]
  }

  /** One more level counted: its count goes up by one, and a level not seen before joins the keys. */
  lemma TallyStep(ls: seq<nat>, i: nat)
    requires i < |ls|
    ensures var l, m, ks := ls[i], Tally(ls[..i]), FirstSeen(ls[..i]);
            && Tally(ls[..i + 1]) == m[l := Get0(m, l) + 1]
            && FirstSeen(ls[..i + 1]) == if l in m then ks else ks + [l]
  {
    assert ls[..i + 1][..i] == ls[..i];
    TallySpec(ls[..i]);
  }

  /** `max(ks)`, 0 for no keys. */
  function SeqMax(ks: seq<nat>): (r: nat)
    ensures forall i :: 0 <= i < |ks| ==> ks[i] <= r
    ensures ks != [] ==> r in ks
    decreases |ks|
  {
    if ks == [] then 0 else Max(SeqMax(ks[..|ks| - 1]), ks[|ks| - 1])
  }

  /**
   * Counting levels: a level is a key exactly when some node has it, its count is the number
   * of nodes at that level, and the dict order lists every key once.
   */
  lemma {:induction false} TallySpec(ls: seq<nat>)
    ensures forall l :: l in Tally(ls) <==> l in ls
    ensures forall l :: l in Tally(ls) ==> Tally(ls)[l] == multiset(ls)[l]
    ensures Distinct(FirstSeen(ls))
    ensures forall l :: l in FirstSeen(ls) <==> l in ls
    decreases |ls|
  {
    if ls != [] {
      var init := ls[..|ls| - 1];
      TallySpec(init);
      assert ls == init + [ls[|ls| - 1]];
      assert multiset(ls) == multiset(init) + multiset{ls[|ls| - 1]};
    }
  }

  lemma TallyKeys(ls: seq<nat>)
    ensures forall i :: 0 <= i < |FirstSeen(ls)| ==> FirstSeen(ls)[i] in Tally(ls)
  {
    TallySpec(ls);
  }

  /** Raising one key's count raises the sum over a list holding that key once by one. */
  lemma {:induction false} SumCountsBump(m: map<nat, nat>, ks: seq<nat>, l: nat)
    requires l in m && l in ks && Distinct(ks)
    requires forall i :: 0 <= i < |ks| ==> ks[i] in m
    ensures SumCounts(m[l := m[l] + 1], ks) == SumCounts(m, ks) + 1
    decreases |ks|
  {
    var init := ks[..|ks| - 1];
    if ks[|ks| - 1] == l {
      SumCountsOther(m, init, l, m[l] + 1);
    } else {
      SumCountsBump(m, init, l);
    }
  }

  /** Setting a key outside the list leaves the sum over the list alone. */
  lemma {:induction false} SumCountsOther(m: map<nat, nat>, ks: seq<nat>, l: nat, v: nat)
    requires l !in ks
    requires forall i :: 0 <= i < |ks| ==> ks[i] in m
    ensures SumCounts(m[l := v], ks) == SumCounts(m, ks)
    decreases |ks|
  {
    if ks != [] {
      SumCountsOther(m, ks[..|ks| - 1], l, v);
    }
  }

  /** The level counts add up to the number of nodes. */
  lemma {:induction false} TallySum(ls: seq<nat>)
    ensures forall i :: 0 <= i < |FirstSeen(ls)| ==> FirstSeen(ls)[i] in Tally(ls)
    ensures SumCounts(Tally(ls), FirstSeen(ls)) == |ls|
    decreases |ls|
  {
    TallyKeys(ls);
    if ls != [] {
      var init := ls[..|ls| - 1];
      var l := ls[|ls| - 1];
      var m, ks := Tally(init), FirstSeen(init);
      TallySum(init);
      TallySpec(init);
      if l in ks {
        SumCountsBump(m, ks, l);
      } else {
        SumCountsOther(m, ks, l, 1);
        assert (ks + [l])[..|ks|] == ks;
      }
    }
  }

  /** The counting loop of `get_statistics`: the `levels` dict, and its keys in insertion order. */
  method CountLevels(nodes: seq<Node>) returns (levels: map<nat, nat>, keys: seq<nat>)
    ensures levels == Tally(LevelsOf(nodes)) && keys == FirstSeen(LevelsOf(nodes))
  {
    ghost var ls := LevelsOf(nodes);
    levels := map[];
    keys := [];
    for i := 0 to |nodes|
      invariant levels == Tally(ls[..i]) && keys == FirstSeen(ls[..i])
    {
      var l := nodes[i].level;
      TallyStep(ls, i);
      keys := if l in levels then keys else keys + [l];
      levels := levels[l := Get0(levels, l) + 1];
    }
    assert ls[..|nodes|] == ls;
  }

  /** The `get_statistics` dict: only a message for an empty tree. */
  datatype Statistics =
    | NoDocuments(message: string)
    | TreeStatistics(totalNodes: nat, leafNodes: nat, rootNodes: nat, levels: map<nat, nat>, treeDepth: nat)

  const NoDocumentsMessage := "No documents added yet"

  /** The statistics of a tree whose `all_nodes` values are `nodes`. */
  function StatisticsOf(nodes: seq<Node>, leafCount: nat, rootCount: nat): Statistics {
    if nodes == [] then NoDocuments(NoDocumentsMessage)
    else
      var ls := LevelsOf(nodes);
      TreeStatistics(|nodes|, leafCount, rootCount, Tally(ls), SeqMax(FirstSeen(ls)))
  }

  /**
   * An empty tree yields only the message. Otherwise `levels` maps exactly the levels present to
   * their node counts, the counts (in dict order) sum to `total_nodes`, and `tree_depth` is the
   * highest level present.
   */
  lemma StatisticsSpec(nodes: seq<Node>, leafCount: nat, rootCount: nat)
    ensures var s := StatisticsOf(nodes, leafCount, rootCount);
            && (s.NoDocuments? <==> nodes == [])
            && (s.NoDocuments? ==> s.message == NoDocumentsMessage)
            && (s.TreeStatistics? ==>
                  && s.totalNodes == |nodes| && s.leafNodes == leafCount && s.rootNodes == rootCount
                  && (forall l :: l in s.levels <==> exists i :: 0 <= i < |nodes| && nodes[i].level == l)
                  && (forall l :: l in s.levels ==> s.levels[l] == multiset(LevelsOf(nodes))[l])
                  && (forall i :: 0 <= i < |FirstSeen(LevelsOf(nodes))| ==> FirstSeen(LevelsOf(nodes))[i] in s.levels)
                  && SumCounts(s.levels, FirstSeen(LevelsOf(nodes))) == s.totalNodes
                  && s.treeDepth in s.levels
                  && (forall l :: l in s.levels ==> l <= s.treeDepth))
  {
    var ls := LevelsOf(nodes);
    TallySpec(ls);
    TallySum(ls);
    forall l ensures l in Tally(ls) <==> exists i :: 0 <= i < |nodes| && nodes[i].level == l {
      if l in ls {
        var i :| 0 <= i < |ls| && ls[i] == l;
        assert nodes[i].level == l;
      }
    }
    forall l | l in Tally(ls) ensures l <= SeqMax(FirstSeen(ls)) {
      assert l in FirstSeen(ls);
    }
  }

  // ---------------------------------------------------------------------------------------------
  // `add_documents`: batches of 100 texts.

  const BatchSize: nat := 100

  /** `[s[i:i+size] for i in range(0, len(s), size)]`. */
  function Batches<T>(s: seq<T>, size: nat): seq<seq<T>>
    requires size > 0
    decreases |s|
  {
    if s == [] then [] else [s[..Min(size, |s|)]] + Batches(s[Min(size, |s|)..], size)
  }

  /**
   * The batches cover `s` in order, none is empty, none holds more than `size` items, and all but
   * the last hold exactly `size`.
   */
  lemma {:induction false} BatchesSpec<T>(s: seq<T>, size: nat)
    requires size > 0
    ensures Flatten(Batches(s, size)) == s
    ensures forall j :: 0 <= j < |Batches(s, size)| ==> 0 < |Batches(s, size)[j]| <= size
    ensures forall j :: 0 <= j < |Batches(s, size)| - 1 ==> |Batches(s, size)[j]| == size
    decreases |s|
  {
    if s != [] {
      var n := Min(size, |s|);
      var rest := Batches(s[n..], size);
      BatchesSpec(s[n..], size);
      FlattenCons(s[..n], rest);
      assert s[..n] + s[n..] == s;
      assert forall j :: 1 <= j < |Batches(s, size)| ==> Batches(s, size)[j] == rest[j - 1];
    }
  }

  /** The texts of the chunks, in order. */
  function ChunkTexts(chunks: seq<Chunk>): (ts: seq<string>)
    ensures |ts| == |chunks| && forall i :: 0 <= i < |chunks| ==> ts[i] == chunks[i].text
  {
    seq(|chunks|, i requires 0 <= i < |chunks| => chunks[i].text)
  }

  /** One `create_embeddings` call per batch. */
  function EmbedAll(embedBatch: seq<string> -> seq<Embedding>, batches: seq<seq<string>>): (es: seq<seq<Embedding>>)
    ensures |es| == |batches| && forall j :: 0 <= j < |batches| ==> es[j] == embedBatch(batches[j])
  {
    seq(|batches|, j requires 0 <= j < |batches| => embedBatch(batches[j]))
  }

  /** The chunks of every document, one document after another. */
  function DocChunks(cfg: ChunkerConfig, tok: Tokenizer, docs: seq<string>): seq<Chunk>
    requires docs == [] || cfg.chunkSize >= 1
    decreases |docs|
  {
    if docs == [] then [] else DocChunks(cfg, tok, docs[..|docs| - 1]) + Chunks(cfg, tok, tok.encode(docs[|docs| - 1]))
  }

  /** One turn of the batch loop moves the batch at `i` from the batches to go to those done. */
  lemma BatchesAdvance<T>(all: seq<seq<T>>, done: seq<seq<T>>, s: seq<T>, i: nat)
    requires i < |s| && all == done + Batches(s[i..], BatchSize)
    ensures var end := Min(i + BatchSize, |s|);
            all == (done + [s[i..end]]) + Batches(s[Min(end, |s|)..], BatchSize)
  {
    var end := Min(i + BatchSize, |s|);
    assert s[i..][..Min(BatchSize, |s| - i)] == s[i..end];
    assert s[i..][Min(BatchSize, |s| - i)..] == s[end..];
  }

  /** The chunking loop of `add_documents`: the first document whose chunking raises stops it. */
  method ChunkDocuments(cfg: ChunkerConfig, tok: Tokenizer, documents: seq<string>) returns (r: Result<seq<Chunk>, Error>)
    ensures r.Err? <==> documents != [] && cfg.chunkOverlap >= cfg.chunkSize
    ensures r.Err? ==> r.error == ValueError(OverlapMessage(cfg))
    ensures r.Ok? ==> r.value == DocChunks(cfg, tok, documents)
  {
    var allChunks: seq<Chunk> := [];
    for d := 0 to |documents|
      invariant d > 0 ==> cfg.chunkOverlap < cfg.chunkSize
      invariant d == 0 ==> allChunks == []
      invariant d > 0 ==> allChunks == DocChunks(cfg, tok, documents[..d])
    {
      var chunks := ChunkText(cfg, tok, documents[d]);
      if chunks.Err? {
        return Err(chunks.error);
      }
      assert documents[..d + 1][..d] == documents[..d];
      allChunks := allChunks + chunks.value;
    }
    if documents != [] {
      assert documents[..|documents|] == documents;
    }
    r := Ok(allChunks);
  }

  // ---------------------------------------------------------------------------------------------
  // `query`.

  /** One entry of `retrieved_nodes`. */
  datatype NodeInfo = NodeInfo(nodeId: string, level: nat, score: real, textPreview: string)

  /** The dict `query` returns: the QA model's answer, context and question, plus the retrieval facts. */
  datatype QueryResult = QueryResult(
    answer: string,
    context: string,
    question: string,
    retrievedNodes: seq<NodeInfo>,
    retrievalMethod: string)

  /** `text[:200] + "..."` for a text longer than 200 characters, the text itself otherwise. */
  function Preview(text: string): string {
    if |text| > 200 then text[..200] + "..." else text
  }

  /** A preview is the whole text up to 200 characters; a longer text keeps its first 200 and gains "...". */
  lemma PreviewSpec(text: string)
    ensures |Preview(text)| == if |text| <= 200 then |text| else 203
    ensures |text| <= 200 ==> Preview(text) == text
    ensures |text| > 200 ==> Preview(text)[..200] == text[..200] && Preview(text)[200..] == "..."
  {
  }

  function NodeInfos(pairs: seq<Scored>): (infos: seq<NodeInfo>)
    ensures |infos| == |pairs|
    ensures forall i :: 0 <= i < |pairs| ==>
              infos[i] == NodeInfo(pairs[i].node.id, pairs[i].node.level, pairs[i].score, Preview(pairs[i].node.text))
  {
    seq(|pairs|, i requires 0 <= i < |pairs| => NodeInfo(pairs[i].node.id, pairs[i].node.level, pairs[i].score, Preview(pairs[i].node.text)))
  }

  /** What `np.vstack` raises on an empty list of batches. */
  const NoArraysMessage := "need at least one array to concatenate"

  const NoRetrieverMessage := "No documents added. Call add_documents() first."

  /**
   * The pairs a known strategy retrieves from a tree with these roots and `all_nodes` values,
   * or the exception the collapsed strategy raises on an empty `all_nodes`.
   */
  function Strategy(r: Retriever, roots: seq<Node>, all: seq<Node>, question: string, name: string, k: nat)
    : Result<seq<Scored>, Error>
  {
    if name == "tree_traversal" then Ok(TreeTraversal(r, roots, question, k)) else CollapsedTree(r, all, question, k)
  }

  /**
   * `FinRAG`: the configuration, the models, the tree and, once documents are added, the
   * retriever over it.
   */
  class FinRagSystem {
    const config: FinRagConfig
    const models: Models
    const tokenizer: Tokenizer
    const similarity: (Embedding, Embedding) -> real
    const qa: (string, string) -> string
    const formatScore: real -> string
    const tree: RaptorTree
    var retriever: Option<Retriever>

    ghost predicate Valid()
      reads this, tree
    {
      && tree.Valid()
      && tree.models == models
      && tree.config == config.tree
    }

    /**
     * `FinRAG(config)`: the given config or, without one, the defaults; the tree built on the
     * configured parameters, and no retriever yet.
     */
    constructor(config: Option<FinRagConfig>, models: Models, numerics: Numerics, tokenizer: Tokenizer,
                similarity: (Embedding, Embedding) -> real, qa: (string, string) -> string,
                formatScore: real -> string)
      requires WellShaped(numerics)
      ensures Valid()
      ensures this.config == (if config.Some? then config.value else DefaultFinRagConfig())
      ensures this.models == models && retriever == None
      ensures tree.clusterer == ClustererFor(this.config.tree, numerics)
      ensures tree.rootNodes == [] && tree.leafNodes == [] && tree.allNodes == EmptyDict()
    {
      var cfg := if config.Some? then config.value else DefaultFinRagConfig();
      this.config := cfg;
      this.models := models;
      this.tokenizer := tokenizer;
      this.similarity := similarity;
      this.qa := qa;
      this.formatScore := formatScore;
      this.tree := new RaptorTree(models, numerics, Some(cfg.tree));
      retriever := None;
    }

    /** The embeddings of the chunks' texts, `create_embeddings` called on one batch of 100 at a time. */
    method EmbedChunks(chunks: seq<Chunk>) returns (embeddings: seq<Embedding>)
      ensures embeddings == Flatten(EmbedAll(models.embedBatch, Batches(ChunkTexts(chunks), BatchSize)))
    {
      ghost var texts := ChunkTexts(chunks);
      ghost var all := Batches(texts, BatchSize);
      ghost var done: seq<seq<string>> := [];
      var embeddingsList: seq<seq<Embedding>> := [];
      var i := 0;
      while i < |chunks|
        invariant all == done + Batches(texts[Min(i, |texts|)..], BatchSize)
        invariant embeddingsList == EmbedAll(models.embedBatch, done)
        decreases |chunks| - i
      {
        var end := Min(i + BatchSize, |chunks|);
        var batchTexts := ChunkTexts(chunks[i..end]);
        assert batchTexts == texts[i..end];
        BatchesAdvance(all, done, texts, i);
        var batchEmbeddings := models.embedBatch(batchTexts);
        done := done + [batchTexts];
        embeddingsList := embeddingsList + [batchEmbeddings];
        i := i + BatchSize;
      }
      assert done == all;
      embeddings := Flatten(embeddingsList);
    }

    /**
     * `add_documents`: chunks every document, embeds the chunks in batches, builds the tree and
     * sets up the retriever. An overlap at least the chunk size makes the first document's
     * chunking raise, and no chunks at all make the stacking of the (empty) list of embedding
     * batches raise, both before anything changes. An exception from the build leaves the
     * retriever as it was and the tree as `BuildTree` leaves it.
     */
    method AddDocuments(documents: seq<string>) returns (r: Result<(), Error>)
      requires Valid()
      modifies this, tree
      ensures Valid()
      ensures documents != [] && config.chunking.chunkOverlap >= config.chunking.chunkSize ==>
                && r == Err(ValueError(OverlapMessage(config.chunking)))
                && retriever == old(retriever) && tree.State() == old(tree.State())
      ensures !(documents != [] && config.chunking.chunkOverlap >= config.chunking.chunkSize) ==>
                var chunks := DocChunks(config.chunking, tokenizer, documents);
                && (chunks == [] ==>
                      && r == Err(ValueError(NoArraysMessage))
                      && retriever == old(retriever) && tree.State() == old(tree.State()))
                && (chunks != [] ==>
                      var embeddings := Flatten(EmbedAll(models.embedBatch, Batches(ChunkTexts(chunks), BatchSize)));
                      var leaves := Leaves(chunks, embeddings);
                      var levels := TreeLevels(tree.config, models, tree.clusterer, leaves);
                      var failure := TreeError(tree.config, models, tree.clusterer, leaves);
                      && r == (if failure.Some? then Err(failure.value) else Ok(()))
                      && tree.leafNodes == leaves
                      && tree.rootNodes == (if failure.None? then RootsOf(leaves, levels) else old(tree.rootNodes))
                      && tree.allNodes == old(tree.allNodes).PutAll(leaves + Flatten(levels))
                      && retriever == (if failure.None? then Some(Retriever(models.embed, similarity, config.topK)) else old(retriever)))
    {
      var allChunks :- ChunkDocuments(config.chunking, tokenizer, documents);
      if allChunks == [] {
        return Err(ValueError(NoArraysMessage));
      }
      var embeddings := EmbedChunks(allChunks);
      var built := tree.BuildTree(allChunks, embeddings);
      if built.Err? {
        return Err(built.error);
      }
      retriever := Some(Retriever(models.embed, similarity, config.topK));
      r := Ok(());
    }

    /**
     * `query`: raises RuntimeError before documents are added; a missing method or k takes the
     * configured one; the context (children included) goes to the QA model, and the same
     * retrieval is reported node by node.
     */
    method Query(question: string, retrievalMethod: Option<string>, topK: Option<nat>)
      returns (r: Result<QueryResult, Error>)
      requires Valid()
      ensures retriever.None? ==> r == Err(RuntimeError(NoRetrieverMessage))
      ensures retriever.Some? ==>
                var name := if retrievalMethod.Some? then retrievalMethod.value else config.traversalMethod;
                var k := if topK.Some? then topK.value else config.topK;
                && (r.Err? <==> !KnownMethod(name) || (name == "collapsed_tree" && tree.allNodes.order == []))
                && (!KnownMethod(name) ==> r == Err(UnknownMethod(name)))
                && (KnownMethod(name) ==>
                      var pairs := Strategy(retriever.value, tree.rootNodes, tree.allNodes.Values(), question, name, k);
                      && (pairs.Err? ==> r == Err(pairs.error))
                      && (pairs.Ok? ==>
                            var context := Join("\n", ContextLines(pairs.value, true, formatScore));
                            r == Ok(QueryResult(qa(context, question), context, question, NodeInfos(pairs.value), name))))
    {
      if retriever.None? {
        return Err(RuntimeError(NoRetrieverMessage));
      }
      var name := if retrievalMethod.Some? then retrievalMethod.value else config.traversalMethod;
      var k := if topK.Some? then topK.value else config.topK;
      var context := RetrieveWithContext(retriever.value, tree, question, name, Some(k), true, formatScore);
      if context.Err? {
        return Err(context.error);
      }
      var answer := qa(context.value, question);
      var retrieved := Retrieve(retriever.value, tree, question, name, Some(k));
      r := Ok(QueryResult(answer, context.value, question, NodeInfos(retrieved.value), name));
    }

    /** `get_statistics`: the level-counting loop over `all_nodes`, then the summary dict. */
    method GetStatistics() returns (s: Statistics)
      requires Valid()
      ensures s == StatisticsOf(tree.allNodes.Values(), |tree.leafNodes|, |tree.rootNodes|)
    {
      var nodes := tree.allNodes.Values();
      if nodes == [] {
        return NoDocuments(NoDocumentsMessage);
      }
      var levels, keys := CountLevels(nodes);
      s := TreeStatistics(|nodes|, |tree.leafNodes|, |tree.rootNodes|, levels, SeqMax(keys));
    }
  }
}
