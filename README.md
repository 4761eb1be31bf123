# FinRAG core in Dafny

A model of the core of FinRAG, a retrieval-augmented question-answering system for financial
reports built on a RAPTOR tree, together with the stock-scoring components that sit on top of it.

- **RAPTOR tree** (`tree.dfy`, `node_ids.dfy`).
  - Document chunks become leaves `leaf_<i>`.
  - Each level is clustered, and every cluster is summarised into a parent `level_<L>_cluster_<j>`.
  - The level loop stops at `max_depth`, on a single node, or when a level yields no parents.
  - The tree keeps its root list, its leaf list and `all_nodes`, an insertion-ordered dict from id to node.
  - Save writes a JSON record with child ids in place of children; load rebuilds the nodes from it.
- **Clustering** (`clustering.dfy`).
  - The small-input short-circuit, the UMAP parameter arithmetic and the BIC argmin.
  - Gaussian-mixture grouping by a strict probability threshold.
  - The K-means label classes.
  - The filter that drops undersized clusters.
- **Retrieval** (`retrieval.dfy`).
  - Tree traversal: the top k of each level, then down to their children; everything selected is sorted by score and cut to k.
  - The collapsed-tree scan over every node.
  - The dispatch between the two strategies, and the context text built from the result.
- **Chunker** (`chunker.dfy`): overlapping token windows, with the cursor always moving forward, and the trim back to a sentence end.
- **FinRAG facade** (`finrag.dfy`): adding documents (chunk, embed in batches of 100, build the tree), `query` with its guard and defaults, and the tree statistics.
- **Utilities** (`utils.dfy`): financial-number suffixes, greedy merging of similar chunks, text truncation.
- **Filtered parser** (`filtered_parser.dfy`).
  - The default sections.
  - The consolidation of matched page content into per-section item lists, without repeats.
  - The plain-text and Markdown renderings, and the statistics.
- **Scoring** (`quantitative_scorer.dfy`, `sentiment_analyzer.dfy`, `ensemble_scorer.dfy`).
  - The bucket tables of the quantitative scorer.
  - Multi-aspect sentiment with its clamps, means and keyword fallback.
  - The ensemble: weight validation, the YoY, risk and judge scores, the final score and its direction, the confidence, and the key drivers and risk factors.

Shared helpers sit in `wrappers.dfy` (Option, Result, the error kinds), `basics.dfy` (ranges, `Take`, `Flatten`, distinctness), `text.dfy` (strip, split/join, lower case, decimal numerals) and `numeric.dfy` (clamp, sum, mean).

Foreign numerics and models are parameters of function type, and nothing about them is assumed beyond the shape of their results:
- UMAP, the Gaussian mixture (its BIC and probability matrix) and K-means;
- cosine similarity and the embedding, summarisation and QA models;
- the tokenizer;
- the standard deviation;
- float formatting.

Where the source builds a value by a loop, the model has a `method` with that loop. Its `ensures` ties the result to a specification function, and lemmas state the properties of that function. The tree and the FinRAG facade, whose methods update fields in place, are classes.

Three behaviours of the code are modelled as written:
- Momentum in the quantitative scorer is a **sum** of contributions, not a mean, so it can exceed 100 (`QuantitativeScorer.MomentumAboveHundred`).
- In `retrieve`, a `k` of 0 makes the collapsed-tree scan return every node (`[-0:]`), while traversal then returns nothing.
- `truncate_text` with a limit shorter than its suffix keeps more than the limit (`Utils.TruncateTextShortLimit`).

The one discrepancy treated as a bug is listed under Findings. The chunker's windows use the corrected sentence trim.

## Model

| member | source | states |
|---|---|---|
| NodeIds.ParseLeafId | src/finrag/core/tree.py:65 | a leaf id `leaf_<i>` reads back as leaf i |
| NodeIds.ParseClusterId | src/finrag/core/tree.py:150 | a parent id `level_<L>_cluster_<j>` reads back as (L, j) |
| NodeIds.LeafIdInjective | src/finrag/core/tree.py:65 | two leaf ids are equal exactly when their indices are |
| NodeIds.ClusterIdInjective | src/finrag/core/tree.py:150 | two parent ids are equal exactly when level and cluster index both are |
| NodeIds.LeafIdNotClusterId | src/finrag/core/tree.py:65 | no leaf id equals a parent id |
| NodeIds.LevelIdInjective | src/finrag/core/tree.py:150 | ids of nodes at different (level, position) pairs never collide, so `all_nodes` never overwrites a node of the same build |
| Clustering.ISqrt | src/finrag/core/clustering.py:63 | the result r is the integer square root: r² ≤ m < (r+1)² |
| Clustering.GlobalReductionParams | src/finrag/core/clustering.py:59-70 | n_neighbors is the caller's value or ⌊√(n−1)⌋; n_components is min(dim, n−2), with dim defaulting to the configured reduction dimension |
| Clustering.UmapCheck | src/finrag/core/clustering.py:64-70 | UMAP accepts its parameters exactly when n_neighbors ≥ 2 and n_components ≥ 1, and raises ValueError otherwise |
| Clustering.DefaultNeighbors | src/finrag/core/clustering.py:61-62 | the default n_neighbors ⌊√(n−1)⌋ is at least two exactly from five points on |
| Clustering.LocalReductionParams | src/finrag/core/clustering.py:93-101 | n_neighbors is the caller's count; n_components is min(dim, n−2) |
| Clustering.ArgMin | src/finrag/core/clustering.py:132 | the index of a smallest value, and the first such index |
| Clustering.GetOptimalClusters | src/finrag/core/clustering.py:122-133 | fails exactly when min(max_clusters, N) < 2; otherwise returns the first candidate in 1..min(max_clusters, N)−1 with minimal BIC |
| Clustering.MembersSpec | src/finrag/core/clustering.py:157 | point i is in component c iff probs[i][c] > threshold (strict); members ascend |
| Clustering.NonEmpty | src/finrag/core/clustering.py:166 | keeps exactly the non-empty groups |
| Clustering.AddPoint | src/finrag/core/clustering.py:161-163 | appending point idx to every component whose probability exceeds the threshold extends each component's member list from the points before idx to the points up to idx |
| Clustering.DropEmpty | src/finrag/core/clustering.py:166 | the filtering comprehension keeps exactly the non-empty groups, in order |
| Clustering.DefaultParamsAccepted | src/finrag/core/clustering.py:59-70 | with the default n_neighbors and a target dimension dim, UMAP accepts the global reduction's parameters exactly when N ≥ 5 and dim ≥ 1 |
| Clustering.GroupByThreshold | src/finrag/core/clustering.py:157-166 | the nested append loops build exactly the per-component member lists, with empty ones dropped |
| Clustering.GmmClustering | src/finrag/core/clustering.py:152-168 | picks the component count by BIC, then groups the points by the probability threshold |
| Clustering.GmmGroupsWellFormed | src/finrag/core/clustering.py:157-166 | every Gaussian-mixture group ascends without repeats and holds only point indices |
| Clustering.LabelClassSpec | src/finrag/core/clustering.py:201 | point i is in class c iff its label is c; the class ascends |
| Clustering.KMeansPartition | src/finrag/core/clustering.py:197-201 | with labels in 0..k−1, each point lies in exactly its own label's class |
| Clustering.KMeansClassesWellFormed | src/finrag/core/clustering.py:201 | every K-means class ascends and holds only point indices |
| Clustering.SizeFilter | src/finrag/core/clustering.py:206-209 | keeps exactly the clusters with at least min_cluster_size members |
| Clustering.SmallInputOneCluster | src/finrag/core/clustering.py:187-189 | at or below the minimum size the result is one cluster 0..N−1, in order |
| Clustering.PerformClusteringClusters | src/finrag/core/clustering.py:187-211 | above the minimum size every cluster returned has at least min_cluster_size members, all valid indices, ascending |
| Clustering.UnknownAlgorithmRaises | src/finrag/core/clustering.py:192-203 | any algorithm name other than the two known ones raises ValueError naming it, once UMAP has accepted its parameters; UMAP's own error before that |
| Clustering.GaussianMixtureSucceeds | src/finrag/core/clustering.py:187-196 | under the default algorithm, clustering raises exactly when there are more points than the minimum size and fewer than five, or the target dimension is below one, and the error is UMAP's |
| Clustering.KMeansBranch | src/finrag/core/clustering.py:192-201 | K-means asks for min(N div min_cluster_size, 10) clusters, between 1 and 10; UMAP's parameter error comes first; otherwise the result is the size-filtered classes, which partition the points before the filter |
| Chunker.WindowsShape | src/finrag/models/models.py:163-188 | the first window opens at 0; every window is non-empty and ends at min(start+size, n); the cursor strictly increases and never passes the previous end; the last window ends at n |
| Chunker.WindowsCover | src/finrag/models/models.py:163-188 | every token lies in some window |
| Chunker.SentenceEndAtIff | src/finrag/models/models.py:175 | the test at an offset succeeds iff the window's last non-space character is `.`, `!` or `?` and the offset reaches past the trailing whitespace; a newline never matches |
| Chunker.FirstSentenceEndIs | src/finrag/models/models.py:174-177 | the offset loop stops at the trailing-whitespace length, or finds nothing |
| Chunker.TrimAsWrittenEmptiesSentence | src/finrag/models/models.py:176 | the cut as written empties every window that ends with a sentence mark, although the window has text |
| Chunker.TrimAsWrittenExample | src/finrag/models/models.py:176 | the window "Revenue grew." is cut to the empty string |
| Chunker.TrimToSentence | src/finrag/models/models.py:172-177 | the corrected trim returns a prefix of the window |
| Chunker.TrimToSentenceKeepsText | src/finrag/models/models.py:172-180 | the corrected trim keeps the stripped text whole |
| Chunker.TrimWindow | src/finrag/models/models.py:174-177 | the offset loop computes the corrected trim |
| Chunker.WindowChunk | src/finrag/models/models.py:167-184 | one loop pass yields the window's chunk: decoded text, trimmed only when tokens follow, stripped, with start_token and end_token unadjusted |
| Chunker.ChunkTokens | src/finrag/models/models.py:163-192 | the window loop emits one chunk per window, in order |
| Chunker.ChunkText | src/finrag/models/models.py:153-194 | raises ValueError iff overlap ≥ size, even for empty text; otherwise one chunk per window with chunk_id 0, 1, 2, …; no tokens give no chunks |
| Tree.NodeDict.Put | src/finrag/core/tree.py:73 | assigning a key keeps the dict well formed (keys listed once, in insertion order) |
| Tree.NodeDict.Get | src/finrag/core/tree.py:255 | a node is found exactly for a key present, and it is the node stored there |
| Tree.NodeDict.Values | src/finrag/core/tree.py:247 | the values follow key insertion order |
| Tree.PutAllConcat | src/finrag/core/tree.py:73 | putting two lists is putting their concatenation |
| Tree.PutAllRegistered | src/finrag/core/tree.py:162 | putting nodes with other ids leaves registered nodes registered |
| Tree.ClustererForOk | src/finrag/core/tree.py:114-121 | the tree's clustering, above the minimum size, either raises (exactly for at most four points, with UMAP's neighbour-count error, which `_build_level` does not catch) or returns clusters of valid ascending indices with at least min_cluster_size members |
| Tree.LeavesUpToSpec | src/finrag/core/tree.py:63-72 | leaf i has id `leaf_<i>`, chunk i's text, embedding i, level 0, no children and the chunk dict as metadata |
| Tree.LeavesSpec | src/finrag/core/tree.py:62-73 | one leaf per zipped (chunk, embedding) pair, so as many leaves as the shorter list |
| Tree.ParentsUpToSpec | src/finrag/core/tree.py:131-162 | parent j has id `level_L_cluster_j` and level L; its children are nodes[i] for i in cluster j, in cluster order; its metadata is {num_children, cluster_idx}; its text is the summary of the children's texts and its embedding is that text's |
| Tree.NextLevelSpec | src/finrag/core/tree.py:114-164 | nothing at or below the minimum size; a clustering exception propagates unchanged; otherwise consecutively named parents, each with at least min_cluster_size children drawn from the level below |
| Tree.BuilderOfOk | src/finrag/core/tree.py:99-164 | the tree's `_build_level` meets the contract the level loop relies on, exceptions included |
| Tree.LevelsBound | src/finrag/core/tree.py:81-93 | the loop builds no level above max_depth |
| Tree.LevelsStop | src/finrag/core/tree.py:81-93 | the loop stops on a single node, at max_depth, on an empty level, or on an exception from `_build_level` (the one it reports), and the levels built are never empty |
| Tree.LevelsFail | src/finrag/core/tree.py:81-93 | an exception from `_build_level` ends the loop with the levels built so far and that exception |
| Tree.LevelsNoError | src/finrag/core/tree.py:81-93 | a `_build_level` that never raises makes the loop raise nothing |
| Tree.TreeNeverRaises | src/finrag/core/tree.py:114-121 | with min_cluster_size at least four (the default is five) the tree's own clustering never raises on a level it splits, so `build_tree` raises nothing |
| Tree.LevelAt | src/finrag/core/tree.py:81-93 | level t is non-empty, named after level number L = t+1, and each of its nodes has at least min_cluster_size children from the level below |
| Tree.LevelsLeveled | src/finrag/core/tree.py:149-159 | every node of built level t sits at level t+1, and every child sits one level below its parent, all the way down |
| Tree.RootLevel | src/finrag/core/tree.py:81-96 | the roots sit at level \|levels\| ≤ max_depth, and every child sits one level below its parent |
| Tree.LevelsRegistered | src/finrag/core/tree.py:150-162 | registering the built levels keeps the leaves registered and registers the roots |
| Tree.BuiltRegistered | src/finrag/core/tree.py:62-96 | after a build `all_nodes` is well formed and holds every leaf and every root under its own id |
| Tree.RaptorTree.constructor | src/finrag/core/tree.py:30-47 | a missing config means the default; clustering uses the config's parameters; roots, leaves and `all_nodes` start empty |
| Tree.RaptorTree.GetNodeById | src/finrag/core/tree.py:253-255 | the node registered under the id, or none exactly when the id is not a key |
| Tree.RaptorTree.LeafLoop | src/finrag/core/tree.py:62-73 | resets the leaf list to the leaves of the zipped pairs and registers each |
| Tree.RaptorTree.AddParents | src/finrag/core/tree.py:131-164 | makes one parent per cluster and registers each as it is made |
| Tree.RaptorTree.BuildLevel | src/finrag/core/tree.py:114-124 | returns `_build_level`'s nodes, or the clustering exception, and registers the nodes; roots and leaves are untouched |
| Tree.RaptorTree.LevelLoop | src/finrag/core/tree.py:76-96 | builds exactly the levels of the loop and returns the exception that ended it, if any; without one it sets the roots to the last level, or to the leaves, and with one it leaves the roots alone |
| Tree.RaptorTree.BuildTree | src/finrag/core/tree.py:49-97 | leaves, roots and `all_nodes` after a build: the old dict plus the leaves and every level built; it raises exactly the loop's exception, keeping the old roots then; built into an empty dict, `all_nodes` is self-contained |
| Tree.BuiltSelfContained | src/finrag/core/tree.py:62-96 | building into an empty `all_nodes` leaves every node under its own id and every child stored under the child's id, one level lower or more |
| Tree.SaveNodes | src/finrag/core/tree.py:179-188 | one record per key of `all_nodes`, under the same key |
| Tree.SaveNodesLinked | src/finrag/core/tree.py:185 | in a saved self-contained dict, every child id is a key naming a lower-level node |
| Tree.FirstDangling | src/finrag/core/tree.py:235-237 | finds a child id that is not a key, in key order, exactly when one exists |
| Tree.ResolveSavedAll | src/finrag/core/tree.py:234-239 | rebuilding children from the saved ids gives back every node of the dict |
| Tree.ResolveSavedIds | src/finrag/core/tree.py:240-241 | the saved root and leaf ids look up the same nodes, in order |
| Tree.Load | src/finrag/core/tree.py:218-241 | fails with KeyError exactly when a child, root or leaf id is not a key; otherwise keeps config and key order, resolves every key to its node with children rebuilt from their ids, and resolves the root and leaf id lists |
| Tree.LoadSave | src/finrag/core/tree.py:172-241 | loading a saved self-contained tree whose roots and leaves are registered gives back config, root list, leaf list and `all_nodes` (keys, order, nodes with their children) |
| Tree.EncodeLoad | src/finrag/core/tree.py:172-241 | saving a loaded record gives back the record, for any loadable record whose entries sit under their own node_id |
| Tree.BuiltLoadSave | src/finrag/core/tree.py:172-241 | the tree a build into an empty `all_nodes` leaves behind survives save and load unchanged |
| Tree.LoadDangling | src/finrag/core/tree.py:237 | a record with a dangling child id fails with KeyError |
| Retrieval.ResolveK | src/finrag/core/retrieval.py:43-44 | a k of None becomes the retriever's top_k |
| Retrieval.ArgSortSpec | src/finrag/core/retrieval.py:60 | argsort lists every position once, in ascending score order; ties go by position, which is this model's choice (NumPy leaves it open) |
| Retrieval.TopIndicesSpec | src/finrag/core/retrieval.py:60 | `[-k:][::-1]` keeps min(k, n) positions (all n for k = 0), in descending score, and no position left out scores higher; among equal scores the pick follows the tie order this model chose |
| Retrieval.SelectSpec | src/finrag/core/retrieval.py:56-61 | one level selects min(k, n) nodes with their own similarities, most similar first, and none left out is more similar |
| Retrieval.ChildrenOfSpec | src/finrag/core/retrieval.py:67-69 | the next frontier holds exactly the children of the selected nodes |
| Retrieval.FrontierShrinks | src/finrag/core/retrieval.py:54-71 | the next frontier stands strictly lower than the current one, so the traversal ends |
| Retrieval.SortByScoreSpec | src/finrag/core/retrieval.py:74 | the sort gives descending scores and the same pairs |
| Retrieval.SortByScoreStable | src/finrag/core/retrieval.py:74 | pairs with equal scores keep their order |
| Retrieval.SortAndCutSpec | src/finrag/core/retrieval.py:74-75 | exactly min(k, number of pairs given) pairs, descending, drawn from the input, and none dropped scores above one kept |
| Retrieval.TreeTraversalSpec | src/finrag/core/retrieval.py:54-75 | traversal returns exactly min(k, number of pairs selected) pairs, all selected on the way down, highest score first, and no selected pair left out scores higher |
| Retrieval.ExpandChildren | src/finrag/core/retrieval.py:67-69 | the loop appends exactly the selected nodes' children |
| Retrieval.TreeTraversalRetrieval | src/finrag/core/retrieval.py:27-75 | the level loop computes the traversal for the resolved k |
| Retrieval.CollapsedTree | src/finrag/core/retrieval.py:93-110 | an empty `all_nodes` raises ValueError (cosine similarity of an empty matrix); otherwise min(k, n) nodes (all for k = 0) with their own similarities, most similar first, and none left out is more similar |
| Retrieval.Retrieve | src/finrag/core/retrieval.py:129-134 | the two known names run their strategy; it raises exactly for an unknown name (ValueError naming it) or a collapsed scan of an empty `all_nodes` |
| Retrieval.ChildLinesSpec | src/finrag/core/retrieval.py:164-166 | each shown child gives a sub-header line and its text indented by two spaces |
| Retrieval.DocBlockSpec | src/finrag/core/retrieval.py:158-168 | a document is its header, its text, the lines of at most 3 children (only when children are asked for and exist), then an empty line |
| Retrieval.BlockAt | src/finrag/core/retrieval.py:157-168 | document i's lines sit in the context lines in order, after those of the documents before it |
| Retrieval.ContextLinesLength | src/finrag/core/retrieval.py:157-168 | the context has three lines per document plus two per child shown |
| Retrieval.DocParts | src/finrag/core/retrieval.py:158-168 | one pass of the loop appends one document's block |
| Retrieval.ContextParts | src/finrag/core/retrieval.py:157-168 | the loops build every document's block, in order |
| Retrieval.RetrieveWithContext | src/finrag/core/retrieval.py:155-170 | the strategy's pairs rendered as blocks joined by newlines; it raises exactly when `retrieve` does, with the same exception |
| FinRag.TallySpec | src/finrag/finrag.py:282-284 | a level is a key exactly when some node has it; its count is that level's number of nodes; keys appear once |
| FinRag.TallySum | src/finrag/finrag.py:282-287 | the level counts add up to the number of nodes |
| FinRag.CountLevels | src/finrag/finrag.py:282-284 | the counting loop builds the level counts and their key order |
| FinRag.StatisticsSpec | src/finrag/finrag.py:279-292 | an empty tree yields only the message; otherwise the counts sum to total_nodes, and tree_depth is the highest level present |
| FinRag.FinRagSystem.GetStatistics | src/finrag/finrag.py:272-292 | returns the statistics of the tree's nodes, leaves and roots |
| FinRag.BatchesSpec | src/finrag/finrag.py:160-161 | batches cover the chunks in order; each is non-empty, and all but the last hold exactly 100 |
| FinRag.FinRagSystem.EmbedChunks | src/finrag/finrag.py:157-166 | the embeddings are those of one `create_embeddings` call per batch of 100, concatenated |
| FinRag.ChunkDocuments | src/finrag/finrag.py:148-151 | chunks every document in order, and fails exactly when there is a document and the overlap is at least the size |
| FinRag.FinRagSystem.AddDocuments | src/finrag/finrag.py:140-179 | on a chunking error, or with no chunks at all (stacking an empty batch list), it raises and nothing changes; otherwise the tree is built over the batched embeddings; a build exception propagates and leaves the retriever alone; else a retriever with the configured top_k is set |
| FinRag.PreviewSpec | src/finrag/finrag.py:226 | a text of up to 200 characters is its own preview; a longer one keeps its first 200 and gains "..." |
| FinRag.NodeInfos | src/finrag/finrag.py:220-229 | one entry per retrieved pair: its node's id and level, its score, its text preview |
| FinRag.FinRagSystem.Query | src/finrag/finrag.py:181-232 | no retriever raises RuntimeError; a missing method or top_k takes the configured one; it raises exactly for an unknown method or a collapsed scan of an empty tree; otherwise the answer comes with the retrieved nodes and the method |
| FinRag.FinRagSystem.constructor | src/finrag/finrag.py:26-70 | a missing config means the defaults; the tree is built on the configured parameters, and there is no retriever yet |
| Utils.FormatFinancialNumberSpec | src/finrag/utils/utils.py:35-42 | prefix first and suffix last; "B" from 1e9, "M" from 1e6, "K" from 1e3, none below; the shown number is the value in that scale |
| Utils.JoinersSpec | src/finrag/utils/utils.py:110-117 | a seed's joiners are exactly the later unused chunks whose similarity to the seed reaches the threshold, ascending |
| Utils.GroupMembers | src/finrag/utils/utils.py:105-117 | a group is the seed plus the later unused chunks close to it, compared with the seed only |
| Utils.GatherGroup | src/finrag/utils/utils.py:105-117 | the inner loop gathers the seed's group's texts and marks the group used |
| Utils.GroupsDistinct | src/finrag/utils/utils.py:99-117 | no index lands in two groups, or twice in one |
| Utils.GroupsCover | src/finrag/utils/utils.py:101-107 | every index is used once the seed loop passes it |
| Utils.MergeChunksPartition | src/finrag/utils/utils.py:95-125 | at most one chunk comes back unchanged; otherwise every index is in exactly one group and the merged_from counts sum to the number of chunks |
| Utils.MergeChunksGroups | src/finrag/utils/utils.py:98-125 | merged chunk k joins group k's texts with blank lines under the seed's chunk_id; seeds ascend; membership follows the merge rule |
| Utils.MergeChunksBySimilarity | src/finrag/utils/utils.py:79-127 | fewer than two chunks come back unchanged whatever the embeddings; otherwise the result is the merge the groups define |
| Utils.MergeSeeds | src/finrag/utils/utils.py:98-127 | with two chunks or more, each with an embedding, the seed loop builds exactly the merged chunks of the groups, in seed order |
| Utils.SliceTo | src/finrag/utils/utils.py:144 | Python's `s[:e]`, with a negative end counting from the back |
| Utils.TruncateTextSpec | src/finrag/utils/utils.py:142-144 | a text within the limit is unchanged; a longer one is a prefix plus the suffix, exactly max_length long when the suffix fits |
| Utils.TruncateTextShortLimit | src/finrag/utils/utils.py:144 | a limit below the suffix length does not bound the result |
| FilteredParser.DefaultSectionsDistinct | src/finrag/utils/filtered_parser.py:24-34 | the nine default sections are pairwise different |
| FilteredParser.NewParser | src/finrag/utils/filtered_parser.py:24-49 | None or [] selects the nine defaults; any other list is kept; the pattern keys are the nine sections |
| FilteredParser.RemoveBulletTrimmed | src/finrag/utils/filtered_parser.py:121 | removing one leading bullet and its whitespace from a trimmed line leaves a trimmed item or nothing |
| FilteredParser.CleanLineTrimmed | src/finrag/utils/filtered_parser.py:116-123 | a line yields an item iff, once stripped, it is non-empty, not a filler statement, and non-empty after the bullet; the item is that line, trimmed |
| FilteredParser.CleanLinesSingleLine | src/finrag/utils/filtered_parser.py:115-123 | no item contains a line break |
| FilteredParser.SectionItemsTrimmed | src/finrag/utils/filtered_parser.py:93-123 | every collected item is non-empty with no whitespace at either end |
| FilteredParser.SectionItemsKey | src/finrag/utils/filtered_parser.py:97-99 | only a section that has a pattern and is extracted collects items |
| FilteredParser.DedupByKeys | src/finrag/utils/filtered_parser.py:130-135 | dropping repeats loses no key |
| FilteredParser.DedupByUnique | src/finrag/utils/filtered_parser.py:130-135 | no two kept items share a key |
| FilteredParser.DedupBySub | src/finrag/utils/filtered_parser.py:130-135 | every kept item comes from the input |
| FilteredParser.DedupByFirst | src/finrag/utils/filtered_parser.py:130-135 | the first item with a key is kept |
| FilteredParser.DedupByPrefix | src/finrag/utils/filtered_parser.py:130-135 | order is kept: the result on a prefix is a prefix of the result |
| FilteredParser.DedupExactFirst | src/finrag/utils/filtered_parser.py:122 | dropping exact repeats before the case-insensitive ones changes nothing |
| FilteredParser.UniqueSpec | src/finrag/utils/filtered_parser.py:88 | the dict built from the extracted sections has each once |
| FilteredParser.ConsolidateKeys | src/finrag/utils/filtered_parser.py:126-136 | output keys are extracted sections that have a pattern, each once |
| FilteredParser.ConsolidateItems | src/finrag/utils/filtered_parser.py:93-136 | each section holds its matched items across the pages, case-insensitive repeats dropped, and is never empty; every extracted section with an item is present |
| FilteredParser.ConsolidateItemShape | src/finrag/utils/filtered_parser.py:116-135 | within a section, items differ ignoring case, are trimmed, and hold no line break |
| FilteredParser.AddLines | src/finrag/utils/filtered_parser.py:116-123 | appending a chunk's lines skips exact repeats |
| FilteredParser.AddKey | src/finrag/utils/filtered_parser.py:98-123 | one key pass updates only that section's list |
| FilteredParser.AddKeys | src/finrag/utils/filtered_parser.py:97-123 | the key loop keeps one list per extracted section, of its items so far without exact repeats |
| FilteredParser.AddChunk | src/finrag/utils/filtered_parser.py:93-123 | a blank chunk is skipped; otherwise every extracted section takes the chunk's items |
| FilteredParser.DedupLower | src/finrag/utils/filtered_parser.py:130-135 | the seen-set loop drops case-insensitive repeats, keeping first occurrences |
| FilteredParser.ConsolidateSections | src/finrag/utils/filtered_parser.py:76-138 | the chunk loop and the final loop compute the consolidation |
| FilteredParser.ConvertToText | src/finrag/utils/filtered_parser.py:140-164 | the text is the sections' blocks joined by newlines: "\nTitle:", then one "  - item" line per item |
| FilteredParser.ConvertToMarkdown | src/finrag/utils/filtered_parser.py:166-190 | the same shape, with "\n## Title\n" headers and "- item" lines |
| FilteredParser.PartsConcat | src/finrag/utils/filtered_parser.py:150-164 | converting two lists of sections in turn is converting them together |
| FilteredParser.PartsSkipEmpty | src/finrag/utils/filtered_parser.py:150-152 | empty sections contribute nothing |
| FilteredParser.PartsCount | src/finrag/utils/filtered_parser.py:150-164 | one header line per non-empty section and one line per item |
| FilteredParser.GetStatistics | src/finrag/utils/filtered_parser.py:246-269 | total_sections is the extracted count; coverage is 100·sections_with_data/total |
| FilteredParser.ItemCountsSpec | src/finrag/utils/filtered_parser.py:256-269 | items_per_section lists each non-empty section once, and its counts sum to total_items |
| FilteredParser.ConsolidatedCoverage | src/finrag/utils/filtered_parser.py:246-269 | for a consolidated result every section has data, and coverage lies in 0..100 |
| QuantitativeScorer.MeanOrNeutral | src/finrag/scoring/quantitative_scorer.py:112 | a mean of bucket values stays within their range, and is 50 without any |
| QuantitativeScorer.PeScore | src/finrag/scoring/quantitative_scorer.py:75-86 | the P/E bucket lies in 30..90 |
| QuantitativeScorer.PegScore | src/finrag/scoring/quantitative_scorer.py:89-98 | the PEG bucket lies in 40..85 |
| QuantitativeScorer.PriceToBookScore | src/finrag/scoring/quantitative_scorer.py:101-110 | the P/B bucket lies in 40..90 |
| QuantitativeScorer.ValuationTablesAntitone | src/finrag/scoring/quantitative_scorer.py:75-110 | a lower ratio never scores lower |
| QuantitativeScorer.ScoreValuation | src/finrag/scoring/quantitative_scorer.py:70-112 | valuation lies in 30..90, and is 50 without a positive ratio |
| QuantitativeScorer.ProfitMarginScore | src/finrag/scoring/quantitative_scorer.py:119-131 | the margin bucket lies in 40..95 |
| QuantitativeScorer.OperatingMarginScore | src/finrag/scoring/quantitative_scorer.py:134-144 | the operating-margin bucket lies in 45..95 |
| QuantitativeScorer.RoeScore | src/finrag/scoring/quantitative_scorer.py:147-157 | the ROE bucket lies in 40..90 |
| QuantitativeScorer.RoaScore | src/finrag/scoring/quantitative_scorer.py:160-170 | the ROA bucket lies in 40..90 |
| QuantitativeScorer.ProfitabilityTablesMonotone | src/finrag/scoring/quantitative_scorer.py:119-170 | a higher margin or return never scores lower |
| QuantitativeScorer.ScoreProfitability | src/finrag/scoring/quantitative_scorer.py:114-172 | profitability lies in 40..95, and is 50 without a metric |
| QuantitativeScorer.RevenueGrowthScore | src/finrag/scoring/quantitative_scorer.py:179-193 | the revenue-growth bucket lies in 30..95 |
| QuantitativeScorer.EarningsGrowthScore | src/finrag/scoring/quantitative_scorer.py:196-208 | the earnings-growth bucket lies in 40..95 |
| QuantitativeScorer.ScoreGrowth | src/finrag/scoring/quantitative_scorer.py:174-210 | growth lies in 30..95, and is 50 without a metric |
| QuantitativeScorer.DebtToEquityScore | src/finrag/scoring/quantitative_scorer.py:217-228 | the leverage bucket lies in 35..95 |
| QuantitativeScorer.CurrentRatioScore | src/finrag/scoring/quantitative_scorer.py:231-240 | the current-ratio bucket lies in 40..90 |
| QuantitativeScorer.FreeCashFlowScore | src/finrag/scoring/quantitative_scorer.py:243-248 | the cash-flow bucket lies in 30..80 |
| QuantitativeScorer.ScoreFinancialHealth | src/finrag/scoring/quantitative_scorer.py:212-250 | health lies in 30..95, and is 50 without a metric |
| QuantitativeScorer.PriceChangeScore | src/finrag/scoring/quantitative_scorer.py:260-271 | a price-change bucket lies in 30..90 before its period weight |
| QuantitativeScorer.RecommendationScore | src/finrag/scoring/quantitative_scorer.py:276-283 | a rating scores 15..95, and an unknown key 50 |
| QuantitativeScorer.UpsideScore | src/finrag/scoring/quantitative_scorer.py:289-297 | the upside bucket lies in 40..90 |
| QuantitativeScorer.PriceScoresSum | src/finrag/scoring/quantitative_scorer.py:255-271 | the weighted price buckets sum to between 3 and 90 when any period is present |
| QuantitativeScorer.MomentumBounds | src/finrag/scoring/quantitative_scorer.py:252-299 | momentum is positive and at most 275 |
| QuantitativeScorer.MomentumAboveHundred | src/finrag/scoring/quantitative_scorer.py:299 | a strong-buy rating with 100% upside already gives 185, above the 0..100 the other categories keep |
| QuantitativeScorer.ScoreFinancialData | src/finrag/scoring/quantitative_scorer.py:21-67 | data with an error gives score 50, confidence 0 and no breakdown; otherwise the weighted categories clamped to 0..100, with data_completeness (default 50) as confidence |
| QuantitativeScorer.ScoreIsWeightedTotal | src/finrag/scoring/quantitative_scorer.py:46-58 | the weighted total always exceeds 28, so only the upper clamp can bind |
| SentimentAnalyzer.KeywordBalance | src/finrag/scoring/sentiment_analyzer.py:145-150 | the rating lies in [−1, 1]; positive iff more positive keywords, negative iff more negative ones; ±1 when only one kind occurs |
| SentimentAnalyzer.NewAnalyzer | src/finrag/scoring/sentiment_analyzer.py:130-140 | the analyzer carries the 18 positive and 16 negative keywords |
| SentimentAnalyzer.KeywordSentimentSpec | src/finrag/scoring/sentiment_analyzer.py:126-150 | the keyword rating lies in [−1, 1]; it is 0 without keywords and +1 with only positive ones |
| SentimentAnalyzer.ExtractSentimentScore | src/finrag/scoring/sentiment_analyzer.py:110-124 | the model's number is clamped to [−1, 1] and kept when inside it; without a number the keyword rating is used |
| SentimentAnalyzer.RetrievalConfidence | src/finrag/scoring/sentiment_analyzer.py:152-163 | 0.5 without nodes, always in [0.3, 1.0] |
| SentimentAnalyzer.RetrievalConfidenceFirstFive | src/finrag/scoring/sentiment_analyzer.py:158 | only the first five nodes count |
| SentimentAnalyzer.RetrievalConfidenceMean | src/finrag/scoring/sentiment_analyzer.py:162-163 | a mean inside [0.3, 1.0] is the confidence unchanged |
| SentimentAnalyzer.Weigh | src/finrag/scoring/sentiment_analyzer.py:59 | a weighted score stays within ± the aspect's weight |
| SentimentAnalyzer.AnalyzeAspect | src/finrag/scoring/sentiment_analyzer.py:40-78 | an aspect fails exactly when its query raises; otherwise rating and confidence are in range and the weighted score is their product with the weight |
| SentimentAnalyzer.OverallConfidence | src/finrag/scoring/sentiment_analyzer.py:165-176 | 50 when no aspect was analyzed |
| SentimentAnalyzer.Normalize | src/finrag/scoring/sentiment_analyzer.py:85-88 | lies in 0..100, and is exactly ((total+1)/2)·100 for a total in [−1, 1] |
| SentimentAnalyzer.AnalyzeMultiAspectSentiment | src/finrag/scoring/sentiment_analyzer.py:36-92 | the loop keeps a detail per aspect; the raw score sums the analyzed weighted scores; the overall score normalizes it; confidence is the overall confidence |
| SentimentAnalyzer.RawScoreIsDetailSum | src/finrag/scoring/sentiment_analyzer.py:61-81 | the raw score equals the sum of every detail's weighted score, a failed one counting 0 |
| SentimentAnalyzer.RawScoreBound | src/finrag/scoring/sentiment_analyzer.py:59-81 | with non-negative weights the raw score lies within ± the weight total |
| SentimentAnalyzer.NormalizeExact | src/finrag/scoring/sentiment_analyzer.py:84-88 | with non-negative weights summing to at most 1 the clamp never binds |
| SentimentAnalyzer.ConfidencesWithin | src/finrag/scoring/sentiment_analyzer.py:167-171 | every analyzed aspect's confidence lies in [0.3, 1.0] |
| SentimentAnalyzer.OverallConfidenceRange | src/finrag/scoring/sentiment_analyzer.py:165-176 | the overall confidence lies in 30..100 |
| EnsembleScorer.NewScoringConfig | src/finrag/scoring/ensemble_scorer.py:67-77 | ValueError exactly when the weights sum outside 1 ± 0.01; otherwise the fields as given |
| EnsembleScorer.DefaultConfigValid | src/finrag/scoring/ensemble_scorer.py:19-23 | the default weights pass validation and sum to exactly 1 |
| EnsembleScorer.DefaultAspectWeights | src/finrag/scoring/ensemble_scorer.py:26-62 | the seven default aspect weights are non-negative and sum to 1 |
| EnsembleScorer.FinalScoreRange | src/finrag/scoring/ensemble_scorer.py:276-282 | with non-negative weights and components in 0..100 the final score lies in 0..100·total weight |
| EnsembleScorer.ValidatedScoreRange | src/finrag/scoring/ensemble_scorer.py:276-282 | a validated configuration keeps the final score in 0..101 |
| EnsembleScorer.DirectionMonotone | src/finrag/scoring/ensemble_scorer.py:285-290 | a higher score never gives a more bearish direction |
| EnsembleScorer.GrowthPoints | src/finrag/scoring/ensemble_scorer.py:364-372 | points lie in ±20, their sign is the growth's, and they are 100·g for g in [−0.2, 0.2] |
| EnsembleScorer.GrowthPointsMonotone | src/finrag/scoring/ensemble_scorer.py:364-367 | faster growth never earns fewer points |
| EnsembleScorer.TrendPointsSpec | src/finrag/scoring/ensemble_scorer.py:375-379 | +10 for an accelerating word, −10 for a slowing one, both or neither cancelling |
| EnsembleScorer.YoyScore | src/finrag/scoring/ensemble_scorer.py:347-392 | lies in 0..100, and is 50 when the query raised |
| EnsembleScorer.YoyScoreUnclamped | src/finrag/scoring/ensemble_scorer.py:361-381 | the clamp never binds: 50 plus points within ±50 |
| EnsembleScorer.RiskAdjustmentRange | src/finrag/scoring/ensemble_scorer.py:411-424 | with the default phrases the adjustment lies in −26..+6, and is 0 when none occurs |
| EnsembleScorer.RiskAdjustedScore | src/finrag/scoring/ensemble_scorer.py:394-438 | the base score when the query raised; otherwise in 0..100, and 0 iff base plus adjustment is not positive |
| EnsembleScorer.RiskAdjustedUnclamped | src/finrag/scoring/ensemble_scorer.py:424-427 | a base in 26..94 moves by exactly the adjustment |
| EnsembleScorer.LlmJudgeScore | src/finrag/scoring/ensemble_scorer.py:488-505 | the reply's number clamped to 0..100 and kept when inside it; 50 without a number; the mean of the other three scores when the call raised |
| EnsembleScorer.LlmJudgeRange | src/finrag/scoring/ensemble_scorer.py:501-505 | the fallback mean stays in 0..100 when the other scores do |
| EnsembleScorer.Agreement | src/finrag/scoring/ensemble_scorer.py:520-521 | agreement is at least 0, and at most 100 for a standard deviation that is not negative |
| EnsembleScorer.EnsembleConfidence | src/finrag/scoring/ensemble_scorer.py:507-532 | the confidence lies in 0..100 |
| EnsembleScorer.EnsembleConfidenceSpec | src/finrag/scoring/ensemble_scorer.py:519-532 | more spread never raises confidence; with inputs in range the clamp never binds |
| EnsembleScorer.SelectSpec | src/finrag/scoring/ensemble_scorer.py:544-552 | exactly the labels of the selected items are listed |
| EnsembleScorer.Categories | src/finrag/scoring/ensemble_scorer.py:549-550 | five categories with a breakdown, none without one |
| EnsembleScorer.KeyDriversSpec | src/finrag/scoring/ensemble_scorer.py:534-554 | at most five drivers; each is a strong aspect or an excellent category; five strong aspects crowd out every category |
| EnsembleScorer.ExtractKeyDrivers | src/finrag/scoring/ensemble_scorer.py:541-554 | the two append loops give the key drivers |
| EnsembleScorer.RiskFactorsSpec | src/finrag/scoring/ensemble_scorer.py:556-579 | at most five risks, each an aspect of concern or a data risk; a zero margin is ignored like a missing one; a margin in (0, 0.05) is reported |
| EnsembleScorer.ExtractRiskFactors | src/finrag/scoring/ensemble_scorer.py:563-579 | the loop and the two checks give the risk factors |
| EnsembleScorer.FormatListLines | src/finrag/scoring/ensemble_scorer.py:170-174 | items without line breaks come back one per line, each behind "  • " |
| EnsembleScorer.ScoreCompany | src/finrag/scoring/ensemble_scorer.py:198-345 | each component is its scorer's result in 0..100; the score is their weighted sum, within 0..100·total weight for non-negative weights; the direction follows the score; the confidence combines the spread of the five components with the quantitative and sentiment confidences |

## Left out

- Foreign numerics and models (UMAP, Gaussian mixture, K-means, cosine similarity, the embedding, summarisation and QA models, the tokenizer) are function parameters. The only assumption is the shape of their results (`Clustering.WellShaped`).
- `np.std` is the `stdev` parameter of `EnsembleScorer.ScoreCompany`. Float formatting (`:.2f`, `:.1f`, `:.3f`) is a `fmt` parameter.
- Floating point is modelled as exact `real` arithmetic. No rounding is modelled.
- Reading a number out of a model's reply (the regular expressions and `float(...)`) is an `Option` parameter. A failed call is an `Err` holding the exception text.
- The parser's regular expressions (page splitting, section header search, "not found" filter) are functions of an `Extraction`. Everything after a match is modelled.
- `lower()` and `title()` map ASCII letters only.
- The pickle file, file I/O, the progress prints, `datetime` and the company-name lookup are not part of this model.
- `convert_to_json` and `save_outputs` of the filtered parser are not part of this model. They are a JSON dump and file writes.
- `ScoringResult.__str__`, `to_dict` and `to_json` are output formatting and are not part of this model.
- The nested breakdown dicts of `score_company` are not kept in `ScoringResult`. Neither are the extra keys of the component dicts (`trend_analysis`, `base_score`, `reasoning`, the previews).
- A metric that is absent and one that is `None` are the same `None`.
- Capability failures (an embedding or summary call raising) are not modelled. Only the exceptions raised by the code itself are, plus NumPy's on an empty stack or matrix.
- Clustering.UmapCheck: UMAP's parameter check is the only UMAP failure modelled. Its other validation and any failure inside the fit are not.
- Tree.Load: requires the record's child ids to name strictly lower levels. A cyclic or level-inconsistent JSON file is not modelled.
- Retrieval.ArgSort: breaks score ties by ascending position. NumPy's default quicksort leaves tie order unspecified.
- Retrieval.ResolveK: `k` is a natural number. A negative `k` is not modelled.
- Utils.MergeChunksBySimilarity: with two chunks or more it requires an embedding for every chunk. The IndexError that `embeddings[i]` or `embeddings[j]` raises on a shorter embeddings array is not modelled.
- Chunker.ChunkText: uses the corrected sentence trim (see Findings), not the one as written.
- Chunker.ChunkText: chunk_size and chunk_overlap are natural numbers. The source reads them from the environment without a sign check and rejects only an overlap of at least the chunk size. A negative overlap, with which the windows skip tokens (size 10 and overlap -5 move the cursor from 0 to 15), is not modelled, and neither is a negative chunk_size.
- Chunker.WindowsShape: holds for natural-number overlaps only. With a negative overlap the next window would start after the current one's end.
- Chunker.WindowsCover: holds for natural-number overlaps only. With a negative overlap some tokens lie in no window.
- Clustering.PerformClusteringClusters: min_cluster_size (also `Tree.TreeConfig.minClusterSize`) is a natural number. The source reads it from the environment without a sign check. Zero is modelled, as the ZeroDivisionError it raises. A negative value is not modelled.
- `get_all_texts`, `get_all_embeddings`, PDF loading and `extract_financial_entities` lie outside the modelled core.

## Findings

| source | as written | input that shows it | evidently intended | confidence | as-written member | corrected member |
|---|---|---|---|---|---|---|
| src/finrag/models/models.py:174-177 | at offset 0 the cut is `chunk_text[:-(0)]`, which is `chunk_text[:0]`, the empty string | a window decoded as "Revenue grew." with further tokens after it | keep the window up to and including its sentence mark, `chunk_text[:len(chunk_text)-offset]` | not executed | Chunker.TrimAsWrittenEmptiesSentence | Chunker.TrimToSentenceKeepsText |
