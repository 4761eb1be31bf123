/**
 * `RAPTORRetriever`: tree traversal (the top k nodes of each level, then down to their children),
 * the collapsed-tree scan over every node, the dispatch between the two, and the context text
 * built from the result. The embedding model and cosine similarity are functions; similarity
 * scores are exact reals.
 */
module Retrieval {
  import opened Wrappers
  import opened Text
  import opened Basics
  import opened Clustering
  import opened Tree

  /** A `(node, similarity)` pair. */
  datatype Scored = Scored(node: Node, score: real)

  /**
   * A retriever's embedding model (`create_embedding`), the cosine similarity of a query embedding
   * with a node embedding, and its `top_k`.
   */
  datatype Retriever = Retriever(
    embed: string -> Embedding,
    similarity: (Embedding, Embedding) -> real,
    topK: nat)

  /** `RAPTORRetriever(tree, embedding_model)` with the default `top_k` of 10. */
  function DefaultRetriever(embed: string -> Embedding, similarity: (Embedding, Embedding) -> real): Retriever {
    Retriever(embed, similarity, 10)
  }

  /** `k` when the caller gives one, the retriever's `top_k` when it is None. */
  function ResolveK(r: Retriever, k: Option<nat>): (kk: nat)
    ensures k.Some? ==> kk == k.value
    ensures k.None? ==> kk == r.topK
  {
    if k.Some? then k.value else r.topK
  }

  // ---------------------------------------------------------------------------------------------
  // `np.argsort`, taken stable: ascending scores, equal scores in ascending position.

  /** Position `i` comes before position `j` when `scores` are sorted stably in ascending order. */
  predicate Before(scores: seq<real>, i: nat, j: nat)
    requires i < |scores| && j < |scores|
  {
    scores[i] < scores[j] || (scores[i] == scores[j] && i < j)
  }

  /** `idx` lists positions of `scores` in stable ascending order (so each at most once). */
  predicate AscendingBy(scores: seq<real>, idx: seq<nat>) {
    && (forall a :: 0 <= a < |idx| ==> idx[a] < |scores|)
    && (forall a, b {:trigger Before(scores, idx[a], idx[b])} :: 0 <= a < b < |idx| ==> Before(scores, idx[a], idx[b]))
  }

  /** Puts position `i` into the ascending list `idx`, before the first position scoring higher. */
  function InsertAsc(scores: seq<real>, i: nat, idx: seq<nat>): (r: seq<nat>)
    requires i < |scores| && forall a :: 0 <= a < |idx| ==> idx[a] < |scores|
    ensures |r| == |idx| + 1 && forall a :: 0 <= a < |r| ==> r[a] == i || r[a] in idx
  {
    if idx == [] then [i]
    else if scores[idx[0]] > scores[i] then [i] + idx
    else [idx[0]] + InsertAsc(scores, i, idx[1..])
  }

  /** Inserting a position adds just that position. */
  lemma {:induction false} InsertAscElems(scores: seq<real>, i: nat, idx: seq<nat>)
    requires i < |scores| && forall a :: 0 <= a < |idx| ==> idx[a] < |scores|
    ensures multiset(InsertAsc(scores, i, idx)) == multiset(idx) + multiset{i}
  {
    if idx != [] && scores[idx[0]] <= scores[i] {
      InsertAscElems(scores, i, idx[1..]);
      assert idx == [idx[0]] + idx[1..];
    }
  }

  /** Inserting a position above all listed ones keeps the list stably sorted. */
  lemma {:induction false} InsertAscSorted(scores: seq<real>, i: nat, idx: seq<nat>)
    requires i < |scores| && AscendingBy(scores, idx)
    requires forall a :: 0 <= a < |idx| ==> idx[a] < i
    ensures AscendingBy(scores, InsertAsc(scores, i, idx))
  {
    if idx != [] && scores[idx[0]] <= scores[i] {
      var tail := idx[1..];
      var rest := InsertAsc(scores, i, tail);
      InsertAscSorted(scores, i, tail);
      InsertAscElems(scores, i, tail);
      var r := [idx[0]] + rest;
      forall a, b | 0 <= a < b < |r| ensures Before(scores, r[a], r[b]) {
        if a == 0 {
          assert rest[b - 1] in multiset(rest);
          if rest[b - 1] != i {
            assert rest[b - 1] in multiset(tail);
            var c :| 0 <= c < |tail| && tail[c] == rest[b - 1];
            assert Before(scores, idx[0], idx[c + 1]);
          }
        } else {
          assert Before(scores, rest[a - 1], rest[b - 1]);
        }
      }
    } else if idx != [] {
      var r := [i] + idx;
      forall a, b | 0 <= a < b < |r| ensures Before(scores, r[a], r[b]) {
        if a == 0 && b > 1 {
          assert Before(scores, idx[0], idx[b - 1]);
        } else if a > 0 {
          assert Before(scores, idx[a - 1], idx[b - 1]);
        }
      }
    }
  }

  /** The first `n` positions, sorted stably by score. */
  function ArgSortUpTo(scores: seq<real>, n: nat): (r: seq<nat>)
    requires n <= |scores|
    ensures |r| == n && forall a :: 0 <= a < n ==> r[a] < n
  {
    if n == 0 then [] else InsertAsc(scores, n - 1, ArgSortUpTo(scores, n - 1))
  }

  lemma {:induction false} ArgSortUpToSorted(scores: seq<real>, n: nat)
    requires n <= |scores|
    ensures AscendingBy(scores, ArgSortUpTo(scores, n))
  {
    if n > 0 {
      ArgSortUpToSorted(scores, n - 1);
      InsertAscSorted(scores, n - 1, ArgSortUpTo(scores, n - 1));
    }
  }

  lemma {:induction false} ArgSortUpToElems(scores: seq<real>, n: nat)
    requires n <= |scores|
    ensures multiset(ArgSortUpTo(scores, n)) == multiset(Range(n))
  {
    if n > 0 {
      var prev := ArgSortUpTo(scores, n - 1);
      ArgSortUpToElems(scores, n - 1);
      InsertAscElems(scores, n - 1, prev);
      RangeSnoc(n - 1);
    }
  }

  /** `np.argsort(scores)`: the positions of `scores` by ascending score, equal scores by position. */
  function ArgSort(scores: seq<real>): (r: seq<nat>)
    ensures |r| == |scores| && forall a :: 0 <= a < |r| ==> r[a] < |scores|
  {
    ArgSortUpTo(scores, |scores|)
  }

  /** `np.argsort` lists every position exactly once, in stable ascending score order. */
  lemma ArgSortSpec(scores: seq<real>)
    ensures AscendingBy(scores, ArgSort(scores))
    ensures multiset(ArgSort(scores)) == multiset(Range(|scores|))
  {
    ArgSortUpToSorted(scores, |scores|);
    ArgSortUpToElems(scores, |scores|);
  }

  /** `np.argsort(scores)[-k:][::-1]`: the positions of the k highest scores, highest first. */
  function TopIndices(scores: seq<real>, k: nat): (top: seq<nat>)
    ensures |top| <= |scores| && forall t :: 0 <= t < |top| ==> top[t] < |scores|
  {
    Reverse(TakeLast(ArgSort(scores), k))
  }

  /** The top indices are the last min(k, n) sorted positions (all n for k = 0), read backwards. */
  lemma TopIndicesShape(scores: seq<real>, k: nat)
    ensures var asc := ArgSort(scores);
            var top := TopIndices(scores, k);
            && |top| == (if k == 0 then |scores| else Min(k, |scores|))
            && forall a :: 0 <= a < |top| ==> top[a] == asc[|asc| - 1 - a]
  {
  }

  /** The top indices run in descending score order, equal scores by descending position. */
  lemma TopIndicesOrdered(scores: seq<real>, k: nat)
    ensures var top := TopIndices(scores, k);
            forall a, b :: 0 <= a < b < |top| ==> Before(scores, top[b], top[a])
  {
    var asc := ArgSort(scores);
    var n := |asc|;
    var top := TopIndices(scores, k);
    ArgSortSpec(scores);
    TopIndicesShape(scores, k);
    forall a, b | 0 <= a < b < |top| ensures Before(scores, top[b], top[a]) {
      assert Before(scores, asc[n - 1 - b], asc[n - 1 - a]);
    }
  }

  /** A position left out of the top indices scores at most as much as the one `t`-th in them. */
  lemma LeftOutScoresLess(scores: seq<real>, k: nat, i: nat, t: nat)
    requires i < |scores| && i !in TopIndices(scores, k) && t < |TopIndices(scores, k)|
    ensures scores[i] <= scores[TopIndices(scores, k)[t]]
  {
    var asc := ArgSort(scores);
    var n := |asc|;
    var top := TopIndices(scores, k);
    ArgSortSpec(scores);
    TopIndicesShape(scores, k);
    assert Range(n)[i] == i;
    assert i in multiset(asc);
    forall q | n - |top| <= q < n ensures asc[q] != i {
      assert top[n - 1 - q] == asc[q];
    }
    var p :| 0 <= p < n && asc[p] == i;
    assert top[t] == asc[n - 1 - t];
    assert Before(scores, asc[p], asc[n - 1 - t]);
  }

  /** No position left out of the top indices scores above one in them. */
  lemma TopIndicesBest(scores: seq<real>, k: nat)
    ensures var top := TopIndices(scores, k);
            forall i, t :: 0 <= i < |scores| && i !in top && 0 <= t < |top| ==> scores[i] <= scores[top[t]]
  {
    var top := TopIndices(scores, k);
    forall i, t | 0 <= i < |scores| && i !in top && 0 <= t < |top| ensures scores[i] <= scores[top[t]] {
      LeftOutScoresLess(scores, k, i, t);
    }
  }

  /**
   * For k >= 1 the top indices are the min(k, n) best positions, for k = 0 (`[-0:]`) all n;
   * either way in descending score order (equal scores by descending position), and no position
   * left out scores above one chosen.
   */
  lemma TopIndicesSpec(scores: seq<real>, k: nat)
    ensures var top := TopIndices(scores, k);
            && |top| == (if k == 0 then |scores| else Min(k, |scores|))
            && (forall a, b :: 0 <= a < b < |top| ==> Before(scores, top[b], top[a]))
            && (forall i, t :: 0 <= i < |scores| && i !in top && 0 <= t < |top| ==> scores[i] <= scores[top[t]])
  {
    TopIndicesShape(scores, k);
    TopIndicesOrdered(scores, k);
    TopIndicesBest(scores, k);
  }

  // ---------------------------------------------------------------------------------------------
  // One level of retrieval.

  /** `cosine_similarity([query_embedding], [n.embedding for n in nodes])[0]`. */
  function Similarities(r: Retriever, q: Embedding, nodes: seq<Node>): (s: seq<real>)
    ensures |s| == |nodes|
  {
    seq(|nodes|, i requires 0 <= i < |nodes| => r.similarity(q, nodes[i].embedding))
  }

  /** `[(nodes[i], similarities[i]) for i in top_indices]`. */
  function Select(r: Retriever, q: Embedding, nodes: seq<Node>, k: nat): seq<Scored> {
    var scores := Similarities(r, q, nodes);
    var top := TopIndices(scores, k);
    seq(|top|, t requires 0 <= t < |top| => Scored(nodes[top[t]], scores[top[t]]))
  }

  /**
   * One level selects min(k, n) of its n nodes (all n for k = 0), each with its own similarity,
   * most similar first, and no node left out is more similar than one selected.
   */
  lemma SelectSpec(r: Retriever, q: Embedding, nodes: seq<Node>, k: nat)
    ensures var s := Select(r, q, nodes, k);
            && |s| == (if k == 0 then |nodes| else Min(k, |nodes|))
            && (forall t :: 0 <= t < |s| ==> s[t].node in nodes && s[t].score == r.similarity(q, s[t].node.embedding))
            && (forall a, b :: 0 <= a < b < |s| ==> s[a].score >= s[b].score)
            && (forall i :: 0 <= i < |nodes| && i !in TopIndices(Similarities(r, q, nodes), k) ==>
                  forall t :: 0 <= t < |s| ==> r.similarity(q, nodes[i].embedding) <= s[t].score)
  {
    var scores := Similarities(r, q, nodes);
    var top := TopIndices(scores, k);
    var s := Select(r, q, nodes, k);
    TopIndicesShape(scores, k);
    forall t | 0 <= t < |s| ensures s[t].node in nodes && s[t].score == r.similarity(q, s[t].node.embedding) {
      assert s[t] == Scored(nodes[top[t]], scores[top[t]]);
    }
    forall a, b | 0 <= a < b < |s| ensures s[a].score >= s[b].score {
      TopIndicesOrdered(scores, k);
      assert Before(scores, top[b], top[a]);
    }
    forall i, t | 0 <= i < |nodes| && i !in top && 0 <= t < |s| ensures r.similarity(q, nodes[i].embedding) <= s[t].score {
      LeftOutScoresLess(scores, k, i, t);
    }
  }

  // ---------------------------------------------------------------------------------------------
  // Going down the tree.

  /** The height of a node: 0 for a leaf, one more than its highest child otherwise. */
  function Height(n: Node): nat
    decreases n, 1
  {
    MaxHeight(n.children)
  }

  /** 0 for no nodes, otherwise one more than the greatest height among them. */
  function MaxHeight(ns: seq<Node>): nat
    decreases ns, 0
  {
    if ns == [] then 0 else Max(1 + Height(ns[0]), MaxHeight(ns[1..]))
  }

  lemma {:induction false} MaxHeightAbove(ns: seq<Node>, n: Node)
    requires n in ns
    ensures Height(n) < MaxHeight(ns)
  {
    if ns[0] != n {
      MaxHeightAbove(ns[1..], n);
    }
  }

  lemma {:induction false} MaxHeightAtMost(ns: seq<Node>, h: nat)
    requires forall n :: n in ns ==> Height(n) < h
    ensures MaxHeight(ns) <= h
  {
    if ns != [] {
      MaxHeightAtMost(ns[1..], h);
    }
  }

  /** The next frontier: the children of the selected nodes, in selection order. */
  function ChildrenOf(top: seq<Scored>): seq<Node> {
    if top == [] then [] else ChildrenOf(top[..|top| - 1]) + top[|top| - 1].node.children
  }

  /** The next frontier holds exactly the children of the selected nodes. */
  lemma {:induction false} ChildrenOfSpec(top: seq<Scored>, c: Node)
    ensures c in ChildrenOf(top) <==> exists t :: 0 <= t < |top| && c in top[t].node.children
  {
    if top != [] {
      var init := top[..|top| - 1];
      ChildrenOfSpec(init, c);
      if c in ChildrenOf(init) {
        var t :| 0 <= t < |init| && c in init[t].node.children;
        assert top[t] == init[t];
      }
      if exists t :: 0 <= t < |top| && c in top[t].node.children {
        var t :| 0 <= t < |top| && c in top[t].node.children;
        if t < |init| {
          assert init[t] == top[t];
        }
      }
    }
  }

  /** The children of the nodes selected from a non-empty frontier stand lower than the frontier. */
  lemma FrontierShrinks(r: Retriever, q: Embedding, current: seq<Node>, k: nat)
    requires current != []
    ensures MaxHeight(ChildrenOf(Select(r, q, current, k))) < MaxHeight(current)
  {
    var top := Select(r, q, current, k);
    SelectSpec(r, q, current, k);
    MaxHeightAbove(current, current[0]);
    forall c | c in ChildrenOf(top) ensures Height(c) < MaxHeight(current) - 1 {
      ChildrenOfSpec(top, c);
      var t :| 0 <= t < |top| && c in top[t].node.children;
      MaxHeightAbove(top[t].node.children, c);
      MaxHeightAbove(current, top[t].node);
    }
    MaxHeightAtMost(ChildrenOf(top), MaxHeight(current) - 1);
  }

  /** The pairs the traversal collects from frontier `current` down: a level's selection, then below it. */
  function Traverse(r: Retriever, q: Embedding, current: seq<Node>, k: nat): seq<Scored>
    decreases MaxHeight(current)
  {
    if current == [] then []
    else
      var top := Select(r, q, current, k);
      FrontierShrinks(r, q, current, k);
      top + Traverse(r, q, ChildrenOf(top), k)
  }

  // ---------------------------------------------------------------------------------------------
  // `list.sort(key=score, reverse=True)`: Python's sort is stable, also in reverse.

  predicate DescendingScores(s: seq<Scored>) {
    forall a, b :: 0 <= a < b < |s| ==> s[a].score >= s[b].score
  }

  /** The pairs of `s` scoring exactly `v`, in order. */
  function WithScore(s: seq<Scored>, v: real): seq<Scored> {
    if s == [] then [] else (if s[0].score == v then [s[0]] else []) + WithScore(s[1..], v)
  }

  /** Puts `x` before the first pair that scores at most as much. */
  function InsertDesc(x: Scored, s: seq<Scored>): seq<Scored> {
    if s == [] || s[0].score <= x.score then [x] + s else [s[0]] + InsertDesc(x, s[1..])
  }

  /** `s.sort(key=lambda x: x[1], reverse=True)`. */
  function SortByScore(s: seq<Scored>): seq<Scored> {
    if s == [] then [] else InsertDesc(s[0], SortByScore(s[1..]))
  }

  /** Inserting `x` adds just `x`. */
  lemma {:induction false} InsertDescElems(x: Scored, s: seq<Scored>)
    ensures multiset(InsertDesc(x, s)) == multiset(s) + multiset{x}
  {
    if s != [] && s[0].score > x.score {
      InsertDescElems(x, s[1..]);
      assert s == [s[0]] + s[1..];
    }
  }

  /** A pair scoring at least as much as every pair of a descending list can go in front of it. */
  lemma ConsDescending(h: Scored, rest: seq<Scored>)
    requires DescendingScores(rest) && forall y :: y in rest ==> y.score <= h.score
    ensures DescendingScores([h] + rest)
  {
    var r := [h] + rest;
    forall a, b | 0 <= a < b < |r| ensures r[a].score >= r[b].score {
      assert r[b] == rest[b - 1];
      if a > 0 {
        assert r[a] == rest[a - 1];
      } else {
        assert rest[b - 1] in rest;
      }
    }
  }

  /** Inserting into a list in descending score order keeps it so. */
  lemma {:induction false} InsertDescSorted(x: Scored, s: seq<Scored>)
    requires DescendingScores(s)
    ensures DescendingScores(InsertDesc(x, s))
  {
    if s != [] && s[0].score > x.score {
      var rest := InsertDesc(x, s[1..]);
      InsertDescSorted(x, s[1..]);
      InsertDescElems(x, s[1..]);
      forall y | y in rest ensures y.score <= s[0].score {
        assert y in multiset(rest);
        if y != x {
          assert y in multiset(s[1..]);
          var c :| 0 <= c < |s[1..]| && s[1..][c] == y;
          assert s[c + 1] == y;
        }
      }
      ConsDescending(s[0], rest);
    } else {
      ConsDescending(x, s);
    }
  }

  /** Inserting `x` into a descending list adds `x` in front of the pairs scoring as it does. */
  lemma {:induction false} InsertDescWithScore(x: Scored, s: seq<Scored>, v: real)
    ensures WithScore(InsertDesc(x, s), v) == (if x.score == v then [x] else []) + WithScore(s, v)
  {
    if s != [] && s[0].score > x.score {
      var rest := InsertDesc(x, s[1..]);
      InsertDescWithScore(x, s[1..], v);
      var r := [s[0]] + rest;
      assert r[0] == s[0] && r[1..] == rest;
      assert WithScore(r, v) == (if s[0].score == v then [s[0]] else []) + WithScore(rest, v);
      assert WithScore(s, v) == (if s[0].score == v then [s[0]] else []) + WithScore(s[1..], v);
    } else {
      var r := [x] + s;
      assert r[0] == x && r[1..] == s;
    }
  }

  /** The sort yields descending scores and the same pairs. */
  lemma {:induction false} SortByScoreSpec(s: seq<Scored>)
    ensures DescendingScores(SortByScore(s))
    ensures multiset(SortByScore(s)) == multiset(s)
    ensures |SortByScore(s)| == |s|
  {
    if s != [] {
      SortByScoreSpec(s[1..]);
      InsertDescSorted(s[0], SortByScore(s[1..]));
      InsertDescElems(s[0], SortByScore(s[1..]));
      assert s == [s[0]] + s[1..];
    }
  }

  /** The sort is stable: the pairs of any one score keep their order. */
  lemma {:induction false} SortByScoreStable(s: seq<Scored>, v: real)
    ensures WithScore(SortByScore(s), v) == WithScore(s, v)
  {
    if s != [] {
      SortByScoreStable(s[1..], v);
      InsertDescWithScore(s[0], SortByScore(s[1..]), v);
    }
  }

  // ---------------------------------------------------------------------------------------------
  // The two strategies.

  /** `tree_traversal_retrieval`: everything selected on the way down, sorted by score, cut to k. */
  function TreeTraversal(r: Retriever, roots: seq<Node>, query: string, k: nat): seq<Scored> {
    Take(SortByScore(Traverse(r, r.embed(query), roots, k)), k)
  }

  /** A pair the cut to k drops scores at most as much as every pair kept. */
  lemma DroppedScoresLess(all: seq<Scored>, k: nat, p: Scored, t: nat)
    requires p in all && p !in Take(SortByScore(all), k) && t < |Take(SortByScore(all), k)|
    ensures p.score <= Take(SortByScore(all), k)[t].score
  {
    var sorted := SortByScore(all);
    var res := Take(sorted, k);
    SortByScoreSpec(all);
    assert p in multiset(sorted);
    forall j | 0 <= j < |res| ensures sorted[j] != p {
      assert res[j] == sorted[j];
    }
    var j :| 0 <= j < |sorted| && sorted[j] == p;
    assert sorted[t] == res[t];
  }

  /**
   * Sorting and cutting to k keeps exactly min(k, |all|) pairs, in descending score order, each
   * one of the pairs given, and no pair dropped scores above one kept.
   */
  lemma SortAndCutSpec(all: seq<Scored>, k: nat)
    ensures var res := Take(SortByScore(all), k);
            && |res| == Min(k, |all|)
            && DescendingScores(res)
            && multiset(res) <= multiset(all)
            && (forall p, t :: p in all && p !in res && 0 <= t < |res| ==> p.score <= res[t].score)
  {
    var sorted := SortByScore(all);
    SortByScoreSpec(all);
    var res := Take(sorted, k);
    assert sorted == res + sorted[|res|..];
    forall p, t | p in all && p !in res && 0 <= t < |res| ensures p.score <= res[t].score {
      DroppedScoresLess(all, k, p, t);
    }
  }

  /**
   * Exactly min(k, |selected|) pairs, all selected on the way down, highest score first, and no
   * selected pair left out scores above one returned; for k = 0 (`[:0]`) nothing.
   */
  lemma TreeTraversalSpec(r: Retriever, roots: seq<Node>, query: string, k: nat)
    ensures var res := TreeTraversal(r, roots, query, k);
            var all := Traverse(r, r.embed(query), roots, k);
            && |res| == Min(k, |all|)
            && DescendingScores(res)
            && multiset(res) <= multiset(all)
            && (forall p, t :: p in all && p !in res && 0 <= t < |res| ==> p.score <= res[t].score)
  {
    SortAndCutSpec(Traverse(r, r.embed(query), roots, k), k);
  }

  /**
   * The error of `cosine_similarity` when `all_nodes` is empty: `np.array([])` is one-dimensional,
   * and scikit-learn's input check refuses it with a ValueError whose message begins with this
   * text (the full message goes on to show the array and a reshape hint).
   */
  function EmptyMatrixError(): Error {
    ValueError("Expected 2D array, got 1D array instead")
  }

  /**
   * `collapsed_tree_retrieval` over `list(all_nodes.values())`: an empty dict raises ValueError;
   * otherwise the top k of all nodes by similarity.
   */
  function CollapsedTree(r: Retriever, all: seq<Node>, query: string, k: nat): (res: Result<seq<Scored>, Error>)
    ensures res.Err? <==> all == []
    ensures res.Err? ==> res.error == EmptyMatrixError()
    ensures res.Ok? ==>
              var s := res.value;
              && |s| == (if k == 0 then |all| else Min(k, |all|))
              && (forall t :: 0 <= t < |s| ==> s[t].node in all && s[t].score == r.similarity(r.embed(query), s[t].node.embedding))
              && (forall a, b :: 0 <= a < b < |s| ==> s[a].score >= s[b].score)
              && (forall i :: 0 <= i < |all| && i !in TopIndices(Similarities(r, r.embed(query), all), k) ==>
                    forall t :: 0 <= t < |s| ==> r.similarity(r.embed(query), all[i].embedding) <= s[t].score)
  {
    if all == [] then Err(EmptyMatrixError())
    else
      SelectSpec(r, r.embed(query), all, k);
      Ok(Select(r, r.embed(query), all, k))
  }

  /** The children of the selected nodes, appended in order. */
  method ExpandChildren(top: seq<Scored>) returns (next: seq<Node>)
    ensures next == ChildrenOf(top)
  {
    next := [];
    for t := 0 to |top|
      invariant next == ChildrenOf(top[..t])
    {
      assert top[..t + 1][..t] == top[..t];
      next := next + top[t].node.children;
    }
    assert top[..|top|] == top;
  }

  /** `tree_traversal_retrieval`: the level loop from the roots, then the sort and the cut to k. */
  method TreeTraversalRetrieval(r: Retriever, tree: RaptorTree, query: string, k: Option<nat>)
    returns (result: seq<Scored>)
    ensures result == TreeTraversal(r, tree.rootNodes, query, ResolveK(r, k))
  {
    var kk := ResolveK(r, k);
    var q := r.embed(query);
    var current := tree.rootNodes;
    var retrieved: seq<Scored> := [];
    while current != []
      invariant retrieved + Traverse(r, q, current, kk) == Traverse(r, q, tree.rootNodes, kk)
      decreases MaxHeight(current)
    {
      var top := Select(r, q, current, kk);
      FrontierShrinks(r, q, current, kk);
      assert Traverse(r, q, current, kk) == top + Traverse(r, q, ChildrenOf(top), kk);
      assert retrieved + (top + Traverse(r, q, ChildrenOf(top), kk))
          == (retrieved + top) + Traverse(r, q, ChildrenOf(top), kk);
      retrieved := retrieved + top;
      current := ExpandChildren(top);
    }
    assert retrieved + [] == retrieved;
    result := Take(SortByScore(retrieved), kk);
  }

  /** The error `retrieve` raises for a method it does not know. */
  function UnknownMethod(name: string): Error {
    ValueError("Unknown retrieval method: " + name)
  }

  /** Whether `retrieve` knows a method name. */
  predicate KnownMethod(name: string) {
    name == "tree_traversal" || name == "collapsed_tree"
  }

  /**
   * `retrieve`: "tree_traversal" and "collapsed_tree" run their strategy; any other method name
   * raises ValueError naming it. Only the collapsed strategy on an empty `all_nodes` raises
   * otherwise.
   */
  method Retrieve(r: Retriever, tree: RaptorTree, query: string, name: string, k: Option<nat>)
    returns (res: Result<seq<Scored>, Error>)
    requires tree.allNodes.Wf()
    ensures name == "tree_traversal" ==> res == Ok(TreeTraversal(r, tree.rootNodes, query, ResolveK(r, k)))
    ensures name == "collapsed_tree" ==> res == CollapsedTree(r, tree.allNodes.Values(), query, ResolveK(r, k))
    ensures res.Err? <==> !KnownMethod(name) || (name == "collapsed_tree" && tree.allNodes.order == [])
    ensures !KnownMethod(name) ==> res == Err(UnknownMethod(name))
  {
    if name == "tree_traversal" {
      var pairs := TreeTraversalRetrieval(r, tree, query, k);
      res := Ok(pairs);
    } else if name == "collapsed_tree" {
      res := CollapsedTree(r, tree.allNodes.Values(), query, ResolveK(r, k));
    } else {
      res := Err(UnknownMethod(name));
    }
  }

  // ---------------------------------------------------------------------------------------------
  // `retrieve_with_context`.

  /** `f"[Document {idx+1}] (Relevance: {score:.3f})"`, the score already formatted. */
  function Header(idx: nat, score: string): string {
    "[Document " + NatToString(idx + 1) + "] (Relevance: " + score + ")"
  }

  /** `f"  [Sub-document {idx+1}.{child_idx+1}]"`. */
  function SubHeader(idx: nat, c: nat): string {
    "  [Sub-document " + NatToString(idx + 1) + "." + NatToString(c + 1) + "]"
  }

  /** The two lines of each of the first `n` children shown under document `idx`. */
  function ChildLines(idx: nat, children: seq<Node>, n: nat): (lines: seq<string>)
    requires n <= |children|
    ensures |lines| == 2 * n
  {
    if n == 0 then [] else ChildLines(idx, children, n - 1) + [SubHeader(idx, n - 1), "  " + children[n - 1].text]
  }

  /** How many children a document shows: at most 3, and none unless children are asked for. */
  function Shown(p: Scored, includeChildren: bool): nat {
    if includeChildren then Min(3, |p.node.children|) else 0
  }

  /** The lines of document `idx`: header, text, the shown children, then an empty line. */
  function DocBlock(idx: nat, p: Scored, includeChildren: bool, fmt: real -> string): (lines: seq<string>)
    ensures |lines| == 3 + 2 * Shown(p, includeChildren)
  {
    [Header(idx, fmt(p.score)), p.node.text] + ChildLines(idx, p.node.children, Shown(p, includeChildren)) + [""]
  }

  /** The blocks of all documents, in order. */
  function DocBlocks(pairs: seq<Scored>, includeChildren: bool, fmt: real -> string): (bs: seq<seq<string>>)
    ensures |bs| == |pairs|
  {
    seq(|pairs|, i requires 0 <= i < |pairs| => DocBlock(i, pairs[i], includeChildren, fmt))
  }

  /** `context_parts`: the documents' blocks one after another. */
  function ContextLines(pairs: seq<Scored>, includeChildren: bool, fmt: real -> string): seq<string> {
    Flatten(DocBlocks(pairs, includeChildren, fmt))
  }

  /** The number of lines of a document: header, text and empty line, and two per shown child. */
  function Size(p: Scored, includeChildren: bool): nat {
    3 + 2 * Shown(p, includeChildren)
  }

  /** The line at which document `i` starts: the sizes of the documents before it, added up. */
  function Offset(pairs: seq<Scored>, i: nat, includeChildren: bool): nat
    requires i <= |pairs|
  {
    if i == 0 then 0 else Offset(pairs, i - 1, includeChildren) + Size(pairs[i - 1], includeChildren)
  }

  /** Child `c` of the shown ones contributes its sub-header, then its text indented by two spaces. */
  lemma {:induction false} ChildLinesSpec(idx: nat, children: seq<Node>, n: nat)
    requires n <= |children|
    ensures |ChildLines(idx, children, n)| == 2 * n
    ensures forall c :: 0 <= c < n ==>
              && ChildLines(idx, children, n)[2 * c] == SubHeader(idx, c)
              && ChildLines(idx, children, n)[2 * c + 1] == "  " + children[c].text
  {
    if n > 0 {
      ChildLinesSpec(idx, children, n - 1);
    }
  }

  /**
   * Document `idx` is its `[Document idx+1]` header and its text, then a sub-header and the
   * indented text of each shown child (at most 3, none unless children are asked for), then an
   * empty line.
   */
  lemma DocBlockSpec(idx: nat, p: Scored, includeChildren: bool, fmt: real -> string)
    ensures var b := DocBlock(idx, p, includeChildren, fmt);
            && |b| == Size(p, includeChildren)
            && b[0] == Header(idx, fmt(p.score)) && b[1] == p.node.text && b[|b| - 1] == ""
            && forall c :: 0 <= c < Shown(p, includeChildren) ==>
                 b[2 + 2 * c] == SubHeader(idx, c) && b[3 + 2 * c] == "  " + p.node.children[c].text
  {
    ChildLinesSpec(idx, p.node.children, Shown(p, includeChildren));
  }

  /** The blocks before document `i` take `Offset(i)` lines. */
  lemma {:induction false} OffsetSpec(pairs: seq<Scored>, i: nat, includeChildren: bool, fmt: real -> string)
    requires i <= |pairs|
    ensures |Flatten(DocBlocks(pairs, includeChildren, fmt)[..i])| == Offset(pairs, i, includeChildren)
  {
    if i > 0 {
      var bs := DocBlocks(pairs, includeChildren, fmt);
      OffsetSpec(pairs, i - 1, includeChildren, fmt);
      assert bs[..i][..i - 1] == bs[..i - 1];
      DocBlockSpec(i - 1, pairs[i - 1], includeChildren, fmt);
    }
  }

  /** Line `j` of document `i` is context line `Offset(i) + j`. */
  lemma BlockAt(pairs: seq<Scored>, i: nat, j: nat, includeChildren: bool, fmt: real -> string)
    requires i < |pairs| && j < Size(pairs[i], includeChildren)
    ensures Offset(pairs, i, includeChildren) + j < |ContextLines(pairs, includeChildren, fmt)|
    ensures ContextLines(pairs, includeChildren, fmt)[Offset(pairs, i, includeChildren) + j]
            == DocBlock(i, pairs[i], includeChildren, fmt)[j]
  {
    var bs := DocBlocks(pairs, includeChildren, fmt);
    var o := |Flatten(bs[..i])|;
    FlattenAt(bs, i);
    OffsetSpec(pairs, i, includeChildren, fmt);
    DocBlockSpec(i, pairs[i], includeChildren, fmt);
    assert Flatten(bs)[o..o + |bs[i]|][j] == bs[i][j];
  }

  /** There are `Offset(|pairs|)` context lines in all: three per document plus two per child shown. */
  lemma ContextLinesLength(pairs: seq<Scored>, includeChildren: bool, fmt: real -> string)
    ensures |ContextLines(pairs, includeChildren, fmt)| == Offset(pairs, |pairs|, includeChildren)
  {
    var bs := DocBlocks(pairs, includeChildren, fmt);
    OffsetSpec(pairs, |pairs|, includeChildren, fmt);
    assert bs[..|pairs|] == bs;
  }

  /** The parts one document adds: header, text, the shown children's lines, an empty line. */
  method DocParts(idx: nat, p: Scored, includeChildren: bool, fmt: real -> string) returns (lines: seq<string>)
    ensures lines == DocBlock(idx, p, includeChildren, fmt)
  {
    lines := [Header(idx, fmt(p.score)), p.node.text];
    var shown := if includeChildren && p.node.children != [] then Take(p.node.children, 3) else [];
    assert |shown| == Shown(p, includeChildren);
    for c := 0 to |shown|
      invariant lines == [Header(idx, fmt(p.score)), p.node.text] + ChildLines(idx, p.node.children, c)
    {
      assert shown[c] == p.node.children[c];
      lines := lines + [SubHeader(idx, c)];
      lines := lines + ["  " + shown[c].text];
    }
    lines := lines + [""];
  }

  /** The context parts of the retrieved pairs: the loops of `retrieve_with_context`. */
  method ContextParts(pairs: seq<Scored>, includeChildren: bool, fmt: real -> string) returns (parts: seq<string>)
    ensures parts == ContextLines(pairs, includeChildren, fmt)
  {
    ghost var bs := DocBlocks(pairs, includeChildren, fmt);
    parts := [];
    for idx := 0 to |pairs|
      invariant parts == Flatten(bs[..idx])
    {
      var lines := DocParts(idx, pairs[idx], includeChildren, fmt);
      assert bs[..idx + 1][..idx] == bs[..idx] && bs[..idx + 1][idx] == lines;
      parts := parts + lines;
    }
    assert bs[..|pairs|] == bs;
  }

  /**
   * `retrieve_with_context`: the strategy's pairs rendered as document blocks joined by newlines;
   * the method raises exactly when `retrieve` raises, with the same error.
   */
  method RetrieveWithContext(r: Retriever, tree: RaptorTree, query: string, name: string, k: Option<nat>,
                             includeChildren: bool, fmt: real -> string)
    returns (res: Result<string, Error>)
    requires tree.allNodes.Wf()
    ensures res.Err? <==> !KnownMethod(name) || (name == "collapsed_tree" && tree.allNodes.order == [])
    ensures !KnownMethod(name) ==> res == Err(UnknownMethod(name))
    ensures name == "tree_traversal" ==>
              var pairs := TreeTraversal(r, tree.rootNodes, query, ResolveK(r, k));
              res == Ok(Join("\n", ContextLines(pairs, includeChildren, fmt)))
    ensures name == "collapsed_tree" ==>
              var pairs := CollapsedTree(r, tree.allNodes.Values(), query, ResolveK(r, k));
              && (pairs.Err? ==> res == Err(pairs.error))
              && (pairs.Ok? ==> res == Ok(Join("\n", ContextLines(pairs.value, includeChildren, fmt))))
  {
    var retrieved := Retrieve(r, tree, query, name, k);
    if retrieved.Err? {
      return Err(retrieved.error);
    }
    var parts := ContextParts(retrieved.value, includeChildren, fmt);
    res := Ok(Join("\n", parts));
  }
}
