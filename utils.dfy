/**
 * The helpers of `utils.py`: financial number formatting, greedy merging of similar chunks, and
 * text truncation.
 */
module Utils {
  import opened Wrappers
  import opened Basics
  import opened Text
  import opened Clustering

  // ---------------------------------------------------------------------------------------------
  // `format_financial_number`.

  /** The scale `format_financial_number` picks. */
  datatype Magnitude = Billions | Millions | Thousands | Units

  function MagnitudeOf(value: real): Magnitude {
    if value >= 1000000000.0 then Billions
    else if value >= 1000000.0 then Millions
    else if value >= 1000.0 then Thousands
    else Units
  }

  function Divisor(m: Magnitude): real {
    match m
    case Billions => 1000000000.0
    case Millions => 1000000.0
    case Thousands => 1000.0
    case Units => 1.0
  }

  function Letter(m: Magnitude): string {
    match m
    case Billions => "B"
    case Millions => "M"
    case Thousands => "K"
    case Units => ""
  }

  /** `format_financial_number(value, prefix, suffix)`, with `fmt` rendering a number as `:.2f` does. */
  function FormatFinancialNumber(value: real, prefix: string, suffix: string, fmt: real -> string): string {
    var m := MagnitudeOf(value);
    prefix + fmt(value / Divisor(m)) + Letter(m) + suffix
  }

  /**
   * The prefix comes first and the suffix last; the scale letter is "B" from 1e9, "M" from 1e6,
   * "K" from 1e3 and none below; and the number shown is the value in that scale, at least 1
   * whenever a letter is used and below 1000 unless the letter is "B".
   */
  lemma FormatFinancialNumberSpec(value: real, prefix: string, suffix: string, fmt: real -> string)
    ensures var r := FormatFinancialNumber(value, prefix, suffix, fmt);
            var m := MagnitudeOf(value);
            var shown := value / Divisor(m);
            && r == prefix + fmt(shown) + Letter(m) + suffix
            && (Letter(m) == "B" <==> value >= 1000000000.0)
            && (Letter(m) == "M" <==> 1000000.0 <= value < 1000000000.0)
            && (Letter(m) == "K" <==> 1000.0 <= value < 1000000.0)
            && (Letter(m) == "" <==> value < 1000.0)
            && shown * Divisor(m) == value
            && (m != Units ==> 1.0 <= shown)
            && (m != Billions ==> shown < 1000.0)
  {
  }

  // ---------------------------------------------------------------------------------------------
  // `merge_chunks_by_similarity`.

  /** A chunk dict: its text, its `chunk_id`, and `merged_from` once merged. */
  datatype ChunkRecord = ChunkRecord(text: string, chunkId: int, mergedFrom: Option<nat>)

  /**
   * The inputs of a merge: the chunks, their embeddings, the cosine similarity of two embeddings
   * (`calculate_similarity`) and the threshold.
   */
  datatype Merging = Merging(
    chunks: seq<ChunkRecord>,
    embeddings: seq<Embedding>,
    similarity: (Embedding, Embedding) -> real,
    threshold: real)
  {
    /** Every chunk has an embedding: what the seed loop reads once there are two chunks or more. */
    predicate Wf() {
      |chunks| <= |embeddings|
    }

    /** Chunk `j` is similar enough to seed `i`. */
    predicate Close(i: nat, j: nat)
      requires Wf() && i < |chunks| && j < |chunks|
    {
      similarity(embeddings[i], embeddings[j]) >= threshold
    }
  }

  /** The chunks after seed `i` and before `j` that join it: not yet used, and close to the seed. */
  function Joiners(mg: Merging, used: set<nat>, i: nat, j: nat): (js: seq<nat>)
    requires mg.Wf() && i < j <= |mg.chunks|
    ensures forall t :: 0 <= t < |js| ==> i < js[t] < j
    decreases j
  {
    if j == i + 1 then []
    else Joiners(mg, used, i, j - 1) + (if j - 1 !in used && mg.Close(i, j - 1) then [j - 1] else [])
  }

  /** The group seed `i` gathers: itself, then its joiners. */
  function Group(mg: Merging, used: set<nat>, i: nat): (grp: seq<nat>)
    requires mg.Wf() && i < |mg.chunks|
    ensures |grp| > 0 && grp[0] == i && Below(grp, |mg.chunks|)
  {
    [i] + Joiners(mg, used, i, |mg.chunks|)
  }

  /** The groups formed and the indices used after the seeds below `m`. */
  datatype Grouping = Grouping(groups: seq<seq<nat>>, used: set<nat>)

  /** Every index in `s` is below `n`. */
  predicate Below(s: seq<nat>, n: nat) {
    forall t :: 0 <= t < |s| ==> s[t] < n
  }

  /** Every group is non-empty and holds chunk indices. */
  predicate Shaped(gs: seq<seq<nat>>, n: nat) {
    forall k :: 0 <= k < |gs| ==> |gs[k]| > 0 && Below(gs[k], n)
  }

  /** The set of items of a list. */
  function Items(s: seq<nat>): set<nat> {
    set x | x in s
  }

  function GroupsUpTo(mg: Merging, m: nat): (g: Grouping)
    requires mg.Wf() && m <= |mg.chunks|
    decreases m
  {
    if m == 0 then Grouping([], {})
    else
      var g := GroupsUpTo(mg, m - 1);
      if m - 1 in g.used then g
      else
        var grp := Group(mg, g.used, m - 1);
        Grouping(g.groups + [grp], g.used + Items(grp))
  }

  /** The groups are non-empty lists of chunk indices. */
  lemma {:induction false} GroupsShaped(mg: Merging, m: nat)
    requires mg.Wf() && m <= |mg.chunks|
    ensures Shaped(GroupsUpTo(mg, m).groups, |mg.chunks|)
    decreases m
  {
    if m > 0 {
      GroupsShaped(mg, m - 1);
    }
  }

  /** The texts of the chunks at the given indices. */
  function TextsOf(chunks: seq<ChunkRecord>, idx: seq<nat>): (ts: seq<string>)
    requires Below(idx, |chunks|)
    ensures |ts| == |idx|
    decreases |idx|
  {
    if idx == [] then [] else TextsOf(chunks, idx[..|idx| - 1]) + [chunks[idx[|idx| - 1]].text]
  }

  /** The merged chunk of one group: the texts joined by blank lines, under the seed's id. */
  function MergedChunk(chunks: seq<ChunkRecord>, grp: seq<nat>): ChunkRecord
    requires |grp| > 0 && Below(grp, |chunks|)
  {
    ChunkRecord(Join("\n\n", TextsOf(chunks, grp)), chunks[grp[0]].chunkId, Some(|grp|))
  }

  function Render(chunks: seq<ChunkRecord>, groups: seq<seq<nat>>): (rs: seq<ChunkRecord>)
    requires Shaped(groups, |chunks|)
    ensures |rs| == |groups|
    decreases |groups|
  {
    if groups == [] then []
    else Render(chunks, groups[..|groups| - 1]) + [MergedChunk(chunks, groups[|groups| - 1])]
  }

  /** `merge_chunks_by_similarity`: fewer than two chunks come back as they are. */
  function MergeChunks(mg: Merging): seq<ChunkRecord>
    requires |mg.chunks| <= 1 || mg.Wf()
  {
    if |mg.chunks| <= 1 then mg.chunks
    else
      GroupsShaped(mg, |mg.chunks|);
      Render(mg.chunks, GroupsUpTo(mg, |mg.chunks|).groups)
  }

  /** The joiners of seed `i` below `j`: exactly the unused close chunks in between, ascending. */
  lemma JoinersSpec(mg: Merging, used: set<nat>, i: nat, j: nat)
    requires mg.Wf() && i < j <= |mg.chunks|
    ensures var js := Joiners(mg, used, i, j);
            && (forall x :: x in js <==> i < x < j && x !in used && mg.Close(i, x))
            && (forall a, b :: 0 <= a < b < |js| ==> js[a] < js[b])
  {
    JoinersMembers(mg, used, i, j);
    JoinersAscending(mg, used, i, j);
  }

  lemma {:induction false} JoinersMembers(mg: Merging, used: set<nat>, i: nat, j: nat)
    requires mg.Wf() && i < j <= |mg.chunks|
    ensures forall x :: x in Joiners(mg, used, i, j) <==> i < x < j && x !in used && mg.Close(i, x)
    decreases j
  {
    if j > i + 1 {
      JoinersMembers(mg, used, i, j - 1);
      var js0 := Joiners(mg, used, i, j - 1);
      var js := Joiners(mg, used, i, j);
      if j - 1 !in used && mg.Close(i, j - 1) {
        assert js == js0 + [j - 1];
        assert forall x :: x in js <==> x in js0 || x == j - 1;
      } else {
        assert js == js0;
      }
    }
  }

  lemma {:induction false} JoinersAscending(mg: Merging, used: set<nat>, i: nat, j: nat)
    requires mg.Wf() && i < j <= |mg.chunks|
    ensures Ascending(Joiners(mg, used, i, j))
    decreases j
  {
    if j > i + 1 {
      JoinersAscending(mg, used, i, j - 1);
      var js0 := Joiners(mg, used, i, j - 1);
      var e := if j - 1 !in used && mg.Close(i, j - 1) then [j - 1] else [];
      var js := js0 + e;
      assert Joiners(mg, used, i, j) == js;
      forall a, b | 0 <= a < b < |js| ensures js[a] < js[b] {
        assert js[a] == js0[a];
        if b < |js0| {
          assert js[b] == js0[b];
        }
      }
    }
  }

  /** A list in strictly ascending order. */
  predicate Ascending(s: seq<nat>) {
    forall a, b :: 0 <= a < b < |s| ==> s[a] < s[b]
  }

  /** A group ascends from its seed. */
  lemma GroupAscending(mg: Merging, used: set<nat>, i: nat)
    requires mg.Wf() && i < |mg.chunks|
    ensures Ascending(Group(mg, used, i))
  {
    JoinersSpec(mg, used, i, |mg.chunks|);
    var grp := Group(mg, used, i);
    forall a, b | 0 <= a < b < |grp| ensures grp[a] < grp[b] {
      if a > 0 {
        assert grp[a] == grp[1..][a - 1] && grp[b] == grp[1..][b - 1];
      }
    }
  }

  /** A group has no repeats. */
  lemma GroupDistinct(mg: Merging, used: set<nat>, i: nat)
    requires mg.Wf() && i < |mg.chunks|
    ensures Distinct(Group(mg, used, i))
  {
    GroupAscending(mg, used, i);
  }

  /** A group is exactly the seed and the unused chunks after it that are close to it. */
  lemma GroupMembers(mg: Merging, used: set<nat>, i: nat)
    requires mg.Wf() && i < |mg.chunks|
    ensures forall x :: x in Group(mg, used, i) <==> x == i || (i < x < |mg.chunks| && x !in used && mg.Close(i, x))
  {
    JoinersSpec(mg, used, i, |mg.chunks|);
  }

  /** A used seed leaves the grouping as it was. */
  lemma GroupsSkip(mg: Merging, m: nat)
    requires mg.Wf() && 0 < m <= |mg.chunks| && m - 1 in GroupsUpTo(mg, m - 1).used
    ensures GroupsUpTo(mg, m).groups == GroupsUpTo(mg, m - 1).groups
    ensures GroupsUpTo(mg, m).used == GroupsUpTo(mg, m - 1).used
  {
  }

  /** One seed step, either way. */
  lemma GroupsAdvance(mg: Merging, m: nat)
    requires mg.Wf() && 0 < m <= |mg.chunks|
    ensures var g, g' := GroupsUpTo(mg, m - 1), GroupsUpTo(mg, m);
            if m - 1 in g.used then g'.groups == g.groups && g'.used == g.used
            else g'.groups == g.groups + [Group(mg, g.used, m - 1)] && g'.used == g.used + Items(Group(mg, g.used, m - 1))
  {
  }

  /** A fresh seed appends its group and marks its members used. */
  lemma GroupsFresh(mg: Merging, m: nat)
    requires mg.Wf() && 0 < m <= |mg.chunks| && m - 1 !in GroupsUpTo(mg, m - 1).used
    ensures var g, g' := GroupsUpTo(mg, m - 1), GroupsUpTo(mg, m);
            var grp := Group(mg, g.used, m - 1);
            g'.groups == g.groups + [grp] && g'.used == g.used + Items(grp)
  {
  }

  /** A fresh seed's group extends the flattened groups. */
  lemma GroupsFlattenStep(mg: Merging, m: nat)
    requires mg.Wf() && 0 < m <= |mg.chunks| && m - 1 !in GroupsUpTo(mg, m - 1).used
    ensures var g := GroupsUpTo(mg, m - 1);
            Flatten(GroupsUpTo(mg, m).groups) == Flatten(g.groups) + Group(mg, g.used, m - 1)
  {
    var g := GroupsUpTo(mg, m - 1);
    FlattenSnoc(g.groups, Group(mg, g.used, m - 1));
  }

  /** An index is used exactly when it is in some group. */
  lemma {:induction false} GroupsUsedFlat(mg: Merging, m: nat)
    requires mg.Wf() && m <= |mg.chunks|
    ensures forall x :: x in GroupsUpTo(mg, m).used <==> x in Flatten(GroupsUpTo(mg, m).groups)
    decreases m
  {
    if m > 0 {
      GroupsUsedFlat(mg, m - 1);
      var g := GroupsUpTo(mg, m - 1);
      if m - 1 in g.used {
        GroupsSkip(mg, m);
      } else {
        GroupsFresh(mg, m);
        GroupsFlattenStep(mg, m);
        UsedFlatStep(g.used, Flatten(g.groups), Group(mg, g.used, m - 1));
      }
    }
  }

  /** Marking a group's items used keeps the used indices those of the flattened groups. */
  lemma UsedFlatStep(used: set<nat>, flat: seq<nat>, grp: seq<nat>)
    requires forall x :: x in used <==> x in flat
    ensures forall x :: x in used + Items(grp) <==> x in flat + grp
  {
  }

  /** The used indices are chunk indices. */
  lemma {:induction false} GroupsBelow(mg: Merging, m: nat)
    requires mg.Wf() && m <= |mg.chunks|
    ensures forall x :: x in GroupsUpTo(mg, m).used ==> x < |mg.chunks|
    decreases m
  {
    if m > 0 {
      GroupsBelow(mg, m - 1);
      GroupsAdvance(mg, m);
    }
  }

  /** Every index below `m` is used. */
  lemma {:induction false} GroupsCover(mg: Merging, m: nat)
    requires mg.Wf() && m <= |mg.chunks|
    ensures forall x: nat :: x < m ==> x in GroupsUpTo(mg, m).used
    decreases m
  {
    if m > 0 {
      GroupsCover(mg, m - 1);
      var g := GroupsUpTo(mg, m - 1);
      if m - 1 in g.used {
        GroupsSkip(mg, m);
      } else {
        GroupsFresh(mg, m);
        var grp := Group(mg, g.used, m - 1);
        assert grp[0] in grp;
        assert m - 1 in Items(grp);
      }
    }
  }

  /** A fresh seed's group shares no index with the groups before it. */
  lemma FreshGroupDisjoint(mg: Merging, m: nat)
    requires mg.Wf() && 0 < m <= |mg.chunks| && m - 1 !in GroupsUpTo(mg, m - 1).used
    ensures var g := GroupsUpTo(mg, m - 1);
            forall x :: x in Flatten(g.groups) ==> x !in Group(mg, g.used, m - 1)
  {
    var g := GroupsUpTo(mg, m - 1);
    var grp := Group(mg, g.used, m - 1);
    GroupMembers(mg, g.used, m - 1);
    GroupsUsedFlat(mg, m - 1);
  }

  /** A fresh seed's group keeps the flattened groups free of repeats. */
  lemma FreshGroupDistinct(mg: Merging, m: nat)
    requires mg.Wf() && 0 < m <= |mg.chunks| && m - 1 !in GroupsUpTo(mg, m - 1).used
    requires Distinct(Flatten(GroupsUpTo(mg, m - 1).groups))
    ensures Distinct(Flatten(GroupsUpTo(mg, m).groups))
  {
    var g := GroupsUpTo(mg, m - 1);
    var grp := Group(mg, g.used, m - 1);
    GroupDistinct(mg, g.used, m - 1);
    FreshGroupDisjoint(mg, m);
    DistinctConcat(Flatten(g.groups), grp);
    GroupsFlattenStep(mg, m);
  }

  /** No index is in two groups, or twice in one. */
  lemma {:induction false} GroupsDistinct(mg: Merging, m: nat)
    requires mg.Wf() && m <= |mg.chunks|
    ensures Distinct(Flatten(GroupsUpTo(mg, m).groups))
    decreases m
  {
    if m > 0 {
      GroupsDistinct(mg, m - 1);
      if m - 1 in GroupsUpTo(mg, m - 1).used {
        GroupsSkip(mg, m);
      } else {
        FreshGroupDistinct(mg, m);
      }
    }
  }

  /** The seeds are ascending and below `m`. */
  lemma {:induction false} GroupsSeeds(mg: Merging, m: nat)
    requires mg.Wf() && m <= |mg.chunks|
    ensures var gs := GroupsUpTo(mg, m).groups;
            && Shaped(gs, |mg.chunks|)
            && (forall k :: 0 <= k < |gs| ==> gs[k][0] < m)
            && (forall k, k' :: 0 <= k < k' < |gs| ==> gs[k][0] < gs[k'][0])
    decreases m
  {
    GroupsShaped(mg, m);
    if m > 0 {
      GroupsSeeds(mg, m - 1);
      GroupsAdvance(mg, m);
    }
  }

  /** Each group ascends from its seed. */
  lemma {:induction false} GroupsAscending(mg: Merging, m: nat)
    requires mg.Wf() && m <= |mg.chunks|
    ensures var gs := GroupsUpTo(mg, m).groups;
            forall k :: 0 <= k < |gs| ==> Ascending(gs[k])
    decreases m
  {
    if m > 0 {
      var g := GroupsUpTo(mg, m - 1);
      GroupsAscending(mg, m - 1);
      if m - 1 in g.used {
        GroupsSkip(mg, m);
      } else {
        GroupsFresh(mg, m);
        GroupAscending(mg, g.used, m - 1);
      }
    }
  }

  /** Whether `x` belongs in group `k` by the merge rule: the seed, or a later, unclaimed, close chunk. */
  predicate Belongs(mg: Merging, gs: seq<seq<nat>>, k: nat, x: nat)
    requires mg.Wf() && k < |gs| && Shaped(gs, |mg.chunks|)
  {
    x == gs[k][0] || (gs[k][0] < x < |mg.chunks| && x !in Flatten(gs[..k]) && mg.Close(gs[k][0], x))
  }

  /** Group `k` holds exactly the chunks that belong there. */
  ghost predicate MembersOk(mg: Merging, gs: seq<seq<nat>>, k: nat)
    requires mg.Wf() && k < |gs| && Shaped(gs, |mg.chunks|)
  {
    forall x: nat :: x in gs[k] <==> Belongs(mg, gs, k, x)
  }

  /** Appending a group leaves the earlier groups' membership as it was. */
  lemma MembersPrefix(mg: Merging, gs: seq<seq<nat>>, grp: seq<nat>, k: nat)
    requires mg.Wf() && k < |gs| && Shaped(gs, |mg.chunks|) && Shaped(gs + [grp], |mg.chunks|)
    requires MembersOk(mg, gs, k)
    ensures MembersOk(mg, gs + [grp], k)
  {
    assert (gs + [grp])[k] == gs[k] && (gs + [grp])[..k] == gs[..k];
  }

  /** Appending a fresh seed's group keeps the groups non-empty lists of chunk indices. */
  lemma FreshShaped(mg: Merging, m: nat)
    requires mg.Wf() && 0 < m <= |mg.chunks|
    ensures var g := GroupsUpTo(mg, m - 1);
            Shaped(g.groups + [Group(mg, g.used, m - 1)], |mg.chunks|)
  {
    var g := GroupsUpTo(mg, m - 1);
    var gs := g.groups + [Group(mg, g.used, m - 1)];
    GroupsShaped(mg, m - 1);
    forall k | 0 <= k < |gs| ensures |gs[k]| > 0 && Below(gs[k], |mg.chunks|) {
      if k < |g.groups| {
        assert gs[k] == g.groups[k];
      }
    }
  }

  /** In the last group, membership by the merge rule reads off its seed and the indices used before it. */
  lemma BelongsLast(mg: Merging, gs: seq<seq<nat>>, used: set<nat>, x: nat)
    requires mg.Wf() && gs != [] && Shaped(gs, |mg.chunks|)
    requires forall y :: y in used <==> y in Flatten(gs[..|gs| - 1])
    ensures var seed := gs[|gs| - 1][0];
            Belongs(mg, gs, |gs| - 1, x) <==> x == seed || (seed < x < |mg.chunks| && x !in used && mg.Close(seed, x))
  {
  }

  /** The group of a fresh seed holds exactly the chunks that belong there. */
  lemma MembersFresh(mg: Merging, m: nat)
    requires mg.Wf() && 0 < m <= |mg.chunks| && m - 1 !in GroupsUpTo(mg, m - 1).used
    ensures var g := GroupsUpTo(mg, m - 1);
            var gs := g.groups + [Group(mg, g.used, m - 1)];
            Shaped(gs, |mg.chunks|) && MembersOk(mg, gs, |g.groups|)
  {
    var g := GroupsUpTo(mg, m - 1);
    var grp := Group(mg, g.used, m - 1);
    FreshShaped(mg, m);
    GroupMembers(mg, g.used, m - 1);
    GroupsUsedFlat(mg, m - 1);
    MembersLast(mg, g.groups, g.used, grp);
  }

  /** A last group made of its seed and the unused chunks after it that are close to it holds
    * exactly the chunks that belong there. */
  lemma MembersLast(mg: Merging, gs0: seq<seq<nat>>, used: set<nat>, grp: seq<nat>)
    requires mg.Wf() && |grp| > 0 && Shaped(gs0 + [grp], |mg.chunks|)
    requires forall y :: y in used <==> y in Flatten(gs0)
    requires forall x :: x in grp <==> x == grp[0] || (grp[0] < x < |mg.chunks| && x !in used && mg.Close(grp[0], x))
    ensures MembersOk(mg, gs0 + [grp], |gs0|)
  {
    var gs := gs0 + [grp];
    assert gs[..|gs0|] == gs0;
    forall x: nat ensures x in grp <==> Belongs(mg, gs, |gs0|, x) {
      BelongsLast(mg, gs, used, x);
    }
  }

  /** A fresh seed's group belongs by the merge rule, and the earlier groups still do. */
  lemma MembersAppend(mg: Merging, m: nat)
    requires mg.Wf() && 0 < m <= |mg.chunks| && m - 1 !in GroupsUpTo(mg, m - 1).used
    requires var gs := GroupsUpTo(mg, m - 1).groups;
             Shaped(gs, |mg.chunks|) && forall k :: 0 <= k < |gs| ==> MembersOk(mg, gs, k)
    ensures var g := GroupsUpTo(mg, m - 1);
            var gs := g.groups + [Group(mg, g.used, m - 1)];
            Shaped(gs, |mg.chunks|) && forall k :: 0 <= k < |gs| ==> MembersOk(mg, gs, k)
  {
    var g := GroupsUpTo(mg, m - 1);
    var grp := Group(mg, g.used, m - 1);
    MembersFresh(mg, m);
    forall k | 0 <= k < |g.groups| ensures MembersOk(mg, g.groups + [grp], k) {
      MembersPrefix(mg, g.groups, grp, k);
    }
  }

  /** A chunk is in a group exactly when it belongs there by the merge rule. */
  lemma {:induction false} GroupsMembers(mg: Merging, m: nat)
    requires mg.Wf() && m <= |mg.chunks|
    ensures var gs := GroupsUpTo(mg, m).groups;
            Shaped(gs, |mg.chunks|) && forall k :: 0 <= k < |gs| ==> MembersOk(mg, gs, k)
    decreases m
  {
    GroupsShaped(mg, m);
    if m > 0 {
      GroupsMembers(mg, m - 1);
      if m - 1 in GroupsUpTo(mg, m - 1).used {
        GroupsSkip(mg, m);
      } else {
        GroupsFresh(mg, m);
        MembersAppend(mg, m);
      }
    }
  }

  /** The `merged_from` counts of merged chunks. */
  function SumMergedFrom(rs: seq<ChunkRecord>): nat
    decreases |rs|
  {
    if rs == [] then 0
    else SumMergedFrom(rs[..|rs| - 1]) + (if rs[|rs| - 1].mergedFrom.Some? then rs[|rs| - 1].mergedFrom.value else 0)
  }

  lemma {:induction false} RenderCounts(chunks: seq<ChunkRecord>, groups: seq<seq<nat>>)
    requires Shaped(groups, |chunks|)
    ensures SumMergedFrom(Render(chunks, groups)) == |Flatten(groups)|
    decreases |groups|
  {
    if groups != [] {
      var init := groups[..|groups| - 1];
      RenderCounts(chunks, init);
      assert Render(chunks, groups)[..|groups| - 1] == Render(chunks, init);
    }
  }

  lemma RenderSnoc(chunks: seq<ChunkRecord>, groups: seq<seq<nat>>, grp: seq<nat>)
    requires Shaped(groups, |chunks|) && |grp| > 0 && Below(grp, |chunks|) && Shaped(groups + [grp], |chunks|)
    ensures Render(chunks, groups + [grp]) == Render(chunks, groups) + [MergedChunk(chunks, grp)]
  {
    assert (groups + [grp])[..|groups|] == groups;
  }

  lemma {:induction false} RenderAt(chunks: seq<ChunkRecord>, groups: seq<seq<nat>>, k: nat)
    requires Shaped(groups, |chunks|) && k < |groups|
    ensures Render(chunks, groups)[k] == MergedChunk(chunks, groups[k])
    decreases |groups|
  {
    if k < |groups| - 1 {
      RenderAt(chunks, groups[..|groups| - 1], k);
    }
  }

  /**
   * With two chunks or more, every chunk index lands in exactly one group, so the `merged_from`
   * counts add up to the number of chunks; fewer chunks come back unchanged.
   */
  lemma MergeChunksPartition(mg: Merging)
    requires |mg.chunks| <= 1 || mg.Wf()
    ensures |mg.chunks| <= 1 ==> MergeChunks(mg) == mg.chunks
    ensures |mg.chunks| > 1 ==>
              var gs := GroupsUpTo(mg, |mg.chunks|).groups;
              && Distinct(Flatten(gs))
              && (forall x: nat :: x in Flatten(gs) <==> x < |mg.chunks|)
              && |MergeChunks(mg)| == |gs|
              && SumMergedFrom(MergeChunks(mg)) == |mg.chunks|
  {
    var n := |mg.chunks|;
    if n > 1 {
      var gs := GroupsUpTo(mg, n).groups;
      GroupsUsedFlat(mg, n);
      GroupsBelow(mg, n);
      GroupsCover(mg, n);
      GroupsDistinct(mg, n);
      DistinctRange(Flatten(gs), n);
      GroupsShaped(mg, n);
      RenderCounts(mg.chunks, gs);
    }
  }

  /**
   * With two chunks or more, merged chunk `k` joins the texts of group `k` by blank lines under
   * the seed's `chunk_id`, with `merged_from` the group's size; the seeds ascend, each group
   * ascends from its seed, and a chunk is in a group exactly when it belongs there by the merge
   * rule (only the seed is compared, not the other members).
   */
  lemma MergeChunksGroups(mg: Merging)
    requires mg.Wf() && |mg.chunks| > 1
    ensures var gs := GroupsUpTo(mg, |mg.chunks|).groups;
            && Shaped(gs, |mg.chunks|)
            && |MergeChunks(mg)| == |gs|
            && (forall k :: 0 <= k < |gs| ==> MergeChunks(mg)[k] == MergedChunk(mg.chunks, gs[k]))
            && (forall k, k' :: 0 <= k < k' < |gs| ==> gs[k][0] < gs[k'][0])
            && (forall k :: 0 <= k < |gs| ==> Ascending(gs[k]))
            && (forall k :: 0 <= k < |gs| ==> MembersOk(mg, gs, k))
  {
    var n := |mg.chunks|;
    var gs := GroupsUpTo(mg, n).groups;
    GroupsShaped(mg, n);
    GroupsSeeds(mg, n);
    GroupsAscending(mg, n);
    GroupsMembers(mg, n);
    forall k | 0 <= k < |gs| ensures MergeChunks(mg)[k] == MergedChunk(mg.chunks, gs[k]) {
      RenderAt(mg.chunks, gs, k);
    }
  }

  /** A chunk already used, or not close to the seed, leaves the joiners as they are. */
  lemma GatherSkip(mg: Merging, used0: set<nat>, i: nat, j: nat)
    requires mg.Wf() && i < j < |mg.chunks|
    requires j in used0 + Items([i] + Joiners(mg, used0, i, j)) || !mg.Close(i, j)
    ensures Joiners(mg, used0, i, j + 1) == Joiners(mg, used0, i, j)
  {
    var js := Joiners(mg, used0, i, j);
    forall x | x in [i] + js ensures x < j {
      if x != i {
        assert x in js;
      }
    }
    assert j !in Items([i] + js);
  }

  /** An unused chunk close to the seed joins its group: one more index, text and used index. */
  lemma GatherJoin(mg: Merging, used0: set<nat>, i: nat, j: nat)
    requires mg.Wf() && i < j < |mg.chunks|
    requires j !in used0 + Items([i] + Joiners(mg, used0, i, j)) && mg.Close(i, j)
    ensures var js, js' := Joiners(mg, used0, i, j), Joiners(mg, used0, i, j + 1);
            && js' == js + [j]
            && TextsOf(mg.chunks, [i] + js') == TextsOf(mg.chunks, [i] + js) + [mg.chunks[j].text]
            && used0 + Items([i] + js') == used0 + Items([i] + js) + {j}
  {
    var js := Joiners(mg, used0, i, j);
    var idx := [i] + js + [j];
    assert [i] + (js + [j]) == idx;
    assert idx[..|idx| - 1] == [i] + js;
    assert TextsOf(mg.chunks, idx) == TextsOf(mg.chunks, [i] + js) + [mg.chunks[j].text];
    assert Items(idx) == Items([i] + js) + {j};
  }

  /** The inner loop of `merge_chunks_by_similarity`: seed `i` gathers every later unused close chunk. */
  method GatherGroup(mg: Merging, used0: set<nat>, i: nat) returns (texts: seq<string>, used: set<nat>)
    requires mg.Wf() && i < |mg.chunks| && i !in used0
    ensures texts == TextsOf(mg.chunks, Group(mg, used0, i))
    ensures used == used0 + Items(Group(mg, used0, i))
  {
    texts := [mg.chunks[i].text];
    used := used0 + {i};
    ghost var js: seq<nat> := [];
    for j: nat := i + 1 to |mg.chunks|
      invariant js == Joiners(mg, used0, i, j)
      invariant texts == TextsOf(mg.chunks, [i] + js)
      invariant used == used0 + Items([i] + js)
    {
      if j in used {
        GatherSkip(mg, used0, i, j);
        continue;
      }
      var sim := mg.similarity(mg.embeddings[i], mg.embeddings[j]);
      if sim >= mg.threshold {
        GatherJoin(mg, used0, i, j);
        texts := texts + [mg.chunks[j].text];
        used := used + {j};
        js := js + [j];
      } else {
        GatherSkip(mg, used0, i, j);
      }
    }
  }

  /** A fresh seed adds its group to the used indices and its merged chunk to the rendered list. */
  lemma MergeStep(mg: Merging, i: nat)
    requires mg.Wf() && i < |mg.chunks| && i !in GroupsUpTo(mg, i).used
    ensures var g, g' := GroupsUpTo(mg, i), GroupsUpTo(mg, i + 1);
            && Shaped(g.groups, |mg.chunks|) && Shaped(g'.groups, |mg.chunks|)
            && g'.used == g.used + Items(Group(mg, g.used, i))
            && Render(mg.chunks, g'.groups) == Render(mg.chunks, g.groups) + [MergedChunk(mg.chunks, Group(mg, g.used, i))]
  {
    var g := GroupsUpTo(mg, i);
    GroupsFresh(mg, i + 1);
    GroupsShaped(mg, i);
    GroupsShaped(mg, i + 1);
    RenderSnoc(mg.chunks, g.groups, Group(mg, g.used, i));
  }

  /** A used seed changes nothing. */
  lemma MergeSkip(mg: Merging, i: nat)
    requires mg.Wf() && i < |mg.chunks| && i in GroupsUpTo(mg, i).used
    ensures GroupsUpTo(mg, i + 1).groups == GroupsUpTo(mg, i).groups
    ensures GroupsUpTo(mg, i + 1).used == GroupsUpTo(mg, i).used
  {
    GroupsSkip(mg, i + 1);
  }

  /** One turn of the seed loop: a used seed is skipped, a fresh one gathers and merges its group. */
  method MergeSeed(mg: Merging, i: nat, used0: set<nat>, merged0: seq<ChunkRecord>)
    returns (used: set<nat>, merged: seq<ChunkRecord>)
    requires mg.Wf() && i < |mg.chunks|
    requires used0 == GroupsUpTo(mg, i).used && Shaped(GroupsUpTo(mg, i).groups, |mg.chunks|)
    requires merged0 == Render(mg.chunks, GroupsUpTo(mg, i).groups)
    ensures used == GroupsUpTo(mg, i + 1).used && Shaped(GroupsUpTo(mg, i + 1).groups, |mg.chunks|)
    ensures merged == Render(mg.chunks, GroupsUpTo(mg, i + 1).groups)
  {
    if i in used0 {
      MergeSkip(mg, i);
      return used0, merged0;
    }
    MergeStep(mg, i);
    var texts;
    texts, used := GatherGroup(mg, used0, i);
    var count: nat := |texts|;
    merged := merged0 + [ChunkRecord(Join("\n\n", texts), mg.chunks[i].chunkId, Some(count))];
  }

  /** `merge_chunks_by_similarity`: fewer than two chunks come back before any embedding is read. */
  method MergeChunksBySimilarity(mg: Merging) returns (merged: seq<ChunkRecord>)
    requires |mg.chunks| <= 1 || mg.Wf()
    ensures merged == MergeChunks(mg)
  {
    if |mg.chunks| <= 1 {
      return mg.chunks;
    }
    merged := MergeSeeds(mg);
  }

  /** The seed loop of `merge_chunks_by_similarity`, over two chunks or more. */
  method MergeSeeds(mg: Merging) returns (merged: seq<ChunkRecord>)
    requires mg.Wf() && |mg.chunks| > 1
    ensures merged == MergeChunks(mg)
  {
    var n := |mg.chunks|;
    merged := [];
    var used: set<nat> := {};
    for i := 0 to n
      invariant used == GroupsUpTo(mg, i).used && Shaped(GroupsUpTo(mg, i).groups, n)
      invariant merged == Render(mg.chunks, GroupsUpTo(mg, i).groups)
    {
      used, merged := MergeSeed(mg, i, used, merged);
    }
  }

  // ---------------------------------------------------------------------------------------------
  // `truncate_text`.

  /** Python's `s[:e]` for any integer `e`: a negative end counts from the back. */
  function SliceTo<T>(s: seq<T>, e: int): (r: seq<T>)
    ensures |r| == if e >= 0 then Min(e, |s|) else Max(0, |s| + e)
    ensures r == s[..|r|]
  {
    if e >= 0 then Take(s, e) else if |s| + e <= 0 then [] else s[..|s| + e]
  }

  /** `truncate_text(text, max_length, suffix)`. */
  function TruncateText(text: string, maxLength: int, suffix: string): string {
    if |text| <= maxLength then text else SliceTo(text, maxLength - |suffix|) + suffix
  }

  /**
   * A text within the limit comes back unchanged; a longer one becomes a prefix of itself
   * followed by the suffix, exactly `max_length` long when the suffix fits in the limit.
   */
  lemma TruncateTextSpec(text: string, maxLength: int, suffix: string)
    ensures var r := TruncateText(text, maxLength, suffix);
            && (|text| <= maxLength ==> r == text)
            && (|text| > maxLength ==>
                  && |r| >= |suffix|
                  && r[|r| - |suffix|..] == suffix
                  && r[..|r| - |suffix|] == text[..|r| - |suffix|]
                  && (|suffix| <= maxLength ==> |r| == maxLength))
  {
    if |text| > maxLength {
      var r := TruncateText(text, maxLength, suffix);
      var p := SliceTo(text, maxLength - |suffix|);
      assert r == p + suffix;
      assert r[..|p|] == p;
    }
  }

  /**
   * A limit shorter than the suffix does not bound the result: the slice end goes negative and
   * counts from the back, so ten characters truncated to 2 with "..." keep nine of them.
   */
  lemma TruncateTextShortLimit()
    ensures TruncateText("abcdefghij", 2, "...") == "abcdefghi..."
  {
    assert SliceTo("abcdefghij", -1) == "abcdefghi";
  }
}
