/**
 * The deterministic node ids of the tree builder: `leaf_<i>` for the i-th chunk and
 * `level_<L>_cluster_<j>` for the parent built from cluster j at level L.
 */
module NodeIds {
  import opened Wrappers
  import opened Text

  function LeafId(i: nat): string {
    "leaf_" + NatToString(i)
  }

  function ClusterId(level: nat, j: nat): string {
    "level_" + NatToString(level) + "_cluster_" + NatToString(j)
  }

  /** What a generated id encodes. */
  datatype NodeKey = LeafKey(index: nat) | ClusterKey(level: nat, index: nat)

  /** Reads an id back into what it encodes; `None` for ids the builder never generates. */
  function ParseId(k: string): Option<NodeKey> {
    if |k| > 5 && k[..5] == "leaf_" && AllDigits(k[5..]) then
      Some(LeafKey(ParseNat(k[5..])))
    else if |k| > 6 && k[..6] == "level_" then
      var rest := k[6..];
      var d := DigitPrefixLength(rest);
      if 0 < d && d + 9 < |rest| && rest[d..d + 9] == "_cluster_" && AllDigits(rest[d + 9..]) then
        Some(ClusterKey(ParseNat(rest[..d]), ParseNat(rest[d + 9..])))
      else None
    else None
  }

  lemma ParseLeafId(i: nat)
    ensures ParseId(LeafId(i)) == Some(LeafKey(i))
  {
    var k := LeafId(i);
    assert k[..5] == "leaf_";
    assert k[5..] == NatToString(i);
    ParseNatToString(i);
  }

  lemma ParseClusterId(level: nat, j: nat)
    ensures ParseId(ClusterId(level, j)) == Some(ClusterKey(level, j))
  {
    var k := ClusterId(level, j);
    var a, b := NatToString(level), NatToString(j);
    assert k[2] == 'v';
    assert k[..6] == "level_";
    var rest := k[6..];
    assert rest == a + ("_cluster_" + b);
    DigitPrefixOfConcat(a, "_cluster_" + b);
    assert rest[..|a|] == a;
    assert rest[|a|..|a| + 9] == "_cluster_";
    assert rest[|a| + 9..] == b;
    ParseNatToString(level);
    ParseNatToString(j);
  }

  /** Distinct chunks get distinct leaf ids. */
  lemma LeafIdInjective(i: nat, i': nat)
    ensures LeafId(i) == LeafId(i') <==> i == i'
  {
    ParseLeafId(i);
    ParseLeafId(i');
  }

  /** Distinct (level, cluster) pairs get distinct parent ids. */
  lemma ClusterIdInjective(level: nat, j: nat, level': nat, j': nat)
    ensures ClusterId(level, j) == ClusterId(level', j') <==> level == level' && j == j'
  {
    ParseClusterId(level, j);
    ParseClusterId(level', j');
  }

  /** A leaf id never collides with a parent id. */
  lemma LeafIdNotClusterId(i: nat, level: nat, j: nat)
    ensures LeafId(i) != ClusterId(level, j)
  {
    ParseLeafId(i);
    ParseClusterId(level, j);
  }

  /** The id of the `t`-th node of level `level`: a leaf id at level 0, a cluster id above. */
  function LevelId(level: nat, t: nat): string {
    if level == 0 then LeafId(t) else ClusterId(level, t)
  }

  /** Distinct (level, position) pairs get distinct ids. */
  lemma LevelIdInjective(level: nat, t: nat, level': nat, t': nat)
    ensures LevelId(level, t) == LevelId(level', t') <==> level == level' && t == t'
  {
    if level == 0 && level' == 0 {
      LeafIdInjective(t, t');
    } else if level == 0 {
      LeafIdNotClusterId(t, level', t');
    } else if level' == 0 {
      LeafIdNotClusterId(t', level, t);
    } else {
      ClusterIdInjective(level, t, level', t');
    }
  }
}
