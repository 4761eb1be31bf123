/** Python built-ins on numbers and sequences that several modules share. */
module Basics {

  function Min(a: int, b: int): int { if a <= b then a else b }

  function Max(a: int, b: int): int { if a >= b then a else b }

  /** `[0, 1, ..., n - 1]`, i.e. `range(n)` or `np.arange(n)`. */
  function Range(n: nat): (r: seq<nat>)
    ensures |r| == n && forall i :: 0 <= i < n ==> r[i] == i
  {
    seq(n, i requires 0 <= i < n => i)
  }

  lemma RangeSnoc(n: nat)
    ensures Range(n + 1) == Range(n) + [n]
  {
    assert forall i :: 0 <= i < n + 1 ==> Range(n + 1)[i] == (Range(n) + [n])[i];
  }

  /** `s[:n]` for `n >= 0`. */
  function Take<T>(s: seq<T>, n: nat): (r: seq<T>)
    ensures |r| == Min(n, |s|) && r == s[..|r|]
  {
    if n <= |s| then s[..n] else s
  }

  /** `s[-n:]` for `n >= 0`: the last `n` items, and all of them when `n` is 0 (as `s[-0:]` is `s[0:]`). */
  function TakeLast<T>(s: seq<T>, n: nat): (r: seq<T>)
    ensures |r| == (if n == 0 then |s| else Min(n, |s|)) && r == s[|s| - |r|..]
  {
    if n == 0 || n >= |s| then s else s[|s| - n..]
  }

  /** `s[::-1]`. */
  function Reverse<T>(s: seq<T>): (r: seq<T>)
    ensures |r| == |s| && forall i :: 0 <= i < |s| ==> r[i] == s[|s| - 1 - i]
  {
    seq(|s|, i requires 0 <= i < |s| => s[|s| - 1 - i])
  }

  /** No item occurs twice. */
  predicate Distinct<T(==)>(s: seq<T>) {
    forall a, b :: 0 <= a < b < |s| ==> s[a] != s[b]
  }

  /** In a list without repeats every item occurs once. */
  lemma {:induction false} DistinctMultiset<T>(s: seq<T>)
    requires Distinct(s)
    ensures forall x :: multiset(s)[x] == if x in s then 1 else 0
    decreases |s|
  {
    if s != [] {
      var init := s[..|s| - 1];
      DistinctMultiset(init);
      assert s == init + [s[|s| - 1]];
    }
  }

  /** A list without repeats whose items are exactly `0 .. n - 1` has length `n`. */
  lemma DistinctRange(s: seq<nat>, n: nat)
    requires Distinct(s) && forall x: nat :: x in s <==> x < n
    ensures |s| == n
  {
    DistinctMultiset(s);
    DistinctMultiset(Range(n));
    forall x: nat ensures multiset(s)[x] == multiset(Range(n))[x] {
      if x < n {
        assert Range(n)[x] == x;
      }
    }
    assert multiset(s) == multiset(Range(n));
  }

  /** The lists of `ss` one after another, i.e. `[x for s in ss for x in s]`. */
  function Flatten<T>(ss: seq<seq<T>>): seq<T> {
    if ss == [] then [] else Flatten(ss[..|ss| - 1]) + ss[|ss| - 1]
  }

  lemma {:induction false} FlattenCons<T>(first: seq<T>, rest: seq<seq<T>>)
    ensures Flatten([first] + rest) == first + Flatten(rest)
    decreases |rest|
  {
    if rest == [] {
      assert [first] + rest == [first];
      assert [first][..0] == [];
    } else {
      var init := rest[..|rest| - 1];
      FlattenCons(first, init);
      assert ([first] + rest)[..|rest|] == [first] + init;
    }
  }

  lemma FlattenSnoc<T>(ss: seq<seq<T>>, s: seq<T>)
    ensures Flatten(ss + [s]) == Flatten(ss) + s
  {
    assert (ss + [s])[..|ss|] == ss;
  }

  lemma {:induction false} FlattenConcat<T>(xs: seq<seq<T>>, ys: seq<seq<T>>)
    ensures Flatten(xs + ys) == Flatten(xs) + Flatten(ys)
    decreases |ys|
  {
    if ys == [] {
      assert xs + ys == xs;
    } else {
      var init := ys[..|ys| - 1];
      var last := ys[|ys| - 1];
      FlattenConcat(xs, init);
      assert xs + ys == (xs + init) + [last];
      FlattenSnoc(xs + init, last);
      FlattenSnoc(init, last);
    }
  }

  /** Two lists without repeats and with no item in common make one list without repeats. */
  lemma DistinctConcat<T>(a: seq<T>, b: seq<T>)
    requires Distinct(a) && Distinct(b) && forall x :: x in a ==> x !in b
    ensures Distinct(a + b)
  {
    forall i, j | 0 <= i < j < |a + b| ensures (a + b)[i] != (a + b)[j] {
      if i < |a| && j >= |a| {
        assert (a + b)[i] in a && (a + b)[j] == b[j - |a|];
      }
    }
  }

  /** List `i` of `ss` sits in the flattened list right after the lists before it. */
  lemma {:induction false} FlattenAt<T>(ss: seq<seq<T>>, i: nat)
    requires i < |ss|
    ensures |Flatten(ss[..i])| + |ss[i]| <= |Flatten(ss)|
    ensures Flatten(ss)[|Flatten(ss[..i])|..|Flatten(ss[..i])| + |ss[i]|] == ss[i]
    decreases |ss|
  {
    var init := ss[..|ss| - 1];
    var o := |Flatten(ss[..i])|;
    if i < |ss| - 1 {
      FlattenAt(init, i);
      assert init[..i] == ss[..i];
      assert (Flatten(init) + ss[|ss| - 1])[o..o + |ss[i]|] == Flatten(init)[o..o + |ss[i]|];
    } else {
      assert ss[..i] == init;
    }
  }
}
