/** String helpers mirroring the Python `str` methods the core relies on (case mapping on ASCII letters only). */
module Text {

  /**
   * The characters for which Python's `str.isspace()` holds, which `str.strip()` removes and the
   * regex class `\s` matches: the ASCII controls tab to carriage return and file to unit
   * separator, the space, NEL, the no-break space, and the Unicode space and line separators.
   */
  predicate IsSpace(c: char) {
    || '\t' <= c <= '\r'
    || '\U{1c}' <= c <= ' '
    || c == '\U{0085}' || c == '\U{00a0}' || c == '\U{1680}'
    || '\U{2000}' <= c <= '\U{200a}'
    || c == '\U{2028}' || c == '\U{2029}' || c == '\U{202f}' || c == '\U{205f}' || c == '\U{3000}'
  }

  predicate IsDigit(c: char) { '0' <= c <= '9' }

  predicate IsUpper(c: char) { 'A' <= c <= 'Z' }

  predicate IsLower(c: char) { 'a' <= c <= 'z' }

  predicate IsLetter(c: char) { IsUpper(c) || IsLower(c) }

  predicate AllDigits(s: string) { forall i :: 0 <= i < |s| ==> IsDigit(s[i]) }

  /** `s.lstrip()`. */
  function LStrip(s: string): (r: string)
    ensures |r| <= |s|
  {
    if s == [] || !IsSpace(s[0]) then s else LStrip(s[1..])
  }

  /** `s.lstrip()` drops leading whitespace, and nothing else. */
  lemma {:induction false} LStripSpec(s: string)
    ensures |LStrip(s)| <= |s| && LStrip(s) == s[|s| - |LStrip(s)|..]
    ensures LStrip(s) == [] || !IsSpace(LStrip(s)[0])
    ensures forall i :: 0 <= i < |s| - |LStrip(s)| ==> IsSpace(s[i])
  {
    if s != [] && IsSpace(s[0]) {
      LStripSpec(s[1..]);
    }
  }

  /** `s.rstrip()`. */
  function RStrip(s: string): (r: string)
    ensures |r| <= |s|
  {
    if s == [] || !IsSpace(s[|s| - 1]) then s else RStrip(s[..|s| - 1])
  }

  /** `s.rstrip()` drops trailing whitespace, and nothing else. */
  lemma {:induction false} RStripSpec(s: string)
    ensures |RStrip(s)| <= |s| && RStrip(s) == s[..|RStrip(s)|]
    ensures RStrip(s) == [] || !IsSpace(RStrip(s)[|RStrip(s)| - 1])
    ensures forall i :: |RStrip(s)| <= i < |s| ==> IsSpace(s[i])
  {
    if s != [] && IsSpace(s[|s| - 1]) {
      RStripSpec(s[..|s| - 1]);
    }
  }

  /** Any prefix ending in a non-space and followed only by whitespace is `s.rstrip()`. */
  lemma RStripUnique(s: string, r: string)
    requires |r| <= |s| && r == s[..|r|]
    requires r == [] || !IsSpace(r[|r| - 1])
    requires forall i :: |r| <= i < |s| ==> IsSpace(s[i])
    ensures RStrip(s) == r
  {
    RStripSpec(s);
    var q := RStrip(s);
    assert r != [] ==> !IsSpace(s[|r| - 1]) by {
      if r != [] { assert s[|r| - 1] == r[|r| - 1]; }
    }
    assert q != [] ==> !IsSpace(s[|q| - 1]) by {
      if q != [] { assert s[|q| - 1] == q[|q| - 1]; }
    }
  }

  /** Dropping a prefix that stops short of the last non-space drops the same prefix of `s.rstrip()`. */
  lemma RStripDrop(s: string, d: nat)
    requires d < |RStrip(s)|
    ensures RStrip(s[d..]) == RStrip(s)[d..]
  {
    RStripSpec(s);
    var r := RStrip(s);
    var u := s[d..];
    assert r[d..] == u[..|r| - d];
    assert r[d..][|r| - d - 1] == r[|r| - 1];
    forall i | |r| - d <= i < |u| ensures IsSpace(u[i]) {
      assert u[i] == s[d + i];
    }
    RStripUnique(u, r[d..]);
  }

  /** `s.strip()`. */
  function Strip(s: string): string {
    LStrip(RStrip(s))
  }

  /** The number of whitespace characters `s.strip()` drops at the front of `s`. */
  function LeadingSpaces(s: string): nat {
    |RStrip(s)| - |LStrip(RStrip(s))|
  }

  /** `s` is `s.strip()` surrounded by whitespace only, and the result has none at either end. */
  lemma StripSpec(s: string)
    ensures Strip(s) == [] || (!IsSpace(Strip(s)[0]) && !IsSpace(Strip(s)[|Strip(s)| - 1]))
    ensures LeadingSpaces(s) + |Strip(s)| <= |s|
    ensures Strip(s) == s[LeadingSpaces(s)..LeadingSpaces(s) + |Strip(s)|]
    ensures forall i :: 0 <= i < LeadingSpaces(s) ==> IsSpace(s[i])
    ensures forall i :: LeadingSpaces(s) + |Strip(s)| <= i < |s| ==> IsSpace(s[i])
  {
    var t := RStrip(s);
    RStripSpec(s);
    LStripSpec(t);
    var r := LStrip(t);
    assert r == s[|t| - |r|..|t|];
    if r != [] {
      assert r[|r| - 1] == t[|t| - 1];
    }
  }

  /** The last character of `s.strip()`, when there is one, is the last non-space of `s`. */
  lemma StripLast(s: string)
    requires Strip(s) != []
    ensures |RStrip(s)| > 0 && Strip(s)[|Strip(s)| - 1] == s[|RStrip(s)| - 1]
  {
    var t := RStrip(s);
    RStripSpec(s);
    LStripSpec(t);
  }

  /** When `s` has a non-space, `s.strip()` is non-empty and ends with the last one. */
  lemma StripEndsWithLast(s: string)
    requires RStrip(s) != []
    ensures Strip(s) != [] && Strip(s)[|Strip(s)| - 1] == RStrip(s)[|RStrip(s)| - 1]
  {
    var t := RStrip(s);
    RStripSpec(s);
    LStripSpec(t);
    var l := LStrip(t);
    assert !IsSpace(t[|t| - 1]);
    assert l == t[|t| - |l|..];
  }

  /** Stripping the right end again changes nothing. */
  lemma RStripIdempotent(s: string)
    ensures RStrip(RStrip(s)) == RStrip(s)
  {
    RStripSpec(s);
    RStripUnique(RStrip(s), RStrip(s));
  }

  function LowerChar(c: char): char {
    if IsUpper(c) then (c as int + 32) as char else c
  }

  function UpperChar(c: char): char {
    if IsLower(c) then (c as int - 32) as char else c
  }

  /** `s.lower()` on ASCII letters. */
  function Lower(s: string): string {
    seq(|s|, i requires 0 <= i < |s| => LowerChar(s[i]))
  }

  /** `s.title()`: a letter after a non-letter is upper-cased, any other letter lower-cased. */
  function Title(s: string): string {
    seq(|s|, i requires 0 <= i < |s| =>
      if i == 0 || !IsLetter(s[i - 1]) then UpperChar(s[i]) else LowerChar(s[i]))
  }

  /** `s.replace(a, b)` for single characters. */
  function ReplaceChar(s: string, a: char, b: char): string {
    seq(|s|, i requires 0 <= i < |s| => if s[i] == a then b else s[i])
  }

  /** `key.replace("_", " ").title()`: a snake-case key as a heading. */
  function KeyTitle(key: string): string {
    Title(ReplaceChar(key, '_', ' '))
  }

  /** `kw in text` for strings: `kw` occurs as a substring of `text`. */
  predicate Contains(text: string, kw: string) {
    exists i | 0 <= i <= |text| - |kw| :: OccursAt(text, kw, i)
  }

  predicate OccursAt(text: string, kw: string, i: nat)
    requires i + |kw| <= |text|
  {
    text[i..i + |kw|] == kw
  }

  /** `sum(1 for kw in keywords if kw in text)`: each keyword counts once, however often it occurs. */
  function CountContained(keywords: seq<string>, text: string): (n: nat)
    ensures n <= |keywords|
    decreases |keywords|
  {
    if keywords == [] then 0
    else
      CountContained(keywords[..|keywords| - 1], text)
        + (if Contains(text, keywords[|keywords| - 1]) then 1 else 0)
  }

  /** The count is zero exactly when no keyword occurs, and full exactly when all do. */
  lemma {:induction false} CountContainedSpec(keywords: seq<string>, text: string)
    ensures CountContained(keywords, text) == 0 <==> forall k :: 0 <= k < |keywords| ==> !Contains(text, keywords[k])
    ensures CountContained(keywords, text) == |keywords| <==> forall k :: 0 <= k < |keywords| ==> Contains(text, keywords[k])
    decreases |keywords|
  {
    if keywords != [] {
      var init := keywords[..|keywords| - 1];
      CountContainedSpec(init, text);
      assert forall k :: 0 <= k < |init| ==> init[k] == keywords[k];
    }
  }

  /** `sep.join(parts)`. */
  function Join(sep: string, parts: seq<string>): string {
    if parts == [] then ""
    else if |parts| == 1 then parts[0]
    else parts[0] + sep + Join(sep, parts[1..])
  }

  lemma {:induction false} JoinSnoc(sep: string, parts: seq<string>, p: string)
    requires parts != []
    ensures Join(sep, parts + [p]) == Join(sep, parts) + sep + p
    decreases |parts|
  {
    if |parts| > 1 {
      assert (parts + [p])[1..] == parts[1..] + [p];
      JoinSnoc(sep, parts[1..], p);
    }
  }

  /** `s.split(sep)` for a one-character separator: the pieces between separators, empty ones included. */
  function Split(s: string, sep: char): (parts: seq<string>)
    ensures |parts| >= 1
    decreases |s|
  {
    if s == [] then [""]
    else
      var init := Split(s[..|s| - 1], sep);
      var c := s[|s| - 1];
      if c == sep then init + [""] else init[..|init| - 1] + [init[|init| - 1] + [c]]
  }

  /** Joining the pieces with the separator gives the text back. */
  lemma {:induction false} SplitJoin(s: string, sep: char)
    ensures Join([sep], Split(s, sep)) == s
    decreases |s|
  {
    if s != [] {
      var s' := s[..|s| - 1];
      var init := Split(s', sep);
      var c := s[|s| - 1];
      SplitJoin(s', sep);
      assert s == s' + [c];
      if c == sep {
        JoinSnoc([sep], init, "");
      } else {
        var front := init[..|init| - 1];
        var last := init[|init| - 1];
        assert init == front + [last];
        if front != [] {
          JoinSnoc([sep], front, last);
          JoinSnoc([sep], front, last + [c]);
        }
      }
    }
  }

  /** No piece holds the separator. */
  lemma {:induction false} SplitNoSep(s: string, sep: char)
    ensures forall k :: 0 <= k < |Split(s, sep)| ==> sep !in Split(s, sep)[k]
    decreases |s|
  {
    if s != [] {
      var s' := s[..|s| - 1];
      var init := Split(s', sep);
      var c := s[|s| - 1];
      SplitNoSep(s', sep);
      if c != sep {
        var parts := Split(s, sep);
        forall k | 0 <= k < |parts| ensures sep !in parts[k] {
          if k < |init| - 1 {
            assert parts[k] == init[k];
          }
        }
      }
    }
  }

  /** A separator followed by separator-free text adds that text as one more piece. */
  lemma {:induction false} SplitAfterSep(s: string, sep: char, p: string)
    requires sep !in p
    ensures Split(s + [sep] + p, sep) == Split(s, sep) + [p]
    decreases |p|
  {
    if p == [] {
      assert (s + [sep] + p)[..|s|] == s;
    } else {
      var q := p[..|p| - 1];
      var c := p[|p| - 1];
      SplitAfterSep(s, sep, q);
      assert s + [sep] + p == (s + [sep] + q) + [c];
      assert (s + [sep] + p)[..|s + [sep] + p| - 1] == s + [sep] + q;
      var init := Split(s, sep) + [q];
      assert init[..|init| - 1] == Split(s, sep);
      assert init[|init| - 1] + [c] == p;
    }
  }

  /** Splitting at the separator undoes joining with it, when no piece holds the separator. */
  lemma {:induction false} JoinSplit(parts: seq<string>, sep: char)
    requires parts != [] && forall k :: 0 <= k < |parts| ==> sep !in parts[k]
    ensures Split(Join([sep], parts), sep) == parts
    decreases |parts|
  {
    if |parts| == 1 {
      SplitNoSepWhole(parts[0], sep);
    } else {
      var init := parts[..|parts| - 1];
      var last := parts[|parts| - 1];
      JoinSplit(init, sep);
      assert parts == init + [last];
      JoinSnoc([sep], init, last);
      SplitAfterSep(Join([sep], init), sep, last);
    }
  }

  /** Text without the separator is one piece. */
  lemma {:induction false} SplitNoSepWhole(s: string, sep: char)
    requires sep !in s
    ensures Split(s, sep) == [s]
    decreases |s|
  {
    if s != [] {
      SplitNoSepWhole(s[..|s| - 1], sep);
      assert s[..|s| - 1] + [s[|s| - 1]] == s;
    }
  }

  function DigitChar(d: nat): char
    requires d < 10
  {
    (48 + d) as char
  }

  /** Python's `str(n)` for a natural number: its decimal digits. */
  function NatToString(n: nat): (r: string)
    ensures r != [] && AllDigits(r)
    decreases n
  {
    if n < 10 then [DigitChar(n)] else NatToString(n / 10) + [DigitChar(n % 10)]
  }

  /** `int(s)` for a string of decimal digits. */
  function ParseNat(s: string): nat
    requires AllDigits(s)
  {
    if s == [] then 0 else 10 * ParseNat(s[..|s| - 1]) + (s[|s| - 1] as int - 48)
  }

  /** Printing a number in decimal and reading it back gives the number. */
  lemma {:induction false} ParseNatToString(n: nat)
    ensures ParseNat(NatToString(n)) == n
    decreases n
  {
    var s := NatToString(n);
    if n >= 10 {
      ParseNatToString(n / 10);
      assert s[..|s| - 1] == NatToString(n / 10);
    }
  }

  /** Decimal printing is injective. */
  lemma NatToStringInjective(m: nat, n: nat)
    requires NatToString(m) == NatToString(n)
    ensures m == n
  {
    ParseNatToString(m);
    ParseNatToString(n);
  }

  /** The number of leading decimal digits of `s`. */
  function DigitPrefixLength(s: string): (r: nat)
    ensures r <= |s| && AllDigits(s[..r])
    ensures r < |s| ==> !IsDigit(s[r])
  {
    if s == [] || !IsDigit(s[0]) then 0
    else
      var r := 1 + DigitPrefixLength(s[1..]);
      assert s[..r] == [s[0]] + s[1..][..r - 1];
      r
  }

  /** The digit prefix of digits followed by a non-digit is exactly those digits. */
  lemma {:induction false} DigitPrefixOfConcat(d: string, rest: string)
    requires AllDigits(d)
    requires rest == [] || !IsDigit(rest[0])
    ensures DigitPrefixLength(d + rest) == |d|
  {
    if d != [] {
      assert (d + rest)[1..] == d[1..] + rest;
      DigitPrefixOfConcat(d[1..], rest);
    }
  }
}
