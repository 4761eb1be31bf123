/**
 * `FilteredDocumentParser` (`utils/filtered_parser.py`): the sections it extracts, the
 * consolidation of the matched page content into per-section item lists without repeats, the
 * plain-text and Markdown renderings of the result, and its statistics.
 *
 * The regular expressions (page splitting, section matching, the "not found" filter) are taken as
 * given functions in an `Extraction`; everything after a match is modelled.
 */
module FilteredParser {
  import opened Wrappers
  import opened Basics
  import opened Text

  /** The nine sections extracted by default; `section_patterns` has exactly these keys, in this order. */
  const DefaultSections: seq<string> := [
    "board_of_directors_changes",
    "projects_and_initiatives",
    "ai_and_digital_initiatives",
    "government_programs",
    "investments_and_capex",
    "corporate_actions",
    "employee_information",
    "operational_metrics",
    "corporate_governance"
  ]

  /** The default section names are pairwise different. */
  lemma DefaultSectionsDistinct()
    ensures |DefaultSections| == 9 && Distinct(DefaultSections)
  {
    var d := DefaultSections;
    forall i, j | 0 <= i < j < |d| ensures d[i] != d[j] {
      assert |d[5]| != |d[8]|;
      if i != 5 || j != 8 {
        assert d[i][0] != d[j][0] || |d[i]| != |d[j]|;
      }
    }
  }

  /** The parser's configuration: the sections to extract and the keys of `section_patterns`, in
    * order (the keys of a dictionary, so without repeats). */
  datatype Parser = Parser(sectionsToExtract: seq<string>, patternKeys: seq<string>)

  /** `FilteredDocumentParser(sections_to_extract)`: both `None` and `[]` select the defaults. */
  function NewParser(sections: Option<seq<string>>): (p: Parser)
    ensures p.sectionsToExtract != []
    ensures sections.Some? && sections.value != [] ==> p.sectionsToExtract == sections.value
    ensures sections.None? || sections.value == [] ==> p.sectionsToExtract == DefaultSections
    ensures p.patternKeys == DefaultSections && Distinct(p.patternKeys)
  {
    DefaultSectionsDistinct();
    Parser(if sections.Some? && sections.value != [] then sections.value else DefaultSections, DefaultSections)
  }

  /**
   * The regular-expression steps: `split` cuts the raw text into page chunks, `find(chunk, key)`
   * is the text between section `key`'s header and the next header (`None` when the header does
   * not occur in the chunk), and `filler(line)` says a line is a "not found" statement.
   */
  datatype Extraction = Extraction(
    split: string -> seq<string>,
    find: (string, string) -> Option<string>,
    filler: string -> bool)

  // ---------------------------------------------------------------------------------------------
  // Items of a section

  predicate IsBullet(c: char) { c == '-' || c == '•' || c == '*' }

  /** `re.sub(r'^[-•*]\s*', '', line)`: one leading bullet and the whitespace after it go. */
  function RemoveBullet(line: string): string {
    if |line| > 0 && IsBullet(line[0]) then LStrip(line[1..]) else line
  }

  /** An item as the parser stores it: non-empty, with no whitespace at either end. */
  predicate Trimmed(s: string) {
    s != [] && !IsSpace(s[0]) && !IsSpace(s[|s| - 1])
  }

  predicate AllTrimmed(s: seq<string>) {
    forall k :: 0 <= k < |s| ==> Trimmed(s[k])
  }

  /** Removing the bullet of a line with no whitespace at either end leaves an item or nothing. */
  lemma RemoveBulletTrimmed(line: string)
    requires Trimmed(line)
    ensures RemoveBullet(line) == [] || Trimmed(RemoveBullet(line))
    ensures !IsBullet(line[0]) ==> RemoveBullet(line) == line
  {
    if IsBullet(line[0]) {
      var t := line[1..];
      LStripSpec(t);
      var r := LStrip(t);
      if r != [] {
        assert r[|r| - 1] == t[|t| - 1] == line[|line| - 1];
      }
    }
  }

  /** The item one content line yields: stripped, not a filler statement, bullet removed, non-empty. */
  function CleanLine(ex: Extraction, line: string): Option<string> {
    var l := Strip(line);
    if l == "" || ex.filler(l) then None
    else
      var item := RemoveBullet(l);
      if item == "" then None else Some(item)
  }

  /** The items of a chunk's content lines, in order. */
  function CleanLines(ex: Extraction, lines: seq<string>): seq<string>
    decreases |lines|
  {
    if lines == [] then []
    else
      var init := CleanLines(ex, lines[..|lines| - 1]);
      match CleanLine(ex, lines[|lines| - 1])
      case Some(item) => init + [item]
      case None => init
  }

  /** The items section `key` yields from one chunk: nothing for a blank chunk, a key without a
    * pattern, a section not extracted, a header not found or empty content. */
  function ChunkItems(ex: Extraction, p: Parser, chunk: string, key: string): seq<string> {
    if Strip(chunk) == "" || key !in p.patternKeys || key !in p.sectionsToExtract then []
    else match ex.find(chunk, key)
      case None => []
      case Some(raw) =>
        var content := Strip(raw);
        if content == "" then [] else CleanLines(ex, Split(content, '\n'))
  }

  /** The items of section `key` across the chunks, chunk by chunk, repeats included. */
  function SectionItems(ex: Extraction, p: Parser, chunks: seq<string>, key: string): seq<string>
    decreases |chunks|
  {
    if chunks == [] then []
    else SectionItems(ex, p, chunks[..|chunks| - 1], key) + ChunkItems(ex, p, chunks[|chunks| - 1], key)
  }

  /** Every item a content line yields is trimmed and differs from the stripped line at most by a
    * leading bullet and the whitespace after it. */
  lemma CleanLineTrimmed(ex: Extraction, line: string)
    ensures CleanLine(ex, line).Some? <==>
      Strip(line) != "" && !ex.filler(Strip(line)) && RemoveBullet(Strip(line)) != ""
    ensures CleanLine(ex, line).Some? ==>
      Trimmed(CleanLine(ex, line).value) && CleanLine(ex, line).value == RemoveBullet(Strip(line))
  {
    var l := Strip(line);
    if l != "" {
      StripSpec(line);
      RemoveBulletTrimmed(l);
    }
  }

  lemma {:induction false} CleanLinesTrimmed(ex: Extraction, lines: seq<string>)
    ensures AllTrimmed(CleanLines(ex, lines))
    decreases |lines|
  {
    if lines != [] {
      CleanLinesTrimmed(ex, lines[..|lines| - 1]);
      CleanLineTrimmed(ex, lines[|lines| - 1]);
    }
  }

  /** No item contains a line break: items come from content split at line breaks. */
  lemma {:induction false} CleanLinesSingleLine(ex: Extraction, content: string)
    ensures forall k :: 0 <= k < |CleanLines(ex, Split(content, '\n'))| ==>
      '\n' !in CleanLines(ex, Split(content, '\n'))[k]
  {
    var lines := Split(content, '\n');
    SplitNoSep(content, '\n');
    CleanLinesFrom(ex, lines);
  }

  /** Cleaning a line never adds a character, so line-free lines give line-free items. */
  lemma {:induction false} CleanLinesFrom(ex: Extraction, lines: seq<string>)
    requires forall k :: 0 <= k < |lines| ==> '\n' !in lines[k]
    ensures forall k :: 0 <= k < |CleanLines(ex, lines)| ==> '\n' !in CleanLines(ex, lines)[k]
    decreases |lines|
  {
    if lines != [] {
      var init := lines[..|lines| - 1];
      var line := lines[|lines| - 1];
      CleanLinesFrom(ex, init);
      CleanLineFrom(ex, line);
      var items := CleanLines(ex, init);
      var r := CleanLine(ex, line);
      if r.Some? {
        assert CleanLines(ex, lines) == items + [r.value];
      } else {
        assert CleanLines(ex, lines) == items;
      }
    }
  }

  /** The item of a line holds only characters of the line. */
  lemma CleanLineFrom(ex: Extraction, line: string)
    ensures CleanLine(ex, line).Some? ==> forall c :: c in CleanLine(ex, line).value ==> c in line
  {
    var l := Strip(line);
    if l != "" {
      StripSpec(line);
      assert forall c :: c in l ==> c in line;
      if IsBullet(l[0]) {
        LStripSpec(l[1..]);
        assert forall c :: c in LStrip(l[1..]) ==> c in l[1..];
      }
    }
  }

  lemma {:induction false} SectionItemsTrimmed(ex: Extraction, p: Parser, chunks: seq<string>, key: string)
    ensures AllTrimmed(SectionItems(ex, p, chunks, key))
    decreases |chunks|
  {
    if chunks != [] {
      SectionItemsTrimmed(ex, p, chunks[..|chunks| - 1], key);
      var chunk := chunks[|chunks| - 1];
      if Strip(chunk) != "" && key in p.patternKeys && key in p.sectionsToExtract && ex.find(chunk, key).Some? {
        var content := Strip(ex.find(chunk, key).value);
        CleanLinesTrimmed(ex, Split(content, '\n'));
      }
    }
  }

  /** Only a key that has a pattern and is extracted collects items. */
  lemma {:induction false} SectionItemsKey(ex: Extraction, p: Parser, chunks: seq<string>, key: string)
    ensures SectionItems(ex, p, chunks, key) != [] ==> key in p.patternKeys && key in p.sectionsToExtract
    decreases |chunks|
  {
    if chunks != [] {
      SectionItemsKey(ex, p, chunks[..|chunks| - 1], key);
    }
  }

  // ---------------------------------------------------------------------------------------------
  // Dropping repeats, keeping first occurrences

  /** The keys `f` gives the elements of `s`. */
  function KeysOf(f: string -> string, s: seq<string>): set<string>
    decreases |s|
  {
    if s == [] then {} else KeysOf(f, s[..|s| - 1]) + {f(s[|s| - 1])}
  }

  /** `s` without the elements whose key an earlier element already has. */
  function DedupBy(f: string -> string, s: seq<string>): (r: seq<string>)
    ensures |r| <= |s|
    decreases |s|
  {
    if s == [] then []
    else
      var init := s[..|s| - 1];
      DedupBy(f, init) + (if f(s[|s| - 1]) in KeysOf(f, init) then [] else [s[|s| - 1]])
  }

  function Id(s: string): string { s }

  lemma {:induction false} KeysOfContains(f: string -> string, s: seq<string>)
    ensures forall i :: 0 <= i < |s| ==> f(s[i]) in KeysOf(f, s)
    decreases |s|
  {
    if s != [] {
      var init := s[..|s| - 1];
      KeysOfContains(f, init);
      assert forall i :: 0 <= i < |init| ==> s[i] == init[i];
    }
  }

  /** With the identity as key, the keys are the elements. */
  lemma {:induction false} KeysOfId(s: seq<string>)
    ensures forall x :: x in KeysOf(Id, s) <==> x in s
    decreases |s|
  {
    if s != [] {
      var init := s[..|s| - 1];
      KeysOfId(init);
      assert s == init + [s[|s| - 1]];
    }
  }

  /** Dropping repeats loses no key. */
  lemma {:induction false} DedupByKeys(f: string -> string, s: seq<string>)
    ensures KeysOf(f, DedupBy(f, s)) == KeysOf(f, s)
    decreases |s|
  {
    if s != [] {
      var init := s[..|s| - 1];
      var x := s[|s| - 1];
      var d := DedupBy(f, init);
      DedupByKeys(f, init);
      assert KeysOf(f, s) == KeysOf(f, init) + {f(x)};
      if f(x) !in KeysOf(f, init) {
        assert (d + [x])[..|d|] == d;
        assert DedupBy(f, s) == d + [x];
        assert KeysOf(f, d + [x]) == KeysOf(f, d) + {f(x)};
      } else {
        assert DedupBy(f, s) == d;
      }
    }
  }

  /** No two kept elements share a key. */
  lemma {:induction false} DedupByUnique(f: string -> string, s: seq<string>)
    ensures forall a, b :: 0 <= a < b < |DedupBy(f, s)| ==> f(DedupBy(f, s)[a]) != f(DedupBy(f, s)[b])
    decreases |s|
  {
    if s != [] {
      var init := s[..|s| - 1];
      var x := s[|s| - 1];
      var d := DedupBy(f, init);
      DedupByUnique(f, init);
      if f(x) !in KeysOf(f, init) {
        DedupByKeys(f, init);
        KeysOfContains(f, d);
        var r := d + [x];
        forall a, b | 0 <= a < b < |r| ensures f(r[a]) != f(r[b]) {
          if b == |d| {
            assert f(d[a]) in KeysOf(f, d);
          }
        }
      }
    }
  }

  /** Every kept element comes from the input. */
  lemma {:induction false} DedupBySub(f: string -> string, s: seq<string>)
    ensures forall k :: 0 <= k < |DedupBy(f, s)| ==> DedupBy(f, s)[k] in s
    decreases |s|
  {
    if s != [] {
      var init := s[..|s| - 1];
      DedupBySub(f, init);
      assert forall y :: y in init ==> y in s;
    }
  }

  /** An element whose key no earlier element has is kept. */
  lemma {:induction false} DedupByFirst(f: string -> string, s: seq<string>)
    ensures forall i :: 0 <= i < |s| && f(s[i]) !in KeysOf(f, s[..i]) ==> s[i] in DedupBy(f, s)
    decreases |s|
  {
    if s != [] {
      var init := s[..|s| - 1];
      DedupByFirst(f, init);
      forall i | 0 <= i < |s| && f(s[i]) !in KeysOf(f, s[..i]) ensures s[i] in DedupBy(f, s) {
        if i < |init| {
          assert s[..i] == init[..i] && s[i] == init[i];
        }
      }
    }
  }

  /** Order is kept: the result on a prefix is a prefix of the result. */
  lemma {:induction false} DedupByPrefix(f: string -> string, s: seq<string>, i: nat)
    requires i <= |s|
    ensures DedupBy(f, s[..i]) <= DedupBy(f, s)
    decreases |s|
  {
    if i < |s| {
      DedupByPrefix(f, s[..|s| - 1], i);
      assert s[..|s| - 1][..i] == s[..i];
    } else {
      assert s[..i] == s;
    }
  }

  /** A non-empty input keeps at least its first element. */
  lemma {:induction false} DedupByNonEmpty(f: string -> string, s: seq<string>)
    ensures s != [] ==> DedupBy(f, s) != []
    decreases |s|
  {
    if s != [] {
      DedupByNonEmpty(f, s[..|s| - 1]);
    }
  }

  /** Dropping exact repeats first keeps the keys any other key function sees. */
  lemma {:induction false} KeysOfDedupId(g: string -> string, s: seq<string>)
    ensures KeysOf(g, DedupBy(Id, s)) == KeysOf(g, s)
    decreases |s|
  {
    if s != [] {
      var init := s[..|s| - 1];
      var x := s[|s| - 1];
      var d := DedupBy(Id, init);
      KeysOfDedupId(g, init);
      KeysOfId(init);
      assert Id(x) == x;
      assert KeysOf(g, s) == KeysOf(g, init) + {g(x)};
      if x in init {
        assert DedupBy(Id, s) == d;
        KeysOfContains(g, init);
        var i :| 0 <= i < |init| && init[i] == x;
        assert g(init[i]) in KeysOf(g, init);
      } else {
        assert DedupBy(Id, s) == d + [x];
        assert (d + [x])[..|d|] == d;
        assert KeysOf(g, d + [x]) == KeysOf(g, d) + {g(x)};
      }
    }
  }

  /** Dropping exact repeats before the case-insensitive ones changes nothing. */
  lemma {:induction false} DedupExactFirst(g: string -> string, s: seq<string>)
    ensures DedupBy(g, DedupBy(Id, s)) == DedupBy(g, s)
    decreases |s|
  {
    if s != [] {
      var init := s[..|s| - 1];
      var x := s[|s| - 1];
      var d := DedupBy(Id, init);
      DedupExactFirst(g, init);
      KeysOfId(init);
      assert Id(x) == x;
      if x in init {
        assert DedupBy(Id, s) == d;
        KeysOfContains(g, init);
        var i :| 0 <= i < |init| && init[i] == x;
        assert g(x) in KeysOf(g, init);
        assert DedupBy(g, s) == DedupBy(g, init);
      } else {
        assert DedupBy(Id, s) == d + [x];
        KeysOfDedupId(g, init);
        assert (d + [x])[..|d|] == d;
        var tail := if g(x) in KeysOf(g, init) then [] else [x];
        assert DedupBy(g, d + [x]) == DedupBy(g, d) + tail;
        assert DedupBy(g, s) == DedupBy(g, init) + tail;
      }
    }
  }

  /** The dictionary built from a list of keys has each key once, at its first position. */
  function Unique(keys: seq<string>): seq<string> {
    DedupBy(Id, keys)
  }

  lemma UniqueSpec(keys: seq<string>)
    ensures Distinct(Unique(keys))
    ensures forall x :: x in Unique(keys) <==> x in keys
  {
    DedupByUnique(Id, keys);
    DedupByKeys(Id, keys);
    KeysOfId(keys);
    KeysOfId(Unique(keys));
  }

  // ---------------------------------------------------------------------------------------------
  // Consolidation

  datatype Section = Section(name: string, items: seq<string>)

  function Names(out: seq<Section>): (r: seq<string>)
    ensures |r| == |out| && forall k :: 0 <= k < |out| ==> r[k] == out[k].name
  {
    seq(|out|, k requires 0 <= k < |out| => out[k].name)
  }

  /** A section of the result: non-empty, its items across the chunks without case-insensitive repeats. */
  predicate SectionOk(ex: Extraction, p: Parser, chunks: seq<string>, sec: Section) {
    sec.items != [] && sec.items == DedupBy(Lower, SectionItems(ex, p, chunks, sec.name))
  }

  /** The final loop over the dictionary keys: empty sections are dropped, the others lose their
    * case-insensitive repeats. */
  function Output(ex: Extraction, p: Parser, chunks: seq<string>, keys: seq<string>): (out: seq<Section>)
    ensures |out| <= |keys|
    decreases |keys|
  {
    if keys == [] then []
    else
      var key := keys[|keys| - 1];
      var values := DedupBy(Id, SectionItems(ex, p, chunks, key));
      Output(ex, p, chunks, keys[..|keys| - 1]) + (if values == [] then [] else [Section(key, DedupBy(Lower, values))])
  }

  /** `consolidate_sections(raw_text)`. */
  function Consolidate(ex: Extraction, p: Parser, raw: string): seq<Section> {
    Output(ex, p, ex.split(raw), Unique(p.sectionsToExtract))
  }

  lemma {:induction false} OutputSections(ex: Extraction, p: Parser, chunks: seq<string>, keys: seq<string>)
    ensures forall k :: 0 <= k < |Output(ex, p, chunks, keys)| ==>
      Output(ex, p, chunks, keys)[k].name in keys && SectionOk(ex, p, chunks, Output(ex, p, chunks, keys)[k])
    decreases |keys|
  {
    if keys != [] {
      var init := keys[..|keys| - 1];
      var key := keys[|keys| - 1];
      OutputSections(ex, p, chunks, init);
      assert forall y :: y in init ==> y in keys;
      var s := SectionItems(ex, p, chunks, key);
      if DedupBy(Id, s) != [] {
        DedupExactFirst(Lower, s);
        DedupByNonEmpty(Lower, DedupBy(Id, s));
      }
    }
  }

  lemma {:induction false} OutputDistinct(ex: Extraction, p: Parser, chunks: seq<string>, keys: seq<string>)
    requires Distinct(keys)
    ensures Distinct(Names(Output(ex, p, chunks, keys)))
    decreases |keys|
  {
    if keys != [] {
      var init := keys[..|keys| - 1];
      var key := keys[|keys| - 1];
      var o := Output(ex, p, chunks, init);
      OutputDistinct(ex, p, chunks, init);
      var values := DedupBy(Id, SectionItems(ex, p, chunks, key));
      if values != [] {
        OutputSections(ex, p, chunks, init);
        assert forall y :: y in Names(o) ==> y in init;
        assert key !in init;
        var sec := Section(key, DedupBy(Lower, values));
        assert Names(o + [sec]) == Names(o) + [key];
        DistinctConcat(Names(o), [key]);
      }
    }
  }

  lemma {:induction false} OutputComplete(ex: Extraction, p: Parser, chunks: seq<string>, keys: seq<string>)
    ensures forall key :: key in keys && SectionItems(ex, p, chunks, key) != [] ==>
      key in Names(Output(ex, p, chunks, keys))
    decreases |keys|
  {
    if keys != [] {
      var init := keys[..|keys| - 1];
      var last := keys[|keys| - 1];
      var o := Output(ex, p, chunks, init);
      OutputComplete(ex, p, chunks, init);
      var out := Output(ex, p, chunks, keys);
      assert Names(o) <= Names(out);
      forall key | key in keys && SectionItems(ex, p, chunks, key) != []
        ensures key in Names(out)
      {
        if key == last {
          DedupByNonEmpty(Id, SectionItems(ex, p, chunks, key));
          assert out[|out| - 1].name == key;
        } else {
          assert key in init;
        }
      }
    }
  }

  /** The result names only extracted sections that have a pattern, each once. */
  lemma ConsolidateKeys(ex: Extraction, p: Parser, raw: string)
    ensures forall k :: 0 <= k < |Consolidate(ex, p, raw)| ==>
      Consolidate(ex, p, raw)[k].name in p.sectionsToExtract && Consolidate(ex, p, raw)[k].name in p.patternKeys
    ensures Distinct(Names(Consolidate(ex, p, raw)))
    ensures |Consolidate(ex, p, raw)| <= |p.sectionsToExtract|
  {
    var chunks := ex.split(raw);
    var keys := Unique(p.sectionsToExtract);
    var out := Consolidate(ex, p, raw);
    UniqueSpec(p.sectionsToExtract);
    OutputSections(ex, p, chunks, keys);
    OutputDistinct(ex, p, chunks, keys);
    forall k | 0 <= k < |out| ensures out[k].name in p.patternKeys {
      SectionItemsKey(ex, p, chunks, out[k].name);
    }
  }

  /** Every section of the result holds the items matched for it across the pages, case-insensitive
    * repeats dropped, and is never empty; every extracted section with an item is present. */
  lemma ConsolidateItems(ex: Extraction, p: Parser, raw: string)
    ensures forall k :: 0 <= k < |Consolidate(ex, p, raw)| ==>
      SectionOk(ex, p, ex.split(raw), Consolidate(ex, p, raw)[k])
    ensures forall key :: key in p.sectionsToExtract && SectionItems(ex, p, ex.split(raw), key) != [] ==>
      key in Names(Consolidate(ex, p, raw))
  {
    var chunks := ex.split(raw);
    var keys := Unique(p.sectionsToExtract);
    UniqueSpec(p.sectionsToExtract);
    OutputSections(ex, p, chunks, keys);
    OutputComplete(ex, p, chunks, keys);
  }

  /** Within a section, items differ ignoring case, have no whitespace at either end and hold no
    * line break. */
  lemma ConsolidateItemShape(ex: Extraction, p: Parser, raw: string, k: nat)
    requires k < |Consolidate(ex, p, raw)|
    ensures forall a, b :: 0 <= a < b < |Consolidate(ex, p, raw)[k].items| ==>
      Lower(Consolidate(ex, p, raw)[k].items[a]) != Lower(Consolidate(ex, p, raw)[k].items[b])
    ensures AllTrimmed(Consolidate(ex, p, raw)[k].items)
  {
    var chunks := ex.split(raw);
    var sec := Consolidate(ex, p, raw)[k];
    ConsolidateItems(ex, p, raw);
    var s := SectionItems(ex, p, chunks, sec.name);
    DedupByUnique(Lower, s);
    DedupBySub(Lower, s);
    SectionItemsTrimmed(ex, p, chunks, sec.name);
  }

  // Methods of the consolidation

  /** Appends the items of one chunk's content lines to a section's list, skipping exact repeats. */
  method AddLines(ex: Extraction, ghost before: seq<string>, items0: seq<string>, lines: seq<string>)
    returns (items: seq<string>)
    requires items0 == DedupBy(Id, before)
    ensures items == DedupBy(Id, before + CleanLines(ex, lines))
  {
    items := items0;
    ghost var seen := before;
    for i := 0 to |lines|
      invariant seen == before + CleanLines(ex, lines[..i])
      invariant items == DedupBy(Id, seen)
    {
      assert lines[..i + 1][..i] == lines[..i];
      var line := Strip(lines[i]);
      if line != "" && !ex.filler(line) {
        line := RemoveBullet(line);
        if line != "" {
          KeysOfId(seen);
          DedupByKeys(Id, seen);
          KeysOfId(items);
          if line !in items {
            items := items + [line];
          }
          assert (seen + [line])[..|seen|] == seen;
          seen := seen + [line];
        }
      }
    }
    assert lines[..|lines|] == lines;
  }

  /** `consolidated` after the chunks in `done`: a list per extracted section, of its items so far
    * without exact repeats. */
  ghost predicate Accumulated(ex: Extraction, p: Parser, cons: map<string, seq<string>>, done: seq<string>) {
    (forall key :: key in cons <==> key in p.sectionsToExtract) &&
    forall key :: key in cons ==> cons[key] == DedupBy(Id, SectionItems(ex, p, done, key))
  }

  /** One pass of the key loop: section `key` takes the chunk's items when it is extracted. */
  method AddKey(ex: Extraction, p: Parser, cons0: map<string, seq<string>>, ghost done: seq<string>,
                chunk: string, key: string)
    returns (cons: map<string, seq<string>>)
    requires Strip(chunk) != "" && key in p.patternKeys
    requires key in cons0 <==> key in p.sectionsToExtract
    requires key in cons0 ==> cons0[key] == DedupBy(Id, SectionItems(ex, p, done, key))
    ensures cons.Keys == cons0.Keys
    ensures forall other :: other in cons && other != key ==> cons[other] == cons0[other]
    ensures key in cons ==> cons[key] == DedupBy(Id, SectionItems(ex, p, done + [chunk], key))
  {
    cons := cons0;
    ghost var before := SectionItems(ex, p, done, key);
    assert (done + [chunk])[..|done|] == done;
    assert SectionItems(ex, p, done + [chunk], key) == before + ChunkItems(ex, p, chunk, key);
    if key in cons {
      match ex.find(chunk, key) {
        case None =>
          assert before + ChunkItems(ex, p, chunk, key) == before;
        case Some(raw) =>
          var content := Strip(raw);
          if content != "" {
            var lines := Split(content, '\n');
            assert ChunkItems(ex, p, chunk, key) == CleanLines(ex, lines);
            var items := AddLines(ex, before, cons[key], lines);
            cons := cons[key := items];
          } else {
            assert before + ChunkItems(ex, p, chunk, key) == before;
          }
      }
    }
  }

  /** The key loop over `section_patterns`: each extracted section takes the chunk's items. */
  method AddKeys(ex: Extraction, p: Parser, cons0: map<string, seq<string>>, ghost done: seq<string>, chunk: string)
    returns (cons: map<string, seq<string>>)
    requires Strip(chunk) != "" && Distinct(p.patternKeys)
    requires Accumulated(ex, p, cons0, done)
    ensures forall key :: key in cons <==> key in p.sectionsToExtract
    ensures forall key :: key in cons ==>
      cons[key] == DedupBy(Id, SectionItems(ex, p, if key in p.patternKeys then done + [chunk] else done, key))
  {
    var keys := p.patternKeys;
    cons := cons0;
    for k := 0 to |keys|
      invariant forall key :: key in cons <==> key in p.sectionsToExtract
      invariant forall key :: key in cons ==>
        cons[key] == DedupBy(Id, SectionItems(ex, p, if key in keys[..k] then done + [chunk] else done, key))
    {
      var key := keys[k];
      assert keys[..k + 1] == keys[..k] + [key];
      assert key !in keys[..k];
      cons := AddKey(ex, p, cons, done, chunk, key);
    }
    assert keys[..|keys|] == keys;
  }

  lemma SectionItemsSnoc(ex: Extraction, p: Parser, done: seq<string>, chunk: string, key: string)
    ensures SectionItems(ex, p, done + [chunk], key) == SectionItems(ex, p, done, key) + ChunkItems(ex, p, chunk, key)
  {
    assert (done + [chunk])[..|done|] == done;
  }

  /** The body of the chunk loop: a blank chunk is skipped, otherwise each extracted section with a
    * pattern takes the chunk's items. */
  method AddChunk(ex: Extraction, p: Parser, cons0: map<string, seq<string>>, ghost done: seq<string>, chunk: string)
    returns (cons: map<string, seq<string>>)
    requires Distinct(p.patternKeys)
    requires Accumulated(ex, p, cons0, done)
    ensures Accumulated(ex, p, cons, done + [chunk])
  {
    if Strip(chunk) == "" {
      forall key | key in cons0 ensures cons0[key] == DedupBy(Id, SectionItems(ex, p, done + [chunk], key)) {
        SectionItemsSnoc(ex, p, done, chunk, key);
        assert SectionItems(ex, p, done, key) + [] == SectionItems(ex, p, done, key);
      }
      return cons0;
    }
    cons := AddKeys(ex, p, cons0, done, chunk);
    forall key | key in cons ensures cons[key] == DedupBy(Id, SectionItems(ex, p, done + [chunk], key)) {
      if key !in p.patternKeys {
        SectionItemsSnoc(ex, p, done, chunk, key);
        assert SectionItems(ex, p, done, key) + [] == SectionItems(ex, p, done, key);
      }
    }
  }

  /** Drops case-insensitive repeats with a set of the lower-cased items seen so far. */
  method DedupLower(values: seq<string>) returns (unique: seq<string>)
    ensures unique == DedupBy(Lower, values)
  {
    unique := [];
    var seen: set<string> := {};
    for i := 0 to |values|
      invariant unique == DedupBy(Lower, values[..i])
      invariant seen == KeysOf(Lower, values[..i])
    {
      assert values[..i + 1][..i] == values[..i];
      var v := values[i];
      if Lower(v) !in seen {
        seen := seen + {Lower(v)};
        unique := unique + [v];
      }
    }
    assert values[..|values|] == values;
  }

  /** The chunk loop: every extracted section collects the items of every chunk, exact repeats dropped. */
  method AccumulateChunks(ex: Extraction, p: Parser, chunks: seq<string>) returns (cons: map<string, seq<string>>)
    requires Distinct(p.patternKeys)
    ensures Accumulated(ex, p, cons, chunks)
  {
    cons := map key | key in p.sectionsToExtract :: [];
    for c := 0 to |chunks|
      invariant Accumulated(ex, p, cons, chunks[..c])
    {
      cons := AddChunk(ex, p, cons, chunks[..c], chunks[c]);
      assert chunks[..c + 1] == chunks[..c] + [chunks[c]];
    }
    assert chunks[..|chunks|] == chunks;
  }

  /** The final loop: each section with items, in key order, with case-insensitive repeats dropped. */
  method CollectSections(ex: Extraction, p: Parser, chunks: seq<string>, keys: seq<string>, cons: map<string, seq<string>>)
    returns (out: seq<Section>)
    requires Accumulated(ex, p, cons, chunks)
    requires forall key :: key in keys ==> key in p.sectionsToExtract
    ensures out == Output(ex, p, chunks, keys)
  {
    out := [];
    for i := 0 to |keys|
      invariant out == Output(ex, p, chunks, keys[..i])
    {
      assert keys[..i + 1][..i] == keys[..i];
      var key := keys[i];
      var values := cons[key];
      if values != [] {
        var unique := DedupLower(values);
        DedupExactFirst(Lower, SectionItems(ex, p, chunks, key));
        out := out + [Section(key, unique)];
      }
    }
    assert keys[..|keys|] == keys;
  }

  /** `consolidate_sections(raw_text)`: the chunk loop, then the loop over the dictionary's keys. */
  method ConsolidateSections(ex: Extraction, p: Parser, raw: string) returns (out: seq<Section>)
    requires Distinct(p.patternKeys)
    ensures out == Consolidate(ex, p, raw)
  {
    var keys := Unique(p.sectionsToExtract);
    UniqueSpec(p.sectionsToExtract);
    var chunks := ex.split(raw);
    var cons := AccumulateChunks(ex, p, chunks);
    out := CollectSections(ex, p, chunks, keys, cons);
  }

  // ---------------------------------------------------------------------------------------------
  // Text and Markdown output

  datatype Format = PlainText | Markdown

  function Header(fmt: Format, name: string): string {
    match fmt
    case PlainText => "\n" + KeyTitle(name) + ":"
    case Markdown => "\n## " + KeyTitle(name) + "\n"
  }

  function BulletPrefix(fmt: Format): string {
    match fmt
    case PlainText => "  - "
    case Markdown => "- "
  }

  /** The parts one section contributes: none when it is empty, else its header and a line per item. */
  function Block(fmt: Format, sec: Section): seq<string> {
    if sec.items == [] then []
    else [Header(fmt, sec.name)] + seq(|sec.items|, i requires 0 <= i < |sec.items| => BulletPrefix(fmt) + sec.items[i])
  }

  function Blocks(fmt: Format, data: seq<Section>): seq<seq<string>> {
    seq(|data|, i requires 0 <= i < |data| => Block(fmt, data[i]))
  }

  /** The part list the conversion joins with line breaks: the blocks of the sections in order. */
  function Parts(fmt: Format, data: seq<Section>): seq<string> {
    Flatten(Blocks(fmt, data))
  }

  /** The inner loop of the conversions: a non-empty section's header, then a line per item. */
  method AppendBlock(fmt: Format, parts0: seq<string>, sec: Section) returns (parts: seq<string>)
    ensures parts == parts0 + Block(fmt, sec)
  {
    parts := parts0;
    if sec.items == [] {
      return;
    }
    ghost var block := Block(fmt, sec);
    parts := parts + [Header(fmt, sec.name)];
    for j := 0 to |sec.items|
      invariant parts == parts0 + block[..j + 1]
    {
      assert block[..j + 2] == block[..j + 1] + [BulletPrefix(fmt) + sec.items[j]];
      parts := parts + [BulletPrefix(fmt) + sec.items[j]];
    }
    assert block[..|sec.items| + 1] == block;
  }

  /** The loops of `convert_to_text` and `convert_to_markdown`, which differ only in the header and
    * bullet formats. */
  method CollectParts(fmt: Format, data: seq<Section>) returns (parts: seq<string>)
    ensures parts == Parts(fmt, data)
  {
    parts := [];
    for i := 0 to |data|
      invariant parts == Parts(fmt, data[..i])
    {
      assert data[..i + 1] == data[..i] + [data[i]];
      PartsSnoc(fmt, data[..i], data[i]);
      parts := AppendBlock(fmt, parts, data[i]);
    }
    assert data[..|data|] == data;
  }

  /** `convert_to_text(consolidated_data)`. */
  method ConvertToText(data: seq<Section>) returns (text: string)
    ensures text == Join("\n", Parts(PlainText, data))
  {
    var parts := CollectParts(PlainText, data);
    text := Join("\n", parts);
  }

  /** `convert_to_markdown(consolidated_data)`. */
  method ConvertToMarkdown(data: seq<Section>) returns (text: string)
    ensures text == Join("\n", Parts(Markdown, data))
  {
    var parts := CollectParts(Markdown, data);
    text := Join("\n", parts);
  }

  /** Converting two lists of sections one after the other is converting them together. */
  lemma PartsConcat(fmt: Format, a: seq<Section>, b: seq<Section>)
    ensures Parts(fmt, a + b) == Parts(fmt, a) + Parts(fmt, b)
  {
    assert Blocks(fmt, a + b) == Blocks(fmt, a) + Blocks(fmt, b);
    FlattenConcat(Blocks(fmt, a), Blocks(fmt, b));
  }

  /** The sections with at least one item, in order. */
  function NonEmpty(data: seq<Section>): seq<Section>
    decreases |data|
  {
    if data == [] then []
    else NonEmpty(data[..|data| - 1]) + (if data[|data| - 1].items == [] then [] else [data[|data| - 1]])
  }

  /** Appending a section to the data appends that section's block to the output. */
  lemma PartsSnoc(fmt: Format, data: seq<Section>, sec: Section)
    ensures Parts(fmt, data + [sec]) == Parts(fmt, data) + Block(fmt, sec)
  {
    assert Blocks(fmt, data + [sec]) == Blocks(fmt, data) + [Block(fmt, sec)];
    FlattenSnoc(Blocks(fmt, data), Block(fmt, sec));
  }

  /** Empty sections contribute nothing to either output. */
  lemma {:induction false} PartsSkipEmpty(fmt: Format, data: seq<Section>)
    ensures Parts(fmt, data) == Parts(fmt, NonEmpty(data))
    decreases |data|
  {
    if data == [] {
      assert Blocks(fmt, data) == [];
    } else {
      var init := data[..|data| - 1];
      var last := data[|data| - 1];
      PartsSkipEmpty(fmt, init);
      assert data == init + [last];
      PartsSnoc(fmt, init, last);
      if last.items != [] {
        assert NonEmpty(data) == NonEmpty(init) + [last];
        PartsSnoc(fmt, NonEmpty(init), last);
      } else {
        assert Block(fmt, last) == [];
        assert NonEmpty(data) == NonEmpty(init);
      }
    }
  }

  // ---------------------------------------------------------------------------------------------
  // Statistics

  function TotalItems(data: seq<Section>): nat
    decreases |data|
  {
    if data == [] then 0 else TotalItems(data[..|data| - 1]) + |data[|data| - 1].items|
  }

  function SectionsWithData(data: seq<Section>): nat
    decreases |data|
  {
    if data == [] then 0 else SectionsWithData(data[..|data| - 1]) + (if data[|data| - 1].items != [] then 1 else 0)
  }

  /** `items_per_section`: the item count of each non-empty section. */
  function ItemCounts(data: seq<Section>): seq<(string, nat)>
    decreases |data|
  {
    if data == [] then []
    else
      var last := data[|data| - 1];
      ItemCounts(data[..|data| - 1]) + (if last.items != [] then [(last.name, |last.items|)] else [])
  }

  datatype Statistics = Statistics(
    totalSections: nat,
    sectionsWithData: nat,
    totalItems: nat,
    coverage: real,
    itemsPerSection: seq<(string, nat)>)

  /** `get_statistics(consolidated_data)`: coverage is the percentage of extracted sections with
    * data, 0 when no section is extracted. */
  function GetStatistics(p: Parser, data: seq<Section>): (st: Statistics)
    ensures st.totalSections == |p.sectionsToExtract|
    ensures p.sectionsToExtract == [] ==> st.coverage == 0.0
    ensures p.sectionsToExtract != [] ==>
      st.coverage * (|p.sectionsToExtract| as real) == 100.0 * (st.sectionsWithData as real)
  {
    var n := |p.sectionsToExtract|;
    var withData := SectionsWithData(data);
    Statistics(
      n, withData, TotalItems(data),
      if n > 0 then (withData as real / n as real) * 100.0 else 0.0,
      ItemCounts(data))
  }

  /** The text output has one header per non-empty section and one line per item. */
  lemma {:induction false} PartsCount(fmt: Format, data: seq<Section>)
    ensures |Parts(fmt, data)| == SectionsWithData(data) + TotalItems(data)
    decreases |data|
  {
    if data == [] {
      assert Blocks(fmt, data) == [];
    } else {
      var init := data[..|data| - 1];
      var last := data[|data| - 1];
      PartsCount(fmt, init);
      assert data == init + [last];
      PartsSnoc(fmt, init, last);
    }
  }

  /** `items_per_section` has one positive entry per section with data, and its counts add up to
    * `total_items`. */
  lemma {:induction false} ItemCountsSpec(data: seq<Section>)
    ensures |ItemCounts(data)| == SectionsWithData(data)
    ensures forall k :: 0 <= k < |ItemCounts(data)| ==> ItemCounts(data)[k].1 > 0
    ensures SumCounts(ItemCounts(data)) == TotalItems(data)
    decreases |data|
  {
    if data != [] {
      var init := data[..|data| - 1];
      var last := data[|data| - 1];
      ItemCountsSpec(init);
      var c := ItemCounts(init);
      if last.items != [] {
        var entry := (last.name, |last.items|);
        assert ItemCounts(data) == c + [entry];
        assert (c + [entry])[..|c|] == c;
        assert SumCounts(c + [entry]) == SumCounts(c) + |last.items|;
      } else {
        assert ItemCounts(data) == c;
      }
    }
  }

  function SumCounts(counts: seq<(string, nat)>): nat
    decreases |counts|
  {
    if counts == [] then 0 else SumCounts(counts[..|counts| - 1]) + counts[|counts| - 1].1
  }

  lemma {:induction false} SectionsWithDataAll(data: seq<Section>)
    requires forall k :: 0 <= k < |data| ==> data[k].items != []
    ensures SectionsWithData(data) == |data|
    decreases |data|
  {
    if data != [] {
      SectionsWithDataAll(data[..|data| - 1]);
    }
  }

  lemma Percentage(m: nat, n: nat)
    requires 0 < n && m <= n
    ensures 0.0 <= (m as real / n as real) * 100.0 <= 100.0
  {
    assert m as real / n as real <= 1.0;
  }

  /** For a consolidated result, every section has data and coverage is a percentage. */
  lemma ConsolidatedCoverage(ex: Extraction, p: Parser, raw: string)
    ensures GetStatistics(p, Consolidate(ex, p, raw)).sectionsWithData == |Consolidate(ex, p, raw)|
    ensures 0.0 <= GetStatistics(p, Consolidate(ex, p, raw)).coverage <= 100.0
  {
    var out := Consolidate(ex, p, raw);
    ConsolidateItems(ex, p, raw);
    ConsolidateKeys(ex, p, raw);
    SectionsWithDataAll(out);
    if p.sectionsToExtract != [] {
      Percentage(|out|, |p.sectionsToExtract|);
    }
  }
}
