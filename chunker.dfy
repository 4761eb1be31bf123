/**
 * `FinancialChunker.chunk_text`: overlapping token windows, each decoded and trimmed back to a
 * sentence end. Tokenisation itself is a parameter (`encode`/`decode` of the tokenizer).
 */
module Chunker {
  import opened Wrappers
  import opened Text
  import opened Basics

  type Token = int

  /** The chunk dict `{text, chunk_id, start_token, end_token}`. */
  datatype Chunk = Chunk(text: string, chunkId: nat, startToken: nat, endToken: nat)

  /** The tokenizer: text to tokens and back. */
  datatype Tokenizer = Tokenizer(encode: string -> seq<Token>, decode: seq<Token> -> string)

  /** A chunker's window size and overlap, in tokens. */
  datatype ChunkerConfig = ChunkerConfig(chunkSize: nat, chunkOverlap: nat)

  function DefaultChunkerConfig(): ChunkerConfig { ChunkerConfig(512, 50) }

  /** The token range `[start, end)` of one chunk. */
  datatype Window = Window(start: nat, end: nat)

  /** The window the cursor `start` opens: at most `size` tokens, never past the end. */
  function WindowAt(n: nat, size: nat, start: nat): Window {
    Window(start, Min(start + size, n))
  }

  /** Where the cursor goes after `w`: back by the overlap, but always forward by one at least. */
  function NextStart(w: Window, overlap: nat): nat {
    Max(w.end - overlap, w.start + 1)
  }

  /** The windows the loop visits from cursor `start` over `n` tokens. */
  function Windows(n: nat, size: nat, overlap: nat, start: nat): seq<Window>
    decreases n - start
  {
    if start >= n then []
    else
      var w := WindowAt(n, size, start);
      [w] + Windows(n, size, overlap, NextStart(w, overlap))
  }

  /** A window opened by the loop: non-empty, at most `size` tokens, clipped at `n`. */
  predicate WindowOk(w: Window, n: nat, size: nat) {
    w.start < w.end <= n && w.end == Min(w.start + size, n)
  }

  /** How the loop moves from window `a` to window `b`. */
  predicate StepOk(a: Window, b: Window, overlap: nat) {
    b.start == Max(a.end - overlap, a.start + 1) && a.start < b.start <= a.end
  }

  /**
   * With `size >= 1`: the first window opens at the cursor, each window is non-empty, ends at
   * min(start + size, n) (so holds at most `size` tokens), the cursor strictly increases and
   * never skips past the previous end, and the last window ends at `n`.
   */
  lemma {:induction false} WindowsShape(n: nat, size: nat, overlap: nat, start: nat)
    requires size >= 1
    ensures var ws := Windows(n, size, overlap, start);
            && (|ws| > 0 <==> start < n)
            && (|ws| > 0 ==> ws[0].start == start && ws[|ws| - 1].end == n)
            && (forall t :: 0 <= t < |ws| ==> WindowOk(ws[t], n, size))
            && (forall t, u {:trigger ws[t], ws[u]} :: 0 <= t && u == t + 1 < |ws| ==> StepOk(ws[t], ws[u], overlap))
    decreases n - start
  {
    var ws := Windows(n, size, overlap, start);
    if start < n {
      var w := WindowAt(n, size, start);
      var next := NextStart(w, overlap);
      var rest := Windows(n, size, overlap, next);
      WindowsShape(n, size, overlap, next);
      assert ws == [w] + rest;
      assert WindowOk(w, n, size);
      forall t | 0 <= t < |ws| ensures WindowOk(ws[t], n, size) {
        if t > 0 { assert ws[t] == rest[t - 1]; }
      }
      forall t, u | 0 <= t && u == t + 1 < |ws| ensures StepOk(ws[t], ws[u], overlap) {
        assert ws[u] == rest[t];
        if t > 0 { assert ws[t] == rest[t - 1]; } else { assert rest[0].start == next; }
      }
      if |rest| > 0 { assert ws[|ws| - 1] == rest[|rest| - 1]; }
    }
  }

  /** Every token from the cursor on lies inside some window. */
  lemma {:induction false} WindowsCover(n: nat, size: nat, overlap: nat, start: nat, p: nat)
    requires size >= 1 && start <= p < n
    ensures exists t :: 0 <= t < |Windows(n, size, overlap, start)| &&
              Windows(n, size, overlap, start)[t].start <= p < Windows(n, size, overlap, start)[t].end
    decreases n - start
  {
    var w := WindowAt(n, size, start);
    var ws := Windows(n, size, overlap, start);
    assert ws[0] == w;
    if p >= w.end {
      var next := NextStart(w, overlap);
      assert next <= w.end;
      WindowsCover(n, size, overlap, next, p);
      var rest := Windows(n, size, overlap, next);
      var t :| 0 <= t < |rest| && rest[t].start <= p < rest[t].end;
      assert ws[t + 1] == rest[t];
    }
  }

  /** Python's `s[-m:]` for `m >= 1`: the last `m` characters, or all of `s`. */
  function Suffix(s: string, m: nat): string {
    if m >= |s| then s else s[|s| - m..]
  }

  /** `s.endswith(('.', '!', '?', '\n'))`. */
  predicate EndsWithSentenceMark(s: string) {
    |s| > 0 && (s[|s| - 1] == '.' || s[|s| - 1] == '!' || s[|s| - 1] == '?' || s[|s| - 1] == '\n')
  }

  /** The test at one offset: the last `offset + 1` characters, stripped, end with a sentence mark. */
  predicate SentenceEndAt(text: string, offset: nat) {
    EndsWithSentenceMark(Strip(Suffix(text, offset + 1)))
  }

  /** The first offset below `limit` (searching from `offset`) where the test succeeds. */
  function FirstSentenceEnd(text: string, offset: nat, limit: nat): Option<nat>
    decreases limit - offset
  {
    if offset >= limit then None
    else if SentenceEndAt(text, offset) then Some(offset)
    else FirstSentenceEnd(text, offset + 1, limit)
  }

  /** The number of whitespace characters at the end of `s`. */
  function TrailingSpaces(s: string): nat {
    |s| - |RStrip(s)|
  }

  /** The last non-space character of `s` exists and is `.`, `!` or `?`. */
  predicate EndsWithSentence(s: string) {
    var w := TrailingSpaces(s);
    w < |s| && (s[|s| - 1 - w] == '.' || s[|s| - 1 - w] == '!' || s[|s| - 1 - w] == '?')
  }

  /**
   * The test never looks inside the window: it succeeds at `offset` exactly when the window's
   * last non-space character is `.`, `!` or `?` and `offset` reaches past the trailing
   * whitespace. (A newline is whitespace, so it never matches after stripping.)
   */
  lemma SentenceEndAtIff(text: string, offset: nat)
    ensures SentenceEndAt(text, offset) <==> EndsWithSentence(text) && TrailingSpaces(text) <= offset
  {
    var w := TrailingSpaces(text);
    if w <= offset && w < |text| {
      SuffixStripEnd(text, offset);
    } else {
      SuffixAllSpace(text, offset);
    }
  }

  /** A suffix that reaches the last non-space character strips down to one ending with it. */
  lemma SuffixStripEnd(text: string, offset: nat)
    requires TrailingSpaces(text) <= offset && TrailingSpaces(text) < |text|
    ensures var u := Strip(Suffix(text, offset + 1));
            u != [] && u[|u| - 1] == text[|text| - 1 - TrailingSpaces(text)]
    ensures !IsSpace(text[|text| - 1 - TrailingSpaces(text)])
  {
    var w := TrailingSpaces(text);
    var r := RStrip(text);
    assert r[|r| - 1] == text[|text| - 1 - w] && !IsSpace(r[|r| - 1]) by {
      RStripSpec(text);
    }
    var u := Suffix(text, offset + 1);
    var d := |text| - |u|;
    assert RStrip(u) == r[d..] by {
      assert u == text[d..];
      RStripDrop(text, d);
    }
    StripEndsWithLast(u);
  }

  /** A suffix inside the trailing whitespace strips to nothing. */
  lemma SuffixAllSpace(text: string, offset: nat)
    requires !(TrailingSpaces(text) <= offset && TrailingSpaces(text) < |text|)
    ensures Strip(Suffix(text, offset + 1)) == []
  {
    RStripSpec(text);
    var u := Suffix(text, offset + 1);
    var d := |text| - |u|;
    assert u == text[d..];
    forall i | 0 <= i < |u| ensures IsSpace(u[i]) {
      assert u[i] == text[d + i];
    }
    RStripUnique(u, []);
  }

  /** The loop's first success from `offset` on is at the later of `offset` and the trailing whitespace. */
  lemma {:induction false} FirstSentenceEndIs(text: string, offset: nat, limit: nat)
    ensures var m := Max(offset, TrailingSpaces(text));
            FirstSentenceEnd(text, offset, limit) == if EndsWithSentence(text) && m < limit then Some(m) else None
    decreases limit - offset
  {
    if offset < limit {
      var hit := EndsWithSentence(text) && TrailingSpaces(text) <= offset;
      assert SentenceEndAt(text, offset) == hit by {
        SentenceEndAtIff(text, offset);
      }
      if !hit {
        FirstSentenceEndIs(text, offset + 1, limit);
      }
    }
  }

  /** Python's `s[:-m]` for `m >= 0`; `s[:-0]` is `s[:0]`, the empty string. */
  function DropLastAsWritten(s: string, m: nat): string {
    if m == 0 || m >= |s| then "" else s[..|s| - m]
  }

  /** The sentence trim exactly as written: cut with `chunk_text[:-(offset)]`. */
  function TrimAsWritten(text: string, limit: nat): string {
    match FirstSentenceEnd(text, 0, limit)
    case None => text
    case Some(offset) => DropLastAsWritten(text, offset)
  }

  /**
   * The as-written trim empties any window that ends with a sentence mark, such as the decoded
   * window "Revenue grew." followed by further tokens.
   */
  lemma TrimAsWrittenEmptiesSentence(text: string, limit: nat)
    requires limit >= 1 && |text| > 0
    requires text[|text| - 1] == '.' || text[|text| - 1] == '!' || text[|text| - 1] == '?'
    ensures TrimAsWritten(text, limit) == ""
    ensures Strip(text) != ""
  {
    RStripUnique(text, text);
    FirstSentenceEndIs(text, 0, limit);
    LStripSpec(text);
  }

  lemma TrimAsWrittenExample()
    ensures TrimAsWritten("Revenue grew.", 50) == ""
  {
    TrimAsWrittenEmptiesSentence("Revenue grew.", 50);
  }

  /** The evidently intended trim: keep the window up to and including the sentence mark. */
  function TrimToSentence(text: string, limit: nat): (r: string)
    ensures |r| <= |text| && r == text[..|r|]
  {
    match FirstSentenceEnd(text, 0, limit)
    case None => text
    case Some(offset) => if offset <= |text| then text[..|text| - offset] else ""
  }

  /**
   * The intended trim drops at most trailing whitespace: the stripped chunk text is the stripped
   * window text, so no sentence is ever lost.
   */
  lemma TrimToSentenceKeepsText(text: string, limit: nat)
    ensures Strip(TrimToSentence(text, limit)) == Strip(text)
  {
    FirstSentenceEndIs(text, 0, limit);
    if FirstSentenceEnd(text, 0, limit).Some? {
      RStripSpec(text);
      RStripIdempotent(text);
      assert text[..|text| - TrailingSpaces(text)] == RStrip(text);
    }
  }

  /** The chunk text of one window: decoded, trimmed when more tokens follow, then stripped. */
  function WindowText(tok: Tokenizer, tokens: seq<Token>, w: Window): string
    requires w.start <= w.end <= |tokens|
  {
    var text := tok.decode(tokens[w.start..w.end]);
    Strip(if w.end < |tokens| then TrimToSentence(text, Min(50, w.end - w.start)) else text)
  }

  /** Every window lies within the `n` tokens. */
  predicate InTokens(ws: seq<Window>, n: nat) {
    forall i :: 0 <= i < |ws| ==> ws[i].start <= ws[i].end <= n
  }

  /** The chunk of each window, numbered from 0. */
  function ChunksOf(tok: Tokenizer, tokens: seq<Token>, ws: seq<Window>): seq<Chunk>
    requires InTokens(ws, |tokens|)
  {
    seq(|ws|, i requires 0 <= i < |ws| => Chunk(WindowText(tok, tokens, ws[i]), i, ws[i].start, ws[i].end))
  }

  /** The chunks `chunk_text` returns for a token sequence. */
  function Chunks(cfg: ChunkerConfig, tok: Tokenizer, tokens: seq<Token>): seq<Chunk>
    requires cfg.chunkSize >= 1
  {
    var ws := Windows(|tokens|, cfg.chunkSize, cfg.chunkOverlap, 0);
    WindowsShape(|tokens|, cfg.chunkSize, cfg.chunkOverlap, 0);
    ChunksOf(tok, tokens, ws)
  }

  /** One more window adds its chunk, numbered next, at the end. */
  lemma ChunksOfSnoc(tok: Tokenizer, tokens: seq<Token>, ws: seq<Window>, w: Window)
    requires InTokens(ws, |tokens|) && w.start <= w.end <= |tokens|
    ensures InTokens(ws + [w], |tokens|)
    ensures ChunksOf(tok, tokens, ws + [w]) == ChunksOf(tok, tokens, ws) + [Chunk(WindowText(tok, tokens, w), |ws|, w.start, w.end)]
  {
    var ws' := ws + [w];
    forall i | 0 <= i < |ws'| ensures ws'[i].start <= ws'[i].end <= |tokens| {
      if i < |ws| {
        assert ws'[i] == ws[i];
      }
    }
    var a, b := ChunksOf(tok, tokens, ws'), ChunksOf(tok, tokens, ws) + [Chunk(WindowText(tok, tokens, w), |ws|, w.start, w.end)];
    forall i | 0 <= i < |a| ensures a[i] == b[i] {
      if i < |ws| {
        assert ws'[i] == ws[i];
      }
    }
  }

  function OverlapMessage(cfg: ChunkerConfig): string {
    "chunk_overlap (" + NatToString(cfg.chunkOverlap) + ") must be less than chunk_size ("
      + NatToString(cfg.chunkSize) + ")"
  }

  /** The sentence-trim loop: try each offset below `limit`, cut at the first success. */
  method TrimWindow(text: string, limit: nat) returns (r: string)
    ensures r == TrimToSentence(text, limit)
  {
    r := text;
    var offset := 0;
    while offset < limit
      invariant 0 <= offset <= limit
      invariant FirstSentenceEnd(text, 0, limit) == FirstSentenceEnd(text, offset, limit)
    {
      if SentenceEndAt(text, offset) {
        r := if offset <= |text| then text[..|text| - offset] else "";
        return;
      }
      offset := offset + 1;
    }
  }

  /**
   * `chunk_text`: an overlap at least the window size raises before anything is produced (even
   * for empty text); otherwise one chunk per window, numbered 0, 1, 2, ... in order.
   */
  method ChunkText(cfg: ChunkerConfig, tok: Tokenizer, text: string) returns (r: Result<seq<Chunk>, Error>)
    ensures cfg.chunkOverlap >= cfg.chunkSize <==> r.Err?
    ensures r.Err? ==> r.error == ValueError(OverlapMessage(cfg))
    ensures r.Ok? ==> r.value == Chunks(cfg, tok, tok.encode(text))
    ensures r.Ok? ==> forall i :: 0 <= i < |r.value| ==> r.value[i].chunkId == i
    ensures r.Ok? && tok.encode(text) == [] ==> r.value == []
  {
    var tokens := tok.encode(text);
    if cfg.chunkOverlap >= cfg.chunkSize {
      return Err(ValueError(OverlapMessage(cfg)));
    }
    var chunks := ChunkTokens(cfg, tok, tokens);
    r := Ok(chunks);
  }

  /** One pass of the loop body: decode the window at `start`, trim it when tokens follow, strip it. */
  method WindowChunk(size: nat, tok: Tokenizer, tokens: seq<Token>, start: nat, chunkId: nat) returns (chunk: Chunk)
    requires start < |tokens| && size >= 1
    ensures var w := WindowAt(|tokens|, size, start);
            chunk == Chunk(WindowText(tok, tokens, w), chunkId, w.start, w.end)
  {
    var end := Min(start + size, |tokens|);
    var chunkText := tok.decode(tokens[start..end]);
    if end < |tokens| {
      chunkText := TrimWindow(chunkText, Min(50, end - start));
    }
    chunk := Chunk(Strip(chunkText), chunkId, start, end);
  }

  /** One turn of the window loop moves the window at the cursor from the ones to visit to the ones visited. */
  lemma WindowsAdvance(all: seq<Window>, done: seq<Window>, n: nat, size: nat, overlap: nat, start: nat)
    requires start < n && all == done + Windows(n, size, overlap, start)
    ensures var w := WindowAt(n, size, start);
            all == (done + [w]) + Windows(n, size, overlap, NextStart(w, overlap))
  {
    var w := WindowAt(n, size, start);
    assert Windows(n, size, overlap, start) == [w] + Windows(n, size, overlap, NextStart(w, overlap));
  }

  /** The window loop of `chunk_text` over the encoded tokens. */
  method ChunkTokens(cfg: ChunkerConfig, tok: Tokenizer, tokens: seq<Token>) returns (chunks: seq<Chunk>)
    requires cfg.chunkSize >= 1
    ensures chunks == Chunks(cfg, tok, tokens)
  {
    var n := |tokens|;
    ghost var all := Windows(n, cfg.chunkSize, cfg.chunkOverlap, 0);
    chunks := [];
    var start := 0;
    var chunkId := 0;
    ghost var done: seq<Window> := [];
    while start < n
      invariant chunkId == |chunks| == |done|
      invariant all == done + Windows(n, cfg.chunkSize, cfg.chunkOverlap, start)
      invariant InTokens(done, n) && chunks == ChunksOf(tok, tokens, done)
      decreases n - start
    {
      var chunk := WindowChunk(cfg.chunkSize, tok, tokens, start, chunkId);
      ghost var w := WindowAt(n, cfg.chunkSize, start);
      WindowsAdvance(all, done, n, cfg.chunkSize, cfg.chunkOverlap, start);
      ChunksOfSnoc(tok, tokens, done, w);
      chunks := chunks + [chunk];
      done := done + [w];
      chunkId := chunkId + 1;
      start := Max(chunk.endToken - cfg.chunkOverlap, start + 1);
      if start >= n {
        break;
      }
    }
    assert Windows(n, cfg.chunkSize, cfg.chunkOverlap, start) == [];
    assert done == all;
  }
}
