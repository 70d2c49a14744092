/** Splitting a document's tokens into overlapping chunks. */
module Chunking {
  import opened Ordering
  import opened Text

  type Token = string

  datatype ChunkerError = NonPositiveSize | OverlapOutOfRange

  datatype Chunk = Chunk(ordinal: nat, text: string)

  // ----- tokens -----

  function Word(w: string): seq<Token> { if w == "" then [] else [w] }

  /** Splits the rest of a text, `word` being the word under way. */
  function Scan(text: string, word: string): seq<Token>
    decreases |text|
  {
    if text == "" then Word(word)
    else if IsSpace(text[0]) then Word(word) + Scan(text[1..], "")
    else Scan(text[1..], word + [text[0]])
  }

  /** The words between white space. */
  function Tokens(text: string): seq<Token> { Scan(text, "") }

  /** One space between two words. */
  function Join(tokens: seq<Token>): string {
    if tokens == [] then ""
    else if |tokens| == 1 then tokens[0]
    else tokens[0] + (" " + Join(tokens[1..]))
  }

  ghost predicate Plain(t: Token) { forall c | c in t :: !IsSpace(c) }

  ghost predicate Words(tokens: seq<Token>) {
    tokens == [] || (tokens[0] != "" && Plain(tokens[0]) && Words(tokens[1..]))
  }

  lemma {:induction false} ScanGivesWords(text: string, word: string)
    requires Plain(word)
    ensures Words(Scan(text, word))
    decreases |text|
  {
    if text == "" {
    } else if IsSpace(text[0]) {
      ScanGivesWords(text[1..], "");
      var rest := Scan(text[1..], "");
      assert word != "" ==> (Word(word) + rest)[1..] == rest;
      assert word == "" ==> Word(word) + rest == rest;
    } else {
      ScanGivesWords(text[1..], word + [text[0]]);
    }
  }

  lemma {:induction false} ScanThroughWord(t: Token, rest: string, word: string)
    requires Plain(t)
    ensures Scan(t + rest, word) == Scan(rest, word + t)
    decreases |t|
  {
    if t == "" {
      assert t + rest == rest && word + t == word;
    } else {
      assert (t + rest)[0] == t[0] && (t + rest)[1..] == t[1..] + rest;
      ScanThroughWord(t[1..], rest, word + [t[0]]);
      assert word + [t[0]] + t[1..] == word + t;
    }
  }

  /** Joining words and splitting again gives the words back. */
  lemma {:induction false} SplitJoin(tokens: seq<Token>)
    requires Words(tokens)
    ensures Tokens(Join(tokens)) == tokens
    ensures Join(tokens) == "" <==> tokens == []
  {
    if tokens == [] {
    } else if |tokens| == 1 {
      ScanThroughWord(tokens[0], "", "");
      assert tokens[0] + "" == tokens[0] && "" + tokens[0] == tokens[0];
      assert tokens == [tokens[0]];
    } else {
      var rest := " " + Join(tokens[1..]);
      SplitJoin(tokens[1..]);
      ScanThroughWord(tokens[0], rest, "");
      assert "" + tokens[0] == tokens[0];
      assert rest[0] == ' ' && rest[1..] == Join(tokens[1..]);
      assert tokens == [tokens[0]] + tokens[1..];
    }
  }

  /** A word is its own only token. */
  lemma TokensOfWord(w: Token)
    requires Plain(w)
    ensures Tokens(w) == if w == "" then [] else [w]
  {
    ScanThroughWord(w, "", "");
    assert w + "" == w && "" + w == w;
  }

  /** White space parts a text: the tokens before it, then those after it. */
  lemma TokensAtSpace(a: string, c: char, b: string)
    requires IsSpace(c)
    ensures Tokens(a + [c] + b) == Tokens(a) + Tokens(b)
  {
    ScanAtSpace(a, c, b, "");
  }

  lemma {:induction false} ScanAtSpace(a: string, c: char, b: string, word: string)
    requires IsSpace(c)
    ensures Scan(a + [c] + b, word) == Scan(a, word) + Scan(b, "")
    decreases |a|
  {
    var text := a + [c] + b;
    if a == "" {
      assert text[0] == c && text[1..] == b;
    } else {
      assert text[0] == a[0] && text[1..] == a[1..] + [c] + b;
      if IsSpace(a[0]) {
        ScanAtSpace(a[1..], c, b, "");
        Assoc(Word(word), Scan(a[1..], ""), Scan(b, ""));
      } else {
        ScanAtSpace(a[1..], c, b, word + [a[0]]);
      }
    }
  }

  /** White space is a single space character, between two others. */
  ghost predicate SingleSpaced(text: string) {
    forall i | 0 <= i < |text| && IsSpace(text[i]) ::
      && text[i] == ' ' && 0 < i < |text| - 1 && !IsSpace(text[i - 1]) && !IsSpace(text[i + 1])
  }

  lemma {:induction false} JoinSpaced(tokens: seq<Token>)
    requires Words(tokens)
    ensures SingleSpaced(Join(tokens)) && (tokens != [] ==> Join(tokens) != "" && !IsSpace(Join(tokens)[0]))
  {
    if |tokens| > 1 {
      JoinSpaced(tokens[1..]);
      assert tokens[1..] != [];
      SpacedAfter(tokens[0], Join(tokens[1..]));
    }
  }

  lemma SpacedAfter(w: Token, rest: string)
    requires w != "" && Plain(w) && rest != "" && SingleSpaced(rest) && !IsSpace(rest[0])
    ensures SingleSpaced(w + (" " + rest)) && !IsSpace((w + (" " + rest))[0])
  {
    var text, n := w + (" " + rest), |w| + 1;
    forall i | 0 <= i < |w| ensures text[i] == w[i] && !IsSpace(text[i]) { assert w[i] in w; }
    assert forall i | 0 <= i < |rest| :: text[n + i] == rest[i];
    forall i | 0 <= i < |text| && IsSpace(text[i])
      ensures text[i] == ' ' && 0 < i < |text| - 1 && !IsSpace(text[i - 1]) && !IsSpace(text[i + 1])
    {
      if i == |w| {
        assert text[i + 1] == rest[0];
      } else {
        assert IsSpace(rest[i - n]) && text[i - 1] == rest[i - n - 1] && text[i + 1] == rest[i - n + 1];
      }
    }
  }

  lemma {:induction false} WordsDrop(tokens: seq<Token>, i: nat)
    requires Words(tokens) && i <= |tokens|
    ensures Words(tokens[i..])
  {
    if i > 0 {
      WordsDrop(tokens[1..], i - 1);
      assert tokens[i..] == tokens[1..][i - 1..];
    } else {
      assert tokens[0..] == tokens;
    }
  }

  lemma {:induction false} WordsTake(tokens: seq<Token>, n: nat)
    requires Words(tokens) && n <= |tokens|
    ensures Words(tokens[..n])
  {
    if n > 0 {
      WordsTake(tokens[1..], n - 1);
      assert tokens[..n][1..] == tokens[1..][..n - 1];
    }
  }

  // ----- the shape of the result -----

  /** At most `size` tokens from `start` on. */
  function Window(tokens: seq<Token>, size: nat, start: nat): seq<Token>
    requires start <= |tokens|
  {
    if start + size < |tokens| then tokens[start..start + size] else tokens[start..]
  }

  lemma WindowWords(tokens: seq<Token>, size: nat, start: nat)
    requires Words(tokens) && start <= |tokens|
    ensures Words(Window(tokens, size, start))
  {
    WordsDrop(tokens, start);
    if start + size < |tokens| {
      WordsTake(tokens[start..], size);
      assert tokens[start..][..size] == tokens[start..start + size];
    }
  }

  /** How many chunks there are: none for no token, one when all fit, else one more for each started step. */
  function ChunkCount(n: nat, size: nat, step: nat): nat
    requires step >= 1
  {
    if n == 0 then 0 else if n <= size then 1 else 1 + (n - size + step - 1) / step
  }

  ghost predicate IsChunk(c: Chunk, tokens: seq<Token>, size: nat, start: nat, ordinal: nat) {
    start <= |tokens| && c.ordinal == ordinal && Tokens(c.text) == Window(tokens, size, start)
  }

  /** What the chunks of a token list must be: chunk `i` starts `i` steps in, and the count is as predicted. */
  ghost predicate ChunksOf(chunks: seq<Chunk>, tokens: seq<Token>, size: nat, overlap: nat)
    requires overlap < size
  {
    && |chunks| == ChunkCount(|tokens|, size, size - overlap)
    && forall i: nat | i < |chunks| :: IsChunk(chunks[i], tokens, size, i * (size - overlap), i)
  }

  // ----- the chunker -----

  class DeterministicChunker {
    const size: nat
    const overlap: nat

    ghost predicate Valid() { overlap < size }

    constructor (size: nat, overlap: nat)
      requires overlap < size
      ensures Valid() && this.size == size && this.overlap == overlap
    {
      this.size, this.overlap := size, overlap;
    }

    method ChunkText(content: string) returns (chunks: seq<Chunk>)
      requires Valid()
      ensures ChunksOf(chunks, Tokens(content), size, overlap)
      ensures forall i | 0 <= i < |chunks| :: SingleSpaced(chunks[i].text)
    {
      chunks := [];
      var tokens := Tokens(content);
      ScanGivesWords(content, "");
      if tokens == [] {
        return;
      }
      var step := size - overlap;
      var start, ordinal := 0, 0;
      while start < |tokens|
        invariant |chunks| == ordinal && start == ordinal * step
        invariant forall i: nat | i < |chunks| :: IsChunk(chunks[i], tokens, size, i * step, i)
        invariant forall i | 0 <= i < |chunks| :: SingleSpaced(chunks[i].text)
        invariant ordinal > 0 ==> start + overlap < |tokens|
        invariant start < |tokens|
        decreases |tokens| - start
      {
        WindowWords(tokens, size, start);
        SplitJoin(Window(tokens, size, start));
        JoinSpaced(Window(tokens, size, start));
        var text := Join(Window(tokens, size, start));
        if text == "" {
          break;
        }
        chunks := chunks + [Chunk(ordinal, text)];
        if start + size >= |tokens| {
          LastOrdinal(|tokens|, size, step, ordinal);
          return;
        }
        NextStart(ordinal, step);
        start, ordinal := start + step, ordinal + 1;
      }
      assert false;
    }
  }

  /** The settings are checked before anything else. */
  method MakeChunker(size: int, overlap: int) returns (c: Option<DeterministicChunker>, error: Option<ChunkerError>)
    ensures c.Some? <==> size >= 1 && 0 <= overlap < size
    ensures c.Some? ==> error == None && fresh(c.value) && c.value.Valid()
                        && c.value.size == size && c.value.overlap == overlap
    ensures size < 1 ==> error == Some(NonPositiveSize)
    ensures size >= 1 && !(0 <= overlap < size) ==> error == Some(OverlapOutOfRange)
  {
    if size < 1 {
      return None, Some(NonPositiveSize);
    }
    if overlap < 0 || overlap >= size {
      return None, Some(OverlapOutOfRange);
    }
    var made := new DeterministicChunker(size, overlap);
    return Some(made), None;
  }

  // ----- counting -----

  lemma NextStart(i: nat, step: nat)
    ensures (i + 1) * step == i * step + step
  {
  }

  lemma Between(d: int, s: int)
    requires s >= 1 && -s < d * s < s
    ensures d == 0
  {
  }

  lemma QuotientIs(x: nat, s: nat, i: nat)
    requires s >= 1 && i * s <= x < i * s + s
    ensures x / s == i
  {
    var q := x / s;
    assert q * s <= x < q * s + s;
    assert (q - i) * s == q * s - i * s;
    Between(q - i, s);
  }

  /** The loop stops at the ordinal that the count predicts. */
  lemma LastOrdinal(n: nat, size: nat, step: nat, i: nat)
    requires n > 0 && 1 <= step <= size && i * step < n <= i * step + size
    requires i > 0 ==> i * step + size - step < n
    ensures i + 1 == ChunkCount(n, size, step)
  {
    if i == 0 {
    } else {
      NextStart(i - 1, step);
      QuotientIs(n - size + step - 1, step, i);
    }
  }

  /** The last chunk reaches the end, and only the last; it has more tokens than the overlap. */
  lemma CountFits(n: nat, size: nat, overlap: nat, i: nat)
    requires overlap < size && i < ChunkCount(n, size, size - overlap)
    ensures i * (size - overlap) + (if i == 0 then 0 else overlap) < n
    ensures i + 1 == ChunkCount(n, size, size - overlap) <==> i * (size - overlap) + size >= n
  {
    var step := size - overlap;
    if n > size {
      var m := n - size;
      var last := (m + step - 1) / step;
      assert last * step <= m + step - 1 < last * step + step;
      Ordered(i, last, step);
    } else {
      assert i == 0;
    }
  }

  lemma Distributes(a: int, b: int, s: int)
    ensures (a - b) * s == a * s - b * s
  {
  }

  lemma Grows(d: int, s: int)
    requires d >= 0 && s >= 0
    ensures d * s >= 0 && (d >= 1 ==> d * s >= s)
  {
  }

  lemma Ordered(i: nat, last: nat, step: nat)
    requires i <= last
    ensures i * step <= last * step
    ensures i < last ==> i * step + step <= last * step
  {
    Distributes(last, i, step);
    Grows(last - i, step);
  }

  // ----- what the chunks hold -----

  /** The tokens back from the chunks: the first chunk, then every later one without its first tokens. */
  function Rebuilt(chunks: seq<Chunk>, overlap: nat): seq<Token> {
    if chunks == [] then []
    else if |chunks| == 1 then Tokens(chunks[0].text)
    else
      var last := Tokens(chunks[|chunks| - 1].text);
      Rebuilt(chunks[..|chunks| - 1], overlap) + (if overlap <= |last| then last[overlap..] else [])
  }

  /** Every chunk but the last is full, and a chunk begins with exactly the last `overlap` tokens of the one
      before it, followed by at least one more token. */
  lemma NeighboursOverlap(chunks: seq<Chunk>, tokens: seq<Token>, size: nat, overlap: nat, i: nat)
    requires overlap < size && ChunksOf(chunks, tokens, size, overlap) && i + 1 < |chunks|
    ensures |Tokens(chunks[i].text)| == size && |Tokens(chunks[i + 1].text)| > overlap
    ensures Tokens(chunks[i].text)[size - overlap..] == Tokens(chunks[i + 1].text)[..overlap]
  {
    var step := size - overlap;
    CountFits(|tokens|, size, overlap, i);
    CountFits(|tokens|, size, overlap, i + 1);
    NextStart(i, step);
    assert IsChunk(chunks[i], tokens, size, i * step, i);
    assert IsChunk(chunks[i + 1], tokens, size, (i + 1) * step, i + 1);
    WindowsOverlap(tokens, size, overlap, i * step);
  }

  /** The tokens up to the end of the window that starts at `start`. */
  function Covered(tokens: seq<Token>, size: nat, start: nat): seq<Token> {
    if start + size < |tokens| then tokens[..start + size] else tokens
  }

  lemma WindowsOverlap(tokens: seq<Token>, size: nat, overlap: nat, start: nat)
    requires overlap < size && start + size < |tokens|
    ensures |Window(tokens, size, start)| == size && |Window(tokens, size, start + size - overlap)| > overlap
    ensures Window(tokens, size, start)[size - overlap..] == Window(tokens, size, start + size - overlap)[..overlap]
    ensures Covered(tokens, size, start) + Window(tokens, size, start + size - overlap)[overlap..]
         == Covered(tokens, size, start + size - overlap)
  {
  }

  lemma RebuiltStep(chunks: seq<Chunk>, tokens: seq<Token>, size: nat, overlap: nat, start: nat)
    requires overlap < size && start + size < |tokens| && |chunks| >= 2
    requires Tokens(chunks[|chunks| - 1].text) == Window(tokens, size, start + size - overlap)
    requires Rebuilt(chunks[..|chunks| - 1], overlap) == Covered(tokens, size, start)
    ensures Rebuilt(chunks, overlap) == Covered(tokens, size, start + size - overlap)
  {
    WindowsOverlap(tokens, size, overlap, start);
  }

  /** Chunk `i` starts at `start`; every chunk but the last ends before the end. */
  ghost predicate StartsAt(i: nat, step: nat, start: nat) { start == i * step }

  lemma ChunkAt(chunks: seq<Chunk>, tokens: seq<Token>, size: nat, overlap: nat, i: nat, start: nat)
    requires overlap < size && ChunksOf(chunks, tokens, size, overlap) && i < |chunks|
    requires StartsAt(i, size - overlap, start)
    ensures start <= |tokens| && Tokens(chunks[i].text) == Window(tokens, size, start)
    ensures i + 1 < |chunks| ==> start + size < |tokens|
  {
    assert IsChunk(chunks[i], tokens, size, i * (size - overlap), i);
    CountFits(|tokens|, size, overlap, i);
  }

  /** The chunks start one step apart, the last of them at `start`. */
  ghost predicate Laid(chunks: seq<Chunk>, start: nat, tokens: seq<Token>, size: nat, overlap: nat)
    requires overlap < size
  {
    && chunks != [] && start <= |tokens| && Tokens(chunks[|chunks| - 1].text) == Window(tokens, size, start)
    && if |chunks| == 1 then start == 0
       else
         && start >= size - overlap && start + overlap < |tokens|
         && Laid(chunks[..|chunks| - 1], start - (size - overlap), tokens, size, overlap)
  }

  lemma LaidFront(chunks: seq<Chunk>, start: nat, tokens: seq<Token>, size: nat, overlap: nat) returns (before: nat)
    requires overlap < size && Laid(chunks, start, tokens, size, overlap) && |chunks| > 1
    ensures start == before + size - overlap && before + size < |tokens|
    ensures Laid(chunks[..|chunks| - 1], before, tokens, size, overlap)
    ensures Tokens(chunks[|chunks| - 1].text) == Window(tokens, size, before + size - overlap)
  {
    before := start - (size - overlap);
  }

  lemma RebuiltOne(chunks: seq<Chunk>, start: nat, tokens: seq<Token>, size: nat, overlap: nat)
    requires overlap < size && Laid(chunks, start, tokens, size, overlap) && |chunks| == 1
    ensures Rebuilt(chunks, overlap) == Covered(tokens, size, start)
  {
  }

  lemma {:induction false} RebuiltLaid(chunks: seq<Chunk>, start: nat, tokens: seq<Token>, size: nat, overlap: nat)
    requires overlap < size && Laid(chunks, start, tokens, size, overlap)
    ensures Rebuilt(chunks, overlap) == Covered(tokens, size, start)
    decreases |chunks|
  {
    if |chunks| == 1 {
      RebuiltOne(chunks, start, tokens, size, overlap);
    } else {
      var before := LaidFront(chunks, start, tokens, size, overlap);
      RebuiltLaid(chunks[..|chunks| - 1], before, tokens, size, overlap);
      RebuiltStep(chunks, tokens, size, overlap, before);
    }
  }

  lemma {:induction false} LayOut(chunks: seq<Chunk>, tokens: seq<Token>, size: nat, overlap: nat, n: nat)
    returns (start: nat)
    requires overlap < size && ChunksOf(chunks, tokens, size, overlap) && n < |chunks|
    ensures Laid(chunks[..n + 1], start, tokens, size, overlap) && StartsAt(n, size - overlap, start)
    decreases n
  {
    if n == 0 {
      start := 0;
    } else {
      var prev := LayOut(chunks, tokens, size, overlap, n - 1);
      StartAfter(n - 1, size - overlap, prev);
      ChunkAt(chunks, tokens, size, overlap, n - 1, prev);
      start := prev + size - overlap;
      assert chunks[..n + 1][..n] == chunks[..n];
    }
    ChunkAt(chunks, tokens, size, overlap, n, start);
  }

  lemma StartAfter(i: nat, step: nat, start: nat)
    requires StartsAt(i, step, start)
    ensures StartsAt(i + 1, step, start + step)
  {
    NextStart(i, step);
  }

  /** Nothing is lost: the chunks rebuild the token list. */
  lemma ChunksRebuild(chunks: seq<Chunk>, tokens: seq<Token>, size: nat, overlap: nat)
    requires overlap < size && ChunksOf(chunks, tokens, size, overlap)
    ensures Rebuilt(chunks, overlap) == tokens
  {
    if tokens == [] {
    } else {
      CountFits(|tokens|, size, overlap, |chunks| - 1);
      var start := LayOut(chunks, tokens, size, overlap, |chunks| - 1);
      assert chunks[..|chunks|] == chunks;
      RebuiltLaid(chunks, start, tokens, size, overlap);
    }
  }
}
