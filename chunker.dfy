/**
 * The sliding-window chunker of `content_extractor.py` (both copies of the file
 * are identical). Text is cut into overlapping windows, either over the tokens of
 * an abstract tokenizer or, when no tokenizer is usable, over characters at four
 * characters per token.
 */
module Chunker {
  import opened Wrappers

  const DEFAULT_CHUNK_SIZE: int := 512
  const DEFAULT_OVERLAP: int := 128
  /** Characters assumed per token by the character fallback. */
  const CHARS_PER_TOKEN: int := 4

  type Token = int

  /**
   * The tokenizer the module loads at import time. `encode` yields None when no
   * encoding could be loaded or encoding raised; `decode` is uninterpreted.
   */
  datatype Tokenizer = Tokenizer(encode: string -> Option<seq<Token>>, decode: seq<Token> -> string)

  /** The ValueError raised when the overlap is not smaller than the chunk size. */
  datatype ChunkError = OverlapNotSmaller

  function Min(a: int, b: int): int { if a <= b then a else b }

  /** Python's normalisation of one slice bound against a sequence of length n. */
  function SliceBound(i: int, n: nat): (b: nat)
    ensures b <= n
  {
    if i < 0 then (if i + n < 0 then 0 else i + n)
    else if i > n then n
    else i
  }

  /** Python's `xs[i:j]`, negative bounds included. */
  function PySlice<T>(xs: seq<T>, i: int, j: int): seq<T>
  {
    var a, b := SliceBound(i, |xs|), SliceBound(j, |xs|);
    if a < b then xs[a..b] else []
  }

  lemma PySliceInRange<T>(xs: seq<T>, i: int, j: int)
    requires 0 <= i <= j <= |xs|
    ensures PySlice(xs, i, j) == xs[i..j]
  {
  }

  /** The start of the next window: `start + step`, or `start + 1` when that would not advance. */
  function NextStart(start: nat, step: int): (next: nat)
    ensures next > start
  {
    if start + step <= start then start + 1 else start + step
  }

  /** The windows the chunking loops emit from `start` on, one per start index below `|xs|`. */
  function Windows<T>(xs: seq<T>, size: int, step: int, start: nat): seq<seq<T>>
    decreases |xs| - start
  {
    if start < |xs| then
      [PySlice(xs, start, Min(start + size, |xs|))] + Windows(xs, size, step, NextStart(start, step))
    else
      []
  }

  function DecodeAll(ws: seq<seq<Token>>, decode: seq<Token> -> string): (r: seq<string>)
    ensures |r| == |ws|
    ensures forall k :: 0 <= k < |ws| ==> r[k] == decode(ws[k])
  {
    if ws == [] then [] else [decode(ws[0])] + DecodeAll(ws[1..], decode)
  }

  /** The character windows: width `4*chunkSize`, step `4*chunkSize - 4*overlap`. */
  function CharWindows(content: string, chunkSize: int, overlap: int): seq<string>
  {
    Windows(content, CHARS_PER_TOKEN * chunkSize, CHARS_PER_TOKEN * chunkSize - CHARS_PER_TOKEN * overlap, 0)
  }

  /** The token windows, decoded: width `chunkSize`, step `chunkSize - overlap`. */
  function TokenWindows(tokens: seq<Token>, chunkSize: int, overlap: int, decode: seq<Token> -> string): seq<string>
  {
    DecodeAll(Windows(tokens, chunkSize, chunkSize - overlap, 0), decode)
  }

  /** What `chunk_content(content, chunk_size, overlap)` returns or raises. */
  function Chunks(content: string, chunkSize: int, overlap: int, tok: Tokenizer): Result<seq<string>, ChunkError>
  {
    if content == [] then Success([])
    else if overlap >= chunkSize then Failure(OverlapNotSmaller)
    else
      var cs := match tok.encode(content)
        case Some(tokens) => TokenWindows(tokens, chunkSize, overlap, tok.decode)
        case None => CharWindows(content, chunkSize, overlap);
      Success(if cs == [] then [content] else cs)
  }

  /** `chunk_content`: the empty check first, then the argument check, then one of the two window loops. */
  method ChunkContent(content: string, chunkSize: int, overlap: int, tok: Tokenizer)
    returns (r: Result<seq<string>, ChunkError>)
    ensures r == Chunks(content, chunkSize, overlap, tok)
    ensures content == [] ==> r == Success([])
    ensures r.Failure? <==> content != [] && overlap >= chunkSize
  {
    if content == [] {
      return Success([]);
    }
    if overlap >= chunkSize {
      return Failure(OverlapNotSmaller);
    }
    var encoded := tok.encode(content);
    var chunks;
    if encoded.Some? {
      chunks := TokenChunkLoop(encoded.value, chunkSize, overlap, tok.decode);
    } else {
      chunks := CharChunkLoop(content, chunkSize, overlap);
    }
    if chunks == [] {
      chunks := chunks + [content];
    }
    assert chunks == Chunks(content, chunkSize, overlap, tok).value;
    return Success(chunks);
  }

  /** The token loop of `chunk_content`: one decoded window per start index, advancing by `chunkSize - overlap`. */
  method TokenChunkLoop(tokens: seq<Token>, chunkSize: int, overlap: int, decode: seq<Token> -> string)
    returns (chunks: seq<string>)
    ensures chunks == TokenWindows(tokens, chunkSize, overlap, decode)
  {
    chunks := [];
    var startIdx: nat := 0;
    while startIdx < |tokens|
      invariant chunks + DecodeAll(Windows(tokens, chunkSize, chunkSize - overlap, startIdx), decode)
             == TokenWindows(tokens, chunkSize, overlap, decode)
      decreases |tokens| - startIdx
    {
      ghost var before := chunks;
      var endIdx := Min(startIdx + chunkSize, |tokens|);
      var chunkTokens := PySlice(tokens, startIdx, endIdx);
      chunks := chunks + [decode(chunkTokens)];
      var nextStartIdx := startIdx + chunkSize - overlap;
      if nextStartIdx <= startIdx {
        nextStartIdx := startIdx + 1;
      }
      assert nextStartIdx == NextStart(startIdx, chunkSize - overlap);
      DecodedAdvance(tokens, chunkSize, chunkSize - overlap, decode, before, startIdx, TokenWindows(tokens, chunkSize, overlap, decode));
      startIdx := nextStartIdx;
    }
    assert DecodeAll(Windows(tokens, chunkSize, chunkSize - overlap, startIdx), decode) == [];
  }

  /** The character loop of `chunk_content`: windows of `4*chunkSize` characters, advancing by `4*chunkSize - 4*overlap`. */
  method CharChunkLoop(content: string, chunkSize: int, overlap: int) returns (charChunks: seq<string>)
    ensures charChunks == CharWindows(content, chunkSize, overlap)
  {
    charChunks := [];
    var startIdx: nat := 0;
    var charChunkSize := chunkSize * CHARS_PER_TOKEN;
    var charOverlap := overlap * CHARS_PER_TOKEN;
    while startIdx < |content|
      invariant charChunks + Windows(content, charChunkSize, charChunkSize - charOverlap, startIdx)
             == CharWindows(content, chunkSize, overlap)
      decreases |content| - startIdx
    {
      ghost var before := charChunks;
      var endIdx := Min(startIdx + charChunkSize, |content|);
      charChunks := charChunks + [PySlice(content, startIdx, endIdx)];
      var nextStartIdx := startIdx + charChunkSize - charOverlap;
      if nextStartIdx <= startIdx {
        nextStartIdx := startIdx + 1;
      }
      assert nextStartIdx == NextStart(startIdx, charChunkSize - charOverlap);
      WindowsAdvance(content, charChunkSize, charChunkSize - charOverlap, before, startIdx, CharWindows(content, chunkSize, overlap));
      startIdx := nextStartIdx;
    }
  }

  /** One turn of a window loop: the emitted windows plus those from the next start are still all of them. */
  lemma WindowsAdvance<T>(xs: seq<T>, size: int, step: int, done: seq<seq<T>>, start: nat, all: seq<seq<T>>)
    requires start < |xs| && done + Windows(xs, size, step, start) == all
    ensures (done + [PySlice(xs, start, Min(start + size, |xs|))]) + Windows(xs, size, step, NextStart(start, step)) == all
  {
    var w := PySlice(xs, start, Min(start + size, |xs|));
    assert Windows(xs, size, step, start) == [w] + Windows(xs, size, step, NextStart(start, step));
  }

  /** The same for the decoded token windows. */
  lemma DecodedAdvance(xs: seq<Token>, size: int, step: int, decode: seq<Token> -> string,
                       done: seq<string>, start: nat, all: seq<string>)
    requires start < |xs| && done + DecodeAll(Windows(xs, size, step, start), decode) == all
    ensures (done + [decode(PySlice(xs, start, Min(start + size, |xs|)))]) +
      DecodeAll(Windows(xs, size, step, NextStart(start, step)), decode) == all
  {
    var w := PySlice(xs, start, Min(start + size, |xs|));
    var rest := Windows(xs, size, step, NextStart(start, step));
    assert Windows(xs, size, step, start) == [w] + rest;
    assert ([w] + rest)[1..] == rest;
  }

  /** No window is wider than `size`. */
  lemma {:induction false} WindowsBounded<T>(xs: seq<T>, size: int, step: int, start: nat)
    requires 0 <= size
    ensures forall k :: 0 <= k < |Windows(xs, size, step, start)| ==> |Windows(xs, size, step, start)[k]| <= size
    decreases |xs| - start
  {
    if start < |xs| {
      PySliceInRange(xs, start, Min(start + size, |xs|));
      WindowsBounded(xs, size, step, NextStart(start, step));
    }
  }

  // ---------------------------------------------------------------------------
  // Window geometry. With step s >= 1 and width W >= 0, window k starts at k*s,
  // ends at min(k*s + W, |xs|), and windows exist exactly for the k with k*s < |xs|.
  // ---------------------------------------------------------------------------

  lemma WindowAt<T>(xs: seq<T>, size: int, step: int, start: nat, k: nat)
    requires 0 <= size && 1 <= step
    ensures k < |Windows(xs, size, step, start)| <==> start + k * step < |xs|
    ensures k < |Windows(xs, size, step, start)| ==>
      Windows(xs, size, step, start)[k] == xs[start + k * step .. Min(start + k * step + size, |xs|)]
  {
    WindowAtOffset(xs, size, step, start, k);
    OffsetIsProduct(k, step);
  }

  /** `k` steps of `step`, added up. */
  function Offset(k: nat, step: nat): nat
  {
    if k == 0 then 0 else Offset(k - 1, step) + step
  }

  lemma {:induction false} OffsetIsProduct(k: nat, step: nat)
    ensures Offset(k, step) == k * step
  {
    if k > 0 {
      OffsetIsProduct(k - 1, step);
      StepDistributes(k - 1, step);
    }
  }

  lemma {:induction false} WindowAtOffset<T>(xs: seq<T>, size: int, step: int, start: nat, k: nat)
    requires 0 <= size && 1 <= step
    ensures k < |Windows(xs, size, step, start)| <==> start + Offset(k, step) < |xs|
    ensures k < |Windows(xs, size, step, start)| ==>
      Windows(xs, size, step, start)[k] == xs[start + Offset(k, step) .. Min(start + Offset(k, step) + size, |xs|)]
  {
    WindowExists(xs, size, step, start, k);
    if k < |Windows(xs, size, step, start)| {
      WindowContents(xs, size, step, start, k, start + Offset(k, step));
    }
  }

  lemma {:induction false} WindowExists<T>(xs: seq<T>, size: int, step: int, start: nat, k: nat)
    requires 0 <= size && 1 <= step
    ensures k < |Windows(xs, size, step, start)| <==> start + Offset(k, step) < |xs|
    decreases |xs| - start
  {
    if start < |xs| {
      WindowsUnfold(xs, size, step, start);
      if k > 0 {
        WindowExists(xs, size, step, start + step, k - 1);
      }
    }
  }

  lemma {:induction false} WindowContents<T>(xs: seq<T>, size: int, step: int, start: nat, k: nat, a: nat)
    requires 0 <= size && 1 <= step && k < |Windows(xs, size, step, start)| && a == start + Offset(k, step)
    ensures a < |xs| && Windows(xs, size, step, start)[k] == xs[a .. Min(a + size, |xs|)]
    decreases |xs| - start
  {
    if k == 0 {
      WindowFirst(xs, size, step, start);
    } else {
      WindowNext(xs, size, step, start, k);
      WindowContents(xs, size, step, start + step, k - 1, a);
    }
  }

  lemma WindowFirst<T>(xs: seq<T>, size: int, step: int, start: nat)
    requires 0 <= size && 1 <= step && 0 < |Windows(xs, size, step, start)|
    ensures start < |xs| && Windows(xs, size, step, start)[0] == xs[start .. Min(start + size, |xs|)]
  {
    WindowsUnfold(xs, size, step, start);
  }

  /** Window `k` from `start` is window `k - 1` from the next start. */
  lemma WindowNext<T>(xs: seq<T>, size: int, step: int, start: nat, k: nat)
    requires 0 <= size && 1 <= step && 0 < k < |Windows(xs, size, step, start)|
    ensures start < |xs| && k - 1 < |Windows(xs, size, step, start + step)|
    ensures Windows(xs, size, step, start)[k] == Windows(xs, size, step, start + step)[k - 1]
  {
    WindowsUnfold(xs, size, step, start);
  }

  /** One window, then the windows from the next start. */
  lemma WindowsUnfold<T>(xs: seq<T>, size: int, step: int, start: nat)
    requires 0 <= size && 1 <= step && start < |xs|
    ensures Windows(xs, size, step, start) == [xs[start .. Min(start + size, |xs|)]] + Windows(xs, size, step, start + step)
  {
    PySliceInRange(xs, start, Min(start + size, |xs|));
  }

  lemma WindowCount<T>(xs: seq<T>, size: int, step: int)
    requires 0 <= size && 1 <= step
    ensures var n := |Windows(xs, size, step, 0)|;
      (n == 0 <==> xs == []) && (n > 0 ==> (n - 1) * step < |xs| <= n * step)
  {
    var n := |Windows(xs, size, step, 0)|;
    WindowAt(xs, size, step, 0, n);
    WindowAt(xs, size, step, 0, 0);
    if n > 0 {
      WindowAt(xs, size, step, 0, n - 1);
    }
  }

  lemma StepDistributes(k: int, step: int)
    ensures (k + 1) * step == k * step + step
  {
  }

  lemma DivBounds(i: nat, step: int)
    requires 1 <= step
    ensures 0 <= (i / step) * step <= i < (i / step) * step + step
    ensures i % step == i - (i / step) * step
  {
  }

  /** Every element lies in the window `i / step`, at offset `i % step`. */
  lemma WindowsCover<T>(xs: seq<T>, size: int, step: int, i: nat)
    requires 1 <= step <= size && i < |xs|
    ensures var ws := Windows(xs, size, step, 0);
      i / step < |ws| && i % step < |ws[i / step]| && ws[i / step][i % step] == xs[i]
  {
    var k := i / step;
    DivBounds(i, step);
    var base := k * step;
    var ws := Windows(xs, size, step, 0);
    assert k < |ws| && ws[k] == xs[base .. Min(base + size, |xs|)] by {
      WindowAt(xs, size, step, 0, k);
    }
    assert ws[k][i - base] == xs[i];
  }

  /** The last window runs to the end of the sequence. */
  lemma LastWindowEnds<T>(xs: seq<T>, size: int, step: int)
    requires 1 <= step <= size && xs != []
    ensures var ws := Windows(xs, size, step, 0);
      ws != [] && (|ws| - 1) * step < |xs| && ws[|ws| - 1] == xs[(|ws| - 1) * step ..]
  {
    var n := |Windows(xs, size, step, 0)|;
    WindowCount(xs, size, step);
    WindowAt(xs, size, step, 0, n - 1);
    StepDistributes(n - 1, step);
  }

  /** A full window and its successor share exactly `size - step` elements. */
  lemma WindowsOverlap<T>(xs: seq<T>, size: int, step: int, k: nat)
    requires 1 <= step <= size
    requires k + 1 < |Windows(xs, size, step, 0)| && |Windows(xs, size, step, 0)[k]| == size
    ensures var ws := Windows(xs, size, step, 0);
      size - step <= |ws[k + 1]| && ws[k][step..] == ws[k + 1][..size - step]
  {
    var a := Offset(k, step);
    WindowContents(xs, size, step, 0, k, a);
    WindowContents(xs, size, step, 0, k + 1, a + step);
    SliceOverlap(xs, a, size, step, Min(a + step + size, |xs|));
  }

  lemma SliceOverlap<T>(xs: seq<T>, a: nat, size: int, step: int, e: int)
    requires 1 <= step <= size && a + size <= e <= |xs|
    ensures xs[a .. a + size][step..] == xs[a + step .. e][..size - step]
  {
    assert xs[a .. a + size][step..] == xs[a + step .. a + size];
    assert xs[a + step .. e][..size - step] == xs[a + step .. a + size];
  }

  // ---------------------------------------------------------------------------
  // The chunker's promises, stated on `Chunks`.
  // ---------------------------------------------------------------------------

  /** Character path: chunk k is `content[k*s : min(k*s + W, len)]`, emitted exactly while `k*s < len`. */
  lemma CharChunkAt(content: string, chunkSize: int, overlap: int, tok: Tokenizer, k: nat)
    requires tok.encode(content).None? && 0 <= chunkSize && overlap < chunkSize
    ensures Chunks(content, chunkSize, overlap, tok).Success?
    ensures var r, w, s := Chunks(content, chunkSize, overlap, tok).value, 4 * chunkSize, 4 * chunkSize - 4 * overlap;
      (k < |r| <==> k * s < |content|) &&
      (k < |r| ==> r[k] == content[k * s .. Min(k * s + w, |content|)])
  {
    WindowAt(content, 4 * chunkSize, 4 * chunkSize - 4 * overlap, 0, k);
    WindowCount(content, 4 * chunkSize, 4 * chunkSize - 4 * overlap);
  }

  /** Token path: the same windows over the tokens, each decoded; no tokens at all yields the whole text. */
  lemma TokenChunkAt(content: string, chunkSize: int, overlap: int, tok: Tokenizer, k: nat)
    requires content != [] && tok.encode(content).Some? && 0 <= chunkSize && overlap < chunkSize
    ensures Chunks(content, chunkSize, overlap, tok).Success?
    ensures var r, tokens, s := Chunks(content, chunkSize, overlap, tok).value, tok.encode(content).value, chunkSize - overlap;
      (tokens == [] ==> r == [content]) &&
      (tokens != [] ==>
        (k < |r| <==> k * s < |tokens|) &&
        (k < |r| ==> r[k] == tok.decode(tokens[k * s .. Min(k * s + chunkSize, |tokens|)])))
  {
    var tokens := tok.encode(content).value;
    WindowAt(tokens, chunkSize, chunkSize - overlap, 0, k);
    WindowCount(tokens, chunkSize, chunkSize - overlap);
  }

  /** Non-empty content yields at least one chunk; on the character path each is at most `4*chunkSize` long. */
  lemma ChunkBounds(content: string, chunkSize: int, overlap: int, tok: Tokenizer)
    requires 0 <= chunkSize && overlap < chunkSize
    ensures Chunks(content, chunkSize, overlap, tok).Success?
    ensures var r := Chunks(content, chunkSize, overlap, tok).value;
      (content != [] <==> |r| >= 1) &&
      (tok.encode(content).None? ==> forall k :: 0 <= k < |r| ==> |r[k]| <= 4 * chunkSize)
  {
    if tok.encode(content).None? {
      WindowsBounded(content, 4 * chunkSize, 4 * chunkSize - 4 * overlap, 0);
    }
  }

  /** The last character chunk ends at `len(content)`. */
  lemma CharChunksEnd(content: string, chunkSize: int, overlap: int, tok: Tokenizer)
    requires tok.encode(content).None? && 0 <= overlap < chunkSize && content != []
    ensures Chunks(content, chunkSize, overlap, tok).Success?
    ensures var r, s := Chunks(content, chunkSize, overlap, tok).value, 4 * chunkSize - 4 * overlap;
      r != [] && (|r| - 1) * s < |content| && r[|r| - 1] == content[(|r| - 1) * s ..]
  {
    LastWindowEnds(content, 4 * chunkSize, 4 * chunkSize - 4 * overlap);
  }

  /** With `0 <= overlap < chunkSize` the character chunks cover the text: character i is found in chunk `i / s`. */
  lemma CharChunksCover(content: string, chunkSize: int, overlap: int, tok: Tokenizer, i: nat)
    requires tok.encode(content).None? && 0 <= overlap < chunkSize && i < |content|
    ensures Chunks(content, chunkSize, overlap, tok).Success?
    ensures var r, s := Chunks(content, chunkSize, overlap, tok).value, 4 * chunkSize - 4 * overlap;
      i / s < |r| && i % s < |r[i / s]| && r[i / s][i % s] == content[i]
  {
    WindowsCover(content, 4 * chunkSize, 4 * chunkSize - 4 * overlap, i);
  }

  /** A full character chunk and its successor share exactly `4*overlap` characters. */
  lemma CharChunksOverlap(content: string, chunkSize: int, overlap: int, tok: Tokenizer, k: nat)
    requires tok.encode(content).None? && 0 <= overlap < chunkSize
    requires var r := Chunks(content, chunkSize, overlap, tok).value;
      k + 1 < |r| && |r[k]| == 4 * chunkSize
    ensures var r, s := Chunks(content, chunkSize, overlap, tok).value, 4 * chunkSize - 4 * overlap;
      4 * overlap <= |r[k + 1]| && r[k][s..] == r[k + 1][..4 * overlap]
  {
    WindowsOverlap(content, 4 * chunkSize, 4 * chunkSize - 4 * overlap, k);
  }
}
