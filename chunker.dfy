/** The character-window chunker of the ingestion service (`chunk_text`).

    Text is cut into windows of `chunkSize` characters; each window starts
    `chunkSize - chunkOverlap` characters (the step) after the previous one,
    and the last window is cut short by the end of the text. */
module Chunker {

  /** Default window length and overlap used by the ingestion pipeline. */
  const CHUNK_SIZE: int := 1000
  const CHUNK_OVERLAP: int := 100

  function Min(a: int, b: int): int { if a <= b then a else b }

  /** The number of windows of stride `step` whose starts lie before `n`:
      the ceiling of n / step (zero for an empty text). */
  function CeilDiv(n: int, step: nat): (q: nat)
    requires step > 0
    ensures n <= q * step
    ensures q > 0 ==> (q - 1) * step < n
    ensures n <= 0 <==> q == 0
    decreases n
  {
    if n <= 0 then 0
    else
      var rest := CeilDiv(n - step, step);
      assert (1 + rest) * step == step + rest * step;
      1 + rest
  }

  /** The window that starts at offset `start`: Python's
      `text[start : start + size]`, which stops at the end of the text. */
  function Window(text: string, size: nat, start: nat): (w: string)
    requires size > 0 && start < |text|
    ensures 0 < |w| <= size
    ensures start + |w| == Min(start + size, |text|)
    ensures forall k :: 0 <= k < |w| ==> w[k] == text[start + k]
  {
    text[start .. Min(start + size, |text|)]
  }

  /** i * step, unfolded one step: (i + 1) * step == i * step + step. */
  lemma StepForward(i: nat, step: nat)
    ensures (i + 1) * step == i * step + step
  {
  }

  /** Reference definition of the chunk list: the first window, then the
      chunks of what follows the first step. */
  function Chunks(text: string, size: nat, step: nat): seq<string>
    requires size > 0 && step > 0
    decreases |text|
  {
    if |text| == 0 then []
    else [text[..Min(size, |text|)]] + Chunks(text[Min(step, |text|)..], size, step)
  }

  /** `chunk_text`: an empty text gives no chunk; otherwise a window is taken
      at `start` and `start` advances by the step until it reaches the end.
      The caller must keep the overlap below the size, or `start` never
      advances. */
  method ChunkText(text: string, chunkSize: int, chunkOverlap: int) returns (chunks: seq<string>)
    requires 0 < chunkSize && chunkOverlap < chunkSize
    ensures chunks == Chunks(text, chunkSize, chunkSize - chunkOverlap)
    ensures |text| == 0 ==> chunks == []
    ensures |chunks| == CeilDiv(|text|, chunkSize - chunkOverlap)
  {
    var step: nat := chunkSize - chunkOverlap;
    if |text| == 0 {
      return [];
    }
    chunks := [];
    var start := 0;
    while start < |text|
      invariant 0 <= start
      invariant chunks + Chunks(text[Min(start, |text|)..], chunkSize, step) == Chunks(text, chunkSize, step)
    {
      var end := start + chunkSize;
      ghost var rest := text[start..];
      var chunk := text[start..Min(end, |text|)];
      assert rest[..Min(chunkSize, |rest|)] == chunk;
      ghost var later := text[Min(start + step, |text|)..];
      assert rest[Min(step, |rest|)..] == later;
      assert Chunks(rest, chunkSize, step) == [chunk] + Chunks(later, chunkSize, step);
      assert (chunks + [chunk]) + Chunks(later, chunkSize, step) == chunks + ([chunk] + Chunks(later, chunkSize, step));
      chunks := chunks + [chunk];
      start := start + step;
    }
    assert text[Min(start, |text|)..] == [];
    ChunksCount(text, chunkSize, step);
  }

  /** The reference chunk list has ceil(|text| / step) chunks. */
  lemma {:induction false} ChunksCount(text: string, size: nat, step: nat)
    requires size > 0 && step > 0
    ensures |Chunks(text, size, step)| == CeilDiv(|text|, step)
    decreases |text|
  {
    if |text| > 0 {
      var rest := text[Min(step, |text|)..];
      ChunksCount(rest, size, step);
      assert |Chunks(text, size, step)| == 1 + |Chunks(rest, size, step)|;
    }
  }

  /** Chunk i of the reference chunk list is the window starting at i * step. */
  lemma {:induction false} ChunkAt(text: string, size: nat, step: nat, i: nat)
    requires size > 0 && step > 0
    requires i < |Chunks(text, size, step)|
    ensures i * step < |text| && Chunks(text, size, step)[i] == Window(text, size, i * step)
    decreases i
  {
    var rest := text[Min(step, |text|)..];
    var cs := Chunks(text, size, step);
    assert cs == [text[..Min(size, |text|)]] + Chunks(rest, size, step);
    if i > 0 {
      ChunkAt(rest, size, step, i - 1);
      StepForward(i - 1, step);
      assert cs[i] == Window(rest, size, (i - 1) * step);
    }
  }

  /** Every chunk is non-empty and at most `size` characters long. */
  lemma ChunkLengths(text: string, size: nat, step: nat, i: nat)
    requires size > 0 && step > 0
    requires i < |Chunks(text, size, step)|
    ensures 0 < |Chunks(text, size, step)[i]| <= size
  {
    ChunkAt(text, size, step, i);
  }

  /** With a non-negative overlap the last chunk ends exactly at the end of
      the text. */
  lemma LastChunkEndsAtEnd(text: string, size: nat, step: nat)
    requires 0 < step <= size && |text| > 0
    ensures var cs := Chunks(text, size, step);
            |cs| > 0 && (|cs| - 1) * step + |cs[|cs| - 1]| == |text|
  {
    ChunksCount(text, size, step);
    var c := |Chunks(text, size, step)|;
    ChunkAt(text, size, step, c - 1);
    StepForward(c - 1, step);
  }

  /** With a non-negative overlap, the part of a chunk after its first step
      is a prefix of the next chunk: consecutive chunks share their overlap. */
  lemma ConsecutiveChunksOverlap(text: string, size: nat, step: nat, i: nat)
    requires 0 < step <= size
    requires i + 1 < |Chunks(text, size, step)|
    ensures var cs := Chunks(text, size, step);
            step <= |cs[i]| && cs[i][step..] <= cs[i + 1]
  {
    ChunkAt(text, size, step, i);
    ChunkAt(text, size, step, i + 1);
    var cs := Chunks(text, size, step);
    StepForward(i, step);
    var a, b := cs[i], cs[i + 1];
    assert a == Window(text, size, i * step);
    assert b == Window(text, size, i * step + step);
  }

  /** Inverse of chunking when the overlap is non-negative: the first `step`
      characters of every chunk but the last, followed by the last chunk. */
  function Reassemble(chunks: seq<string>, step: nat): string
  {
    if |chunks| == 0 then []
    else if |chunks| == 1 then chunks[0]
    else chunks[0][..Min(step, |chunks[0]|)] + Reassemble(chunks[1..], step)
  }

  /** When the text is longer than one step, reassembly keeps the first
      step of the first chunk and reassembles the chunks of the rest. */
  lemma ReassembleStep(text: string, size: nat, step: nat)
    requires 0 < step <= size && step < |text|
    ensures Reassemble(Chunks(text, size, step), step) == text[..step] + Reassemble(Chunks(text[step..], size, step), step)
  {
    var first := text[..Min(size, |text|)];
    var rest := text[step..];
    var later := Chunks(rest, size, step);
    assert Chunks(text, size, step) == [first] + later;
    assert later == [rest[..Min(size, |rest|)]] + Chunks(rest[Min(step, |rest|)..], size, step);
    var cs := [first] + later;
    assert cs[1..] == later;
    assert first[..Min(step, |first|)] == text[..step];
  }

  /** Chunking loses nothing: every offset of the text is covered, and the
      text is recovered from its chunks. */
  lemma {:induction false} ReassembleChunks(text: string, size: nat, step: nat)
    requires 0 < step <= size
    ensures Reassemble(Chunks(text, size, step), step) == text
    decreases |text|
  {
    if 0 < |text| <= step {
      assert text[Min(step, |text|)..] == [];
      assert Chunks(text, size, step) == [text[..Min(size, |text|)]];
      assert text[..Min(size, |text|)] == text;
    } else if |text| > step {
      ReassembleStep(text, size, step);
      ReassembleChunks(text[step..], size, step);
      assert text == text[..step] + text[step..];
    }
  }

  /** With the defaults, 1050 characters give [0:1000] and [900:1050]. */
  lemma DefaultChunks1050(text: string)
    requires |text| == 1050
    ensures Chunks(text, CHUNK_SIZE, CHUNK_SIZE - CHUNK_OVERLAP) == [text[0..1000], text[900..1050]]
  {
    var cs := Chunks(text, 1000, 900);
    ChunksCount(text, 1000, 900);
    assert CeilDiv(150, 900) == 1;
    assert |cs| == 2;
    ChunkAt(text, 1000, 900, 0);
    ChunkAt(text, 1000, 900, 1);
  }

  /** With the defaults, 950 characters give two chunks, [0:950] and
      [900:950]: the count is ceil(950 / 900) = 2, and the second chunk lies
      wholly inside the first. */
  lemma DefaultChunks950(text: string)
    requires |text| == 950
    ensures Chunks(text, CHUNK_SIZE, CHUNK_SIZE - CHUNK_OVERLAP) == [text[0..950], text[900..950]]
    ensures text[900..950] == text[0..950][900..]
  {
    var cs := Chunks(text, 1000, 900);
    ChunksCount(text, 1000, 900);
    assert CeilDiv(50, 900) == 1;
    assert |cs| == 2;
    ChunkAt(text, 1000, 900, 0);
    ChunkAt(text, 1000, 900, 1);
  }
}
