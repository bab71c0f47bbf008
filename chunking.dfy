/**
 * Splitting the clones' documents for their vector stores
 * (backend/rag/rag.tools.go). Go strings are indexed by byte, so a
 * document is a byte sequence and a chunk is a window on it: windows of
 * `size` bytes whose starts are `size - overlap` apart, the last ones cut
 * at the end of the text.
 */
module Chunking {

  import opened Wrappers

  newtype byte = x: int | 0 <= x < 256

  function Min(a: int, b: int): int { if a <= b then a else b }

  /** The windows starting at `start`, `start + step`, ... while they start inside the text. */
  function ChunksFrom(text: seq<byte>, start: nat, size: nat, step: nat): (chunks: seq<seq<byte>>)
    requires step > 0
    decreases |text| - start
  {
    if start >= |text| then []
    else [text[start..Min(start + size, |text|)]] + ChunksFrom(text, start + step, size, step)
  }

  /** `ChunkText`'s result: the windows from the beginning of the text. */
  function Chunks(text: seq<byte>, size: nat, step: nat): seq<seq<byte>>
    requires step > 0
  {
    ChunksFrom(text, 0, size, step)
  }

  /** The number of windows that start inside a text of length n: the ceiling of n / step. */
  function ChunkCount(n: nat, step: nat): nat
    requires step > 0
  {
    (n + step - 1) / step
  }

  /**
   * `ChunkText`: a loop over the window starts. On an empty text the loop
   * never runs, whatever the sizes. Otherwise the Go code loops forever when
   * `overlap == chunkSize`, panics on the second window's slice when
   * `overlap > chunkSize` (the start goes negative), and panics on the first
   * when `chunkSize` is negative; the precondition rules out those three.
   */
  method ChunkText(text: seq<byte>, chunkSize: int, overlap: int) returns (chunks: seq<seq<byte>>)
    requires |text| == 0 || (0 <= chunkSize && overlap < chunkSize)
    ensures |text| == 0 ==> chunks == []
    ensures |text| > 0 ==> chunks == Chunks(text, chunkSize, chunkSize - overlap)
  {
    var step := chunkSize - overlap;
    chunks := [];
    var start := 0;
    while start < |text|
      invariant 0 <= start
      invariant |text| == 0 ==> chunks == []
      invariant |text| > 0 ==> chunks + ChunksFrom(text, start, chunkSize, step) == Chunks(text, chunkSize, step)
      decreases |text| - start
    {
      var end := start + chunkSize;
      if end > |text| {
        end := |text|;
      }
      assert ChunksFrom(text, start, chunkSize, step)
        == [text[start..end]] + ChunksFrom(text, start + step, chunkSize, step);
      chunks := chunks + [text[start..end]];
      start := start + step;
    }
  }

  /** Window k counted from `start` starts k steps further. */
  lemma {:induction false} ChunksFromAt(text: seq<byte>, start: nat, size: nat, step: nat, k: nat)
    requires step > 0
    requires k < |ChunksFrom(text, start, size, step)|
    ensures start + k * step < |text|
    ensures ChunksFrom(text, start, size, step)[k]
      == text[start + k * step..Min(start + k * step + size, |text|)]
    decreases |text| - start
  {
    if k > 0 {
      ChunksFromAt(text, start + step, size, step, k - 1);
      assert start + step + (k - 1) * step == start + k * step;
    }
  }

  /** How many windows start at or after `start`. */
  lemma {:induction false} ChunksFromCount(text: seq<byte>, start: nat, size: nat, step: nat)
    requires step > 0
    ensures |ChunksFrom(text, start, size, step)|
      == if start >= |text| then 0 else ChunkCount(|text| - start, step)
    decreases |text| - start
  {
    if start < |text| {
      ChunksFromCount(text, start + step, size, step);
      var n := |text| - start;
      if start + step >= |text| {
        CountOne(n, step);
      } else {
        CountStep(n, step);
      }
    }
  }

  /** A text no longer than one step has one window. */
  lemma CountOne(n: nat, step: nat)
    requires 0 < n <= step
    ensures ChunkCount(n, step) == 1
  {
    DivUnique(n + step - 1, 1, n - 1, step);
  }

  /** A text longer than one step has one window more than its rest after the first step. */
  lemma CountStep(n: nat, step: nat)
    requires 0 < step < n
    ensures ChunkCount(n, step) == ChunkCount(n - step, step) + 1
  {
    var q := (n - 1) / step;
    var r := (n - 1) % step;
    assert n - step + step - 1 == n - 1 == q * step + r;
    assert (q + 1) * step == q * step + step;
    DivUnique(n + step - 1, q + 1, r, step);
  }

  /** Euclidean division is unique: a quotient and remainder that fit are the ones. */
  lemma DivUnique(a: nat, q: nat, r: nat, step: nat)
    requires step > 0 && r < step && a == q * step + r
    ensures a / step == q && a % step == r
  {
    var q' := a / step;
    var r' := a % step;
    assert a == q' * step + r';
    if q' > q {
      MulStrict(q, q', step);
    } else if q' < q {
      MulStrict(q', q, step);
    }
  }

  lemma MulStrict(x: nat, y: nat, step: nat)
    requires x < y
    ensures x * step + step <= y * step
  {
    MulMonotone(x + 1, y, step);
    assert (x + 1) * step == x * step + step;
  }

  /** Chunk i is the window at i * step, cut at the end of the text; there are ceil(n / step) of them. */
  lemma ChunkAt(text: seq<byte>, size: nat, step: nat, i: nat)
    requires step > 0
    ensures |Chunks(text, size, step)| == ChunkCount(|text|, step)
    ensures i < |Chunks(text, size, step)| <==> i * step < |text|
    ensures i < |Chunks(text, size, step)| ==>
      Chunks(text, size, step)[i] == text[i * step..Min(i * step + size, |text|)]
  {
    ChunksFromCount(text, 0, size, step);
    if i < |Chunks(text, size, step)| {
      ChunksFromAt(text, 0, size, step, i);
    } else {
      assert i >= (|text| + step - 1) / step;
      assert i * step >= |text| by {
        DivisionBound(|text|, step, i);
      }
    }
  }

  lemma DivisionBound(n: nat, step: nat, i: nat)
    requires step > 0 && i >= (n + step - 1) / step
    ensures i * step >= n
  {
    var q := (n + step - 1) / step;
    var r := (n + step - 1) % step;
    assert q * step + r == n + step - 1;
    assert q * step >= n;
    MulMonotone(q, i, step);
  }

  lemma MulMonotone(a: nat, b: nat, c: nat)
    requires a <= b
    ensures a * c <= b * c
  {
  }

  /** Every chunk holds between 1 and `size` bytes. */
  lemma ChunkBounds(text: seq<byte>, size: nat, step: nat, i: nat)
    requires step > 0 && size > 0
    requires i < |Chunks(text, size, step)|
    ensures 0 < |Chunks(text, size, step)[i]| <= size
  {
    ChunkAt(text, size, step, i);
  }

  /**
   * Without a gap between windows (a non-negative overlap), the chunks
   * cover the text: the first starts at 0, the last ends at the end of the
   * text, and every byte lies in the chunk of its own window.
   */
  lemma ChunksCover(text: seq<byte>, size: nat, step: nat, j: nat)
    requires 0 < step <= size
    requires j < |text|
    ensures var chunks := Chunks(text, size, step);
      && |chunks| > 0
      && chunks[0] == text[..Min(size, |text|)]
      && (|chunks| - 1) * step < |text|
      && chunks[|chunks| - 1] == text[(|chunks| - 1) * step..]
      && var i := j / step;
         i < |chunks| && i * step <= j < i * step + |chunks[i]| && chunks[i][j - i * step] == text[j]
  {
    var chunks := Chunks(text, size, step);
    var n := |text|;
    var i := j / step;
    DivUnique(j, i, j % step, step);
    ChunkAt(text, size, step, 0);
    ChunkAt(text, size, step, i);
    var last := |chunks| - 1;
    ChunkAt(text, size, step, last);
    ChunkAt(text, size, step, last + 1);
    assert (last + 1) * step == last * step + step;
  }

  /**
   * Consecutive chunks overlap: what is left of chunk i after its first
   * `step` bytes is where chunk i + 1 begins.
   */
  lemma ChunksOverlap(text: seq<byte>, size: nat, step: nat, i: nat)
    requires 0 < step <= size
    requires i + 1 < |Chunks(text, size, step)|
    ensures var chunks := Chunks(text, size, step);
      step <= |chunks[i]| && chunks[i][step..] <= chunks[i + 1]
  {
    var chunks := Chunks(text, size, step);
    ChunkAt(text, size, step, i);
    ChunkAt(text, size, step, i + 1);
    var a := i * step;
    assert (i + 1) * step == a + step;
    var end := Min(a + size, |text|);
    assert chunks[i] == text[a..end];
    assert chunks[i + 1] == text[a + step..Min(a + step + size, |text|)];
    assert chunks[i][step..] == text[a + step..end];
  }

  /** The document windows used for the clones: 512 bytes, 210 of them shared with the next. */
  const ChunkSize := 512
  const ChunkOverlap := 210

  /** With these sizes a text of 1000 bytes gives windows at 0, 302, 604 and 906, of 512, 512, 396 and 94 bytes. */
  lemma ThousandBytes(text: seq<byte>)
    requires |text| == 1000
    ensures var chunks := Chunks(text, ChunkSize, ChunkSize - ChunkOverlap);
      && |chunks| == 4
      && chunks[0] == text[0..512] && chunks[1] == text[302..814]
      && chunks[2] == text[604..1000] && chunks[3] == text[906..1000]
  {
    ChunkAt(text, 512, 302, 0);
    ChunkAt(text, 512, 302, 1);
    ChunkAt(text, 512, 302, 2);
    ChunkAt(text, 512, 302, 3);
  }

  /** The chunks of every document, in document order. */
  function FlatChunks(contents: seq<seq<byte>>): seq<seq<byte>>
    decreases |contents|
  {
    if |contents| == 0 then []
    else
      var last := contents[|contents| - 1];
      FlatChunks(contents[..|contents| - 1]) + Chunks(last, ChunkSize, ChunkSize - ChunkOverlap)
  }

  /** One more document adds its chunks at the end. */
  lemma FlatChunksSnoc(contents: seq<seq<byte>>, content: seq<byte>)
    ensures FlatChunks(contents + [content])
      == FlatChunks(contents) + Chunks(content, ChunkSize, ChunkSize - ChunkOverlap)
  {
    assert (contents + [content])[..|contents|] == contents;
  }

  /** Every chunk of the collection is a chunk of one of its documents. */
  lemma {:induction false} FlatChunksFromDocuments(contents: seq<seq<byte>>, c: seq<byte>)
    requires c in FlatChunks(contents)
    ensures exists d :: 0 <= d < |contents| && c in Chunks(contents[d], ChunkSize, ChunkSize - ChunkOverlap)
    decreases |contents|
  {
    var last := |contents| - 1;
    if c in Chunks(contents[last], ChunkSize, ChunkSize - ChunkOverlap) {
    } else {
      var init := contents[..last];
      FlatChunksFromDocuments(init, c);
      var d :| 0 <= d < |init| && c in Chunks(init[d], ChunkSize, ChunkSize - ChunkOverlap);
      assert init[d] == contents[d];
    }
  }

  const DocsRoot := "/app/docs/"
  const DocumentExtension := ".md"

  /**
   * `GetChunksOfCloneDocuments`: reads every `.md` file under the clone's
   * documents directory (the `getContentFiles` parameter stands for the
   * file-system walk) and chunks each one; a read error is wrapped with the
   * clone's name and no chunks are returned.
   */
  method GetChunksOfCloneDocuments(cloneName: string,
                                   getContentFiles: (string, string) -> Result<seq<seq<byte>>>)
    returns (r: Result<seq<seq<byte>>>)
    ensures match getContentFiles(DocsRoot + cloneName, DocumentExtension)
      case Err(e) => r == Err("error getting content files for " + cloneName + " agent: " + e)
      case Ok(contents) => r == Ok(FlatChunks(contents))
  {
    var read := getContentFiles(DocsRoot + cloneName, DocumentExtension);
    if read.Err? {
      return Err("error getting content files for " + cloneName + " agent: " + read.error);
    }
    var contents := read.value;
    var chunks: seq<seq<byte>> := [];
    for i := 0 to |contents|
      invariant chunks == FlatChunks(contents[..i])
    {
      var more := ChunkText(contents[i], ChunkSize, ChunkOverlap);
      FlatChunksSnoc(contents[..i], contents[i]);
      assert contents[..i + 1] == contents[..i] + [contents[i]];
      chunks := chunks + more;
    }
    assert contents[..|contents|] == contents;
    return Ok(chunks);
  }
}
