/** SplitText: the overlapping chunker, its closed form and the reconstruction of the
    text from its chunks. */
module Splitting {
  const DEFAULT_CHUNK_SIZE := 2048
  const DEFAULT_CHUNK_OVERLAP := 200

  function EffectiveSize(chunkSize: int): (size: int)
    ensures size > 0
  {
    if chunkSize <= 0 then DEFAULT_CHUNK_SIZE else chunkSize
  }

  /** A negative overlap is none; one that would not let the chunks advance is a quarter
      of the chunk size. */
  function EffectiveOverlap(chunkSize: int, overlap: int): (o: int)
    ensures 0 <= o < EffectiveSize(chunkSize)
  {
    var size := EffectiveSize(chunkSize);
    if overlap < 0 then 0 else if overlap >= size then size / 4 else overlap
  }

  function Step(chunkSize: int, overlap: int): (step: int)
    ensures step > 0
  {
    EffectiveSize(chunkSize) - EffectiveOverlap(chunkSize, overlap)
  }

  function Min(a: int, b: int): int {
    if a < b then a else b
  }

  /** 1 + ceil((n - size) / step) chunks once the text is longer than one chunk. */
  function Count(n: nat, size: int, step: int): (k: nat)
    requires size > 0 && step > 0
    ensures k <= 1 <==> n <= size
  {
    if n == 0 then 0 else if n <= size then 1
    else
      CeilingIsPositive(n - size, step);
      1 + (n - size + step - 1) / step
  }

  lemma CeilingIsPositive(a: int, step: int)
    requires a > 0 && step > 0
    ensures (a + step - 1) / step > 0
  {
  }

  /** The count is the first number of steps whose window reaches the end. */
  lemma CountReaches(n: nat, size: int, step: int)
    requires size > 0 && step > 0 && n > size
    ensures (Count(n, size, step) - 2) * step + size < n <= (Count(n, size, step) - 1) * step + size
  {
    var k := (n - size + step - 1) / step;
    assert k * step <= n - size + step - 1 < k * step + step;
    assert (k - 1) * step == k * step - step;
  }

  /** Every chunk but the last ends before the text does; its start is in the text. */
  lemma StartsInside(n: nat, size: int, step: int, i: nat)
    requires 0 < step <= size && i < Count(n, size, step)
    ensures 0 <= i * step < n
    ensures i < Count(n, size, step) - 1 ==> i * step + size < n
    ensures i == Count(n, size, step) - 1 ==> n <= i * step + size && (i > 0 ==> i * step + size - step < n)
  {
    if n > size {
      var k := Count(n, size, step);
      CountReaches(n, size, step);
      Monotone(i, k - 1, step);
      if i < k - 1 {
        Monotone(i, k - 2, step);
      } else {
        assert (k - 2) * step == i * step - step;
      }
    }
  }

  lemma Monotone(a: nat, b: int, step: int)
    requires a <= b && step > 0
    ensures 0 <= a * step <= b * step
  {
  }

  /** Chunk `i` starts at `i` times the step and has the chunk size, the last one less. */
  function Piece<T>(text: seq<T>, size: int, step: int, i: nat): seq<T>
    requires 0 < step <= size && i < Count(|text|, size, step)
  {
    StartsInside(|text|, size, step, i);
    text[i * step..Min(i * step + size, |text|)]
  }

  function Split<T>(text: seq<T>, chunkSize: int, overlap: int): seq<seq<T>> {
    var size, step := EffectiveSize(chunkSize), Step(chunkSize, overlap);
    seq(Count(|text|, size, step), i requires 0 <= i < Count(|text|, size, step) => Piece(text, size, step, i))
  }

  lemma ShortText<T>(text: seq<T>, chunkSize: int, overlap: int)
    requires |text| <= EffectiveSize(chunkSize)
    ensures Split(text, chunkSize, overlap) == if text == [] then [] else [text]
  {
    if text != [] {
      assert Piece(text, EffectiveSize(chunkSize), Step(chunkSize, overlap), 0) == text[0..|text|] == text;
    }
  }

  /** The facts one turn of the loop needs, linear in `start`. */
  lemma WindowAt<T>(text: seq<T>, chunkSize: int, overlap: int, i: nat, start: int)
    requires i < |Split(text, chunkSize, overlap)| && start == i * Step(chunkSize, overlap)
    ensures 0 <= start < |text|
    ensures Split(text, chunkSize, overlap)[i] == text[start..Min(start + EffectiveSize(chunkSize), |text|)]
    ensures start + EffectiveSize(chunkSize) < |text| <==> i + 1 < |Split(text, chunkSize, overlap)|
    ensures (i + 1) * Step(chunkSize, overlap) == start + Step(chunkSize, overlap)
  {
    StartsInside(|text|, EffectiveSize(chunkSize), Step(chunkSize, overlap), i);
  }

  method SplitText<T(==)>(text: seq<T>, chunkSize: int, overlap: int) returns (chunks: seq<seq<T>>)
    ensures chunks == Split(text, chunkSize, overlap)
  {
    var size, o := chunkSize, overlap;
    if size <= 0 {
      size := DEFAULT_CHUNK_SIZE;
    }
    if o < 0 {
      o := 0;
    }
    if o >= size {
      o := size / 4;
    }
    if |text| <= size {
      ShortText(text, chunkSize, overlap);
      if text == [] {
        return [];
      }
      return [text];
    }
    chunks := Windows(text, size, o, chunkSize, overlap);
  }

  method Windows<T(==)>(text: seq<T>, size: int, o: int, ghost chunkSize: int, ghost overlap: int) returns (chunks: seq<seq<T>>)
    requires size == EffectiveSize(chunkSize) && o == EffectiveOverlap(chunkSize, overlap) && |text| > size
    ensures chunks == Split(text, chunkSize, overlap)
  {
    ghost var spec := Split(text, chunkSize, overlap);
    chunks := [];
    var start := 0;
    while start < |text|
      invariant 0 <= start && |chunks| < |spec| && start == |chunks| * Step(chunkSize, overlap)
      invariant chunks == spec[..|chunks|]
      decreases |text| - start
    {
      WindowAt(text, chunkSize, overlap, |chunks|, start);
      var end := start + size;
      if end > |text| {
        end := |text|;
      }
      chunks := chunks + [text[start..end]];
      if end == |text| {
        return;
      }
      start := end - o;
    }
    WindowAt(text, chunkSize, overlap, |chunks|, start);
  }

  // ----- what the chunks are -------------------------------------------------------------

  /** Sizes: all but the last have the chunk size exactly; the last is not empty, and
      strictly longer than the overlap when there are several. */
  lemma ChunkSizes<T>(text: seq<T>, chunkSize: int, overlap: int, i: nat)
    requires i < |Split(text, chunkSize, overlap)|
    ensures var size, o, chunks := EffectiveSize(chunkSize), EffectiveOverlap(chunkSize, overlap), Split(text, chunkSize, overlap);
            && 0 < |chunks[i]| <= size
            && (i < |chunks| - 1 ==> |chunks[i]| == size)
            && (|chunks| > 1 ==> |chunks[i]| > o)
  {
    StartsInside(|text|, EffectiveSize(chunkSize), Step(chunkSize, overlap), i);
  }

  /** Adjacent chunks share exactly the effective overlap. */
  lemma NeighboursShare<T>(text: seq<T>, chunkSize: int, overlap: int, i: nat)
    requires i + 1 < |Split(text, chunkSize, overlap)|
    ensures var o, chunks := EffectiveOverlap(chunkSize, overlap), Split(text, chunkSize, overlap);
            |chunks[i]| >= o && |chunks[i + 1]| >= o && chunks[i][|chunks[i]| - o..] == chunks[i + 1][..o]
  {
    var start, next := i * Step(chunkSize, overlap), (i + 1) * Step(chunkSize, overlap);
    WindowAt(text, chunkSize, overlap, i, start);
    WindowAt(text, chunkSize, overlap, i + 1, next);
    ChunkSizes(text, chunkSize, overlap, i + 1);
  }

  // ----- in terms of the arguments -----------------------------------------------------------

  /** A window of `size` items from `start`, cut off where the text ends. */
  function Window<T>(text: seq<T>, start: int, size: nat): seq<T>
    requires 0 <= start <= |text|
  {
    text[start..Min(start + size, |text|)]
  }

  /** With an overlap below the chunk size, chunk `i` is the window that starts at
      `i * (chunkSize - overlap)`, and there are as many chunks as it takes to reach the end. */
  lemma OrdinaryWindows<T>(text: seq<T>, chunkSize: int, overlap: int, i: nat)
    requires 0 <= overlap < chunkSize && i < |Split(text, chunkSize, overlap)|
    ensures var start, chunks := i * (chunkSize - overlap), Split(text, chunkSize, overlap);
            && 0 <= start < |text| && chunks[i] == Window(text, start, chunkSize)
            && (start + chunkSize < |text| <==> i + 1 < |chunks|)
            && (i + 1 < |chunks| ==> |chunks[i]| == chunkSize)
  {
    WindowAt(text, chunkSize, overlap, i, i * (chunkSize - overlap));
  }

  /** And neighbours share exactly `overlap` items. */
  lemma OrdinaryNeighbours<T>(text: seq<T>, chunkSize: int, overlap: int, i: nat)
    requires 0 <= overlap < chunkSize && i + 1 < |Split(text, chunkSize, overlap)|
    ensures var chunks := Split(text, chunkSize, overlap);
            && |chunks[i]| == chunkSize && |chunks[i + 1]| > overlap
            && chunks[i][chunkSize - overlap..] == chunks[i + 1][..overlap]
  {
    ChunkSizes(text, chunkSize, overlap, i + 1);
    ChunkSizes(text, chunkSize, overlap, i);
    NeighboursShare(text, chunkSize, overlap, i);
  }

  lemma NothingToSplit<T>(text: seq<T>, chunkSize: int, overlap: int)
    ensures Split(text, chunkSize, overlap) == [] <==> text == []
  {
  }

  /** The other arguments: no size is 2048, a negative overlap is none, and one that is not
      below the size is a quarter of it. */
  lemma OddArguments<T>(text: seq<T>, chunkSize: int, overlap: int)
    ensures chunkSize <= 0 ==> Split(text, chunkSize, overlap) == Split(text, 2048, overlap)
    ensures overlap < 0 ==> Split(text, chunkSize, overlap) == Split(text, chunkSize, 0)
    ensures 0 < chunkSize <= overlap ==> Split(text, chunkSize, overlap) == Split(text, chunkSize, chunkSize / 4)
  {
    if chunkSize <= 0 {
      SameWindows(text, chunkSize, overlap, 2048, overlap);
    }
    if overlap < 0 {
      SameWindows(text, chunkSize, overlap, chunkSize, 0);
    }
    if 0 < chunkSize <= overlap {
      SameWindows(text, chunkSize, overlap, chunkSize, chunkSize / 4);
    }
  }

  lemma SameWindows<T>(text: seq<T>, chunkSize: int, overlap: int, chunkSize': int, overlap': int)
    requires EffectiveSize(chunkSize) == EffectiveSize(chunkSize')
    requires EffectiveOverlap(chunkSize, overlap) == EffectiveOverlap(chunkSize', overlap')
    ensures Split(text, chunkSize, overlap) == Split(text, chunkSize', overlap')
  {
  }

  /** The first chunk, then each later one without the overlap it repeats. */
  function Reassemble<T>(chunks: seq<seq<T>>, o: nat): seq<T> {
    if chunks == [] then []
    else if |chunks| == 1 then chunks[0]
    else
      var last := chunks[|chunks| - 1];
      Reassemble(chunks[..|chunks| - 1], o) + if o <= |last| then last[o..] else []
  }

  /** Where the window of chunk `i` ends. */
  function End(n: nat, chunkSize: int, overlap: int, i: nat): int {
    Min(i * Step(chunkSize, overlap) + EffectiveSize(chunkSize), n)
  }

  /** A later chunk without its overlap is what lies between two window ends. */
  lemma NewPart<T>(text: seq<T>, chunkSize: int, overlap: int, i: nat)
    requires 0 < i < |Split(text, chunkSize, overlap)|
    ensures var o, chunk := EffectiveOverlap(chunkSize, overlap), Split(text, chunkSize, overlap)[i];
            && o <= |chunk|
            && 0 <= End(|text|, chunkSize, overlap, i - 1) <= End(|text|, chunkSize, overlap, i) <= |text|
            && chunk[o..] == text[End(|text|, chunkSize, overlap, i - 1)..End(|text|, chunkSize, overlap, i)]
  {
    var size, step, o := EffectiveSize(chunkSize), Step(chunkSize, overlap), EffectiveOverlap(chunkSize, overlap);
    var start := i * step;
    StartsInside(|text|, size, step, i);
    StartsInside(|text|, size, step, i - 1);
    assert (i - 1) * step == start - step;
    assert End(|text|, chunkSize, overlap, i - 1) == start + o;
  }

  lemma Glue<T>(text: seq<T>, a: nat, b: nat)
    requires a <= b <= |text|
    ensures text[..a] + text[a..b] == text[..b]
  {
  }

  /** Chunks whose new parts tile a text reassemble to it. */
  lemma {:induction false} ReassembleTiles<T>(text: seq<T>, chunks: seq<seq<T>>, o: nat, ends: seq<nat>)
    requires |ends| == |chunks| > 0 && ends[0] <= |text| && chunks[0] == text[..ends[0]]
    requires forall i | 0 < i < |chunks| ::
               o <= |chunks[i]| && ends[i - 1] <= ends[i] <= |text| && chunks[i][o..] == text[ends[i - 1]..ends[i]]
    ensures ends[|ends| - 1] <= |text| && Reassemble(chunks, o) == text[..ends[|ends| - 1]]
  {
    var k := |chunks| - 1;
    if k > 0 {
      var a, b := ends[k - 1], ends[k];
      assert a <= b <= |text| && o <= |chunks[k]| && chunks[k][o..] == text[a..b];
      assert ends[..k][k - 1] == a;
      ReassembleTiles(text, chunks[..k], o, ends[..k]);
      Glue(text, a, b);
    }
  }

  /** For every text and every size and overlap, however odd, the chunks are the text. */
  lemma SplitLosesNothing<T>(text: seq<T>, chunkSize: int, overlap: int)
    ensures Reassemble(Split(text, chunkSize, overlap), EffectiveOverlap(chunkSize, overlap)) == text
  {
    var chunks, o := Split(text, chunkSize, overlap), EffectiveOverlap(chunkSize, overlap);
    var n := |chunks|;
    if n > 0 {
      EndsAreInText(|text|, chunkSize, overlap);
      var ends: seq<nat> := seq(n, i requires 0 <= i < n => End(|text|, chunkSize, overlap, i));
      WindowAt(text, chunkSize, overlap, 0, 0);
      forall i | 0 < i < n
        ensures o <= |chunks[i]| && ends[i - 1] <= ends[i] <= |text| && chunks[i][o..] == text[ends[i - 1]..ends[i]]
      {
        NewPart(text, chunkSize, overlap, i);
      }
      ReassembleTiles(text, chunks, o, ends);
      WindowAt(text, chunkSize, overlap, n - 1, (n - 1) * Step(chunkSize, overlap));
    }
  }

  lemma EndsAreInText(n: nat, chunkSize: int, overlap: int)
    ensures forall i: nat | i < Count(n, EffectiveSize(chunkSize), Step(chunkSize, overlap)) :: 0 <= End(n, chunkSize, overlap, i) <= n
  {
    forall i: nat | i < Count(n, EffectiveSize(chunkSize), Step(chunkSize, overlap))
      ensures 0 <= End(n, chunkSize, overlap, i) <= n
    {
      StartsInside(n, EffectiveSize(chunkSize), Step(chunkSize, overlap), i);
    }
  }
}
