/** Splitting a token sequence into overlapping chunks. */
module Chunker {
  datatype Chunk<T> = Chunk(tokens: seq<T>, start: nat, index: nat)

  function Min(a: int, b: int): int {
    if a < b then a else b
  }

  /** tokens[start:end] as Python slices it: a negative end counts from the back. */
  function Slice<T>(tokens: seq<T>, start: nat, end: int): seq<T> {
    var stop := if end >= 0 then Min(end, |tokens|) else if |tokens| + end >= 0 then |tokens| + end else 0;
    if start <= stop then tokens[start..stop] else []
  }

  /** Distance between chunk starts; an overlap of the whole chunk or more falls back to none. */
  function StepOf(size: int, overlap: int): int {
    if size - overlap <= 0 then size else size - overlap
  }

  /** Chunking comes to an end: there is nothing to split, or the loop advances. */
  predicate Ends<T>(tokens: seq<T>, blank: bool, size: int, overlap: int) {
    blank || |tokens| == 0 || |tokens| <= size || StepOf(size, overlap) > 0
  }

  /** The chunks from one start on. */
  function ChunksFrom<T>(tokens: seq<T>, start: nat, index: nat, size: int, step: nat): seq<Chunk<T>>
    requires step > 0
    decreases |tokens| - start
  {
    if start >= |tokens| then []
    else
      var end := Min(start + size, |tokens|);
      [Chunk(Slice(tokens, start, end), start, index)]
      + if end >= |tokens| then [] else ChunksFrom(tokens, start + step, index + 1, size, step)
  }

  function Chunks<T>(tokens: seq<T>, blank: bool, size: int, overlap: int): seq<Chunk<T>>
    requires Ends(tokens, blank, size, overlap)
  {
    if blank || tokens == [] then []
    else if |tokens| <= size then [Chunk(tokens, 0, 0)]
    else ChunksFrom(tokens, 0, 0, size, StepOf(size, overlap))
  }

  /** tokens is the encoded text; blank says that the text strips to nothing. */
  method ChunkText<T>(tokens: seq<T>, blank: bool, size: int, overlap: int) returns (chunks: seq<Chunk<T>>)
    requires Ends(tokens, blank, size, overlap)
    ensures chunks == Chunks(tokens, blank, size, overlap)
    ensures blank || tokens == [] ==> chunks == []
    ensures !blank && 0 < |tokens| <= size ==> chunks == [Chunk(tokens, 0, 0)]
  {
    if blank || |tokens| == 0 {
      return [];
    }
    if |tokens| <= size {
      return [Chunk(tokens, 0, 0)];
    }
    var step := size - overlap;
    if step <= 0 {
      step := size;
    }
    chunks := SplitAll(tokens, size, step);
  }

  /** The loop over a text longer than one chunk. */
  method SplitAll<T>(tokens: seq<T>, size: int, step: nat) returns (chunks: seq<Chunk<T>>)
    requires step > 0
    ensures chunks == ChunksFrom(tokens, 0, 0, size, step)
  {
    hide ChunksFrom;
    chunks := [];
    var start: nat, index: nat := 0, 0;
    while start < |tokens|
      invariant chunks + ChunksFrom(tokens, start, index, size, step) == ChunksFrom(tokens, 0, 0, size, step)
      decreases |tokens| - start
    {
      var end := Min(start + size, |tokens|);
      FirstChunk(tokens, start, index, size, step);
      var chunk := Chunk(Slice(tokens, start, end), start, index);
      AppendAssociates(chunks, [chunk], MoreChunks(tokens, start, index, size, step));
      chunks := chunks + [chunk];
      start := start + step;
      index := index + 1;
      if end >= |tokens| {
        return;
      }
    }
    NoChunk(tokens, start, index, size, step);
  }

  lemma AppendAssociates<T>(a: seq<T>, b: seq<T>, c: seq<T>)
    ensures a + (b + c) == a + b + c
  {
  }

  /** The chunks after the one at start. */
  function MoreChunks<T>(tokens: seq<T>, start: nat, index: nat, size: int, step: nat): seq<Chunk<T>>
    requires step > 0
  {
    if start + size >= |tokens| then [] else ChunksFrom(tokens, start + step, index + 1, size, step)
  }

  lemma FirstChunk<T>(tokens: seq<T>, start: nat, index: nat, size: int, step: nat)
    requires step > 0 && start < |tokens|
    ensures ChunksFrom(tokens, start, index, size, step)
            == [Chunk(Slice(tokens, start, Min(start + size, |tokens|)), start, index)]
               + MoreChunks(tokens, start, index, size, step)
  {
  }

  lemma NoChunk<T>(tokens: seq<T>, start: nat, index: nat, size: int, step: nat)
    requires step > 0
    ensures start >= |tokens| ==> ChunksFrom(tokens, start, index, size, step) == []
  {
  }

  // ---- Shape ----

  /** Start of the chunk i steps further on. */
  function StartAt(start: int, step: int, i: nat): (s: int)
    ensures step >= 0 ==> s >= start
    decreases i
  {
    if i == 0 then start else StartAt(start + step, step, i - 1)
  }

  lemma {:induction false} StartsAtMultiples(start: int, step: int, i: nat)
    ensures StartAt(start, step, i) == start + i * step
    decreases i
  {
    if i > 0 {
      StartsAtMultiples(start + step, step, i - 1);
      assert start + step + (i - 1) * step == start + i * step;
    }
  }

  lemma {:induction false} ChunkAt<T>(tokens: seq<T>, start: nat, index: nat, size: int, step: nat, i: nat)
    requires step > 0 && i < |ChunksFrom(tokens, start, index, size, step)|
    ensures var cs, s := ChunksFrom(tokens, start, index, size, step), StartAt(start, step, i);
            && 0 <= s < |tokens|
            && cs[i] == Chunk(Slice(tokens, s, Min(s + size, |tokens|)), s, index + i)
            && (i + 1 < |cs| ==> s + size < |tokens|)
            && (i + 1 == |cs| ==> s + size >= |tokens| || s + step >= |tokens|)
    decreases i
  {
    hide ChunksFrom;
    NoChunk(tokens, start, index, size, step);
    FirstChunk(tokens, start, index, size, step);
    if i > 0 {
      ChunkAt(tokens, start + step, index + 1, size, step, i - 1);
    } else if start + size < |tokens| && start + step < |tokens| {
      FirstChunk(tokens, start + step, index + 1, size, step);
    }
  }

  /**
   * Chunk i starts at i steps and holds the tokens from there; with a size that is not negative all but the last are
   * full and each ends after the one before; a negative size cuts tokens off the end, until a start passes it.
   */
  lemma ChunkShape<T>(tokens: seq<T>, size: int, overlap: int, i: nat)
    requires StepOf(size, overlap) > 0 && |tokens| > size
    requires i < |Chunks(tokens, false, size, overlap)|
    ensures var cs, s := Chunks(tokens, false, size, overlap), i * (if overlap >= size then size else size - overlap);
            && 0 <= s < |tokens| && cs[i].start == s && cs[i].index == i
            && (size >= 0 ==> cs[i].tokens == tokens[s..if s + size < |tokens| then s + size else |tokens|])
            && (size < 0 ==>
                  cs[i].tokens == if s + size >= 0 || |tokens| + size < 0 then [] else tokens[s..|tokens| + s + size])
            && (size >= 0 && i + 1 < |cs| ==> |cs[i].tokens| == size)
            && (overlap >= 0 && i + 1 == |cs| ==> cs[i].start + |cs[i].tokens| == |tokens|)
            && (size >= 0 && i > 0 ==> cs[i].start + |cs[i].tokens| > cs[i - 1].start + |cs[i - 1].tokens|)
  {
    hide ChunksFrom;
    var step := StepOf(size, overlap);
    ChunkAt(tokens, 0, 0, size, step, i);
    StartsAtMultiples(0, step, i);
    if i > 0 {
      ChunkAt(tokens, 0, 0, size, step, i - 1);
      StartsAtMultiples(0, step, i - 1);
      assert i * step == (i - 1) * step + step;
    }
  }

  function CeilDiv(a: nat, d: nat): nat
    requires d > 0
  {
    if a == 0 then 0 else if a <= d then 1 else 1 + CeilDiv(a - d, d)
  }

  /** The quotient rounded up: the only number of steps that just covers a. */
  lemma {:induction false} CeilDivRoundsUp(a: nat, d: nat)
    requires d > 0
    ensures (CeilDiv(a, d) - 1) * d < a <= CeilDiv(a, d) * d
  {
    if a > d {
      CeilDivRoundsUp(a - d, d);
      var q := CeilDiv(a - d, d);
      assert (q + 1) * d == q * d + d && (q - 1) * d == q * d - d;
    }
  }

  /** While the steps do not leave gaps the last chunk reaches the end early; otherwise each step counts one chunk. */
  lemma {:induction false} CountFrom<T>(tokens: seq<T>, start: nat, index: nat, size: int, step: nat)
    requires 0 < step && start < |tokens|
    ensures |ChunksFrom(tokens, start, index, size, step)|
            == if step > size then CeilDiv(|tokens| - start, step)
               else if start + size >= |tokens| then 1
               else 1 + CeilDiv(|tokens| - start - size, step)
    decreases |tokens| - start
  {
    hide ChunksFrom;
    FirstChunk(tokens, start, index, size, step);
    if start + size < |tokens| {
      if start + step < |tokens| {
        CountFrom(tokens, start + step, index + 1, size, step);
      } else {
        NoChunk(tokens, start + step, index + 1, size, step);
      }
    }
  }

  /** The number of chunks wherever the loop ends, the no-overlap fallback included. */
  lemma ChunkCount<T>(tokens: seq<T>, size: int, overlap: int)
    requires |tokens| > size && StepOf(size, overlap) > 0
    ensures var step := StepOf(size, overlap);
            |Chunks(tokens, false, size, overlap)|
            == if step > size then CeilDiv(|tokens|, step) else 1 + CeilDiv(|tokens| - size, step)
    ensures StepOf(size, overlap) > size <==> overlap < 0
  {
    if tokens != [] {
      CountFrom(tokens, 0, 0, size, StepOf(size, overlap));
    }
  }

  // ---- Restoring ----

  /** The chunks' tokens, the first shared of each left out. */
  function Dropping<T>(cs: seq<Chunk<T>>, shared: nat): seq<T> {
    if cs == [] then [] else cs[0].tokens[Min(shared, |cs[0].tokens|)..] + Dropping(cs[1..], shared)
  }

  /** The first chunk, then every other one without the tokens it shares with the one before. */
  function Restored<T>(cs: seq<Chunk<T>>, shared: nat): seq<T> {
    if cs == [] then [] else cs[0].tokens + Dropping(cs[1..], shared)
  }

  function Shared(size: int, overlap: int): nat {
    if 0 <= overlap < size then overlap else 0
  }

  lemma {:induction false} RestoresRest<T>(tokens: seq<T>, start: nat, index: nat, size: int, step: nat)
    requires 0 < step <= size && start + (size - step) < |tokens|
    ensures Dropping(ChunksFrom(tokens, start, index, size, step), size - step) == tokens[start + (size - step)..]
    decreases |tokens| - start
  {
    hide ChunksFrom;
    FirstChunk(tokens, start, index, size, step);
    var cs := ChunksFrom(tokens, start, index, size, step);
    var end := Min(start + size, |tokens|);
    var chunk := tokens[start..end];
    assert cs[0].tokens == chunk;
    assert chunk[size - step..] == tokens[start + (size - step)..end];
    assert cs[1..] == MoreChunks(tokens, start, index, size, step);
    if end < |tokens| {
      RestoresRest(tokens, start + step, index + 1, size, step);
    }
  }

  lemma {:induction false} CoversAtMost<T>(tokens: seq<T>, start: nat, index: nat, size: int, step: nat)
    requires step > size >= 0
    ensures |Dropping(ChunksFrom(tokens, start, index, size, step), 0)|
            <= if start < |tokens| then |tokens| - start else 0
    decreases |tokens| - start
  {
    hide ChunksFrom;
    if start < |tokens| {
      FirstChunk(tokens, start, index, size, step);
      assert ChunksFrom(tokens, start, index, size, step)[1..] == MoreChunks(tokens, start, index, size, step);
      if start + size < |tokens| {
        CoversAtMost(tokens, start + step, index + 1, size, step);
      }
    } else {
      NoChunk(tokens, start, index, size, step);
    }
  }

  /** The restored text is the first chunk and what the others add. */
  lemma RestoredSplits<T>(tokens: seq<T>, size: int, overlap: int)
    requires 0 <= size < |tokens| && StepOf(size, overlap) > 0
    ensures var step := StepOf(size, overlap);
            Restored(Chunks(tokens, false, size, overlap), Shared(size, overlap))
            == tokens[..size] + Dropping(ChunksFrom(tokens, step, 1, size, step), Shared(size, overlap))
  {
    hide ChunksFrom, Dropping;
    var step := StepOf(size, overlap);
    var cs := Chunks(tokens, false, size, overlap);
    FirstChunk(tokens, 0, 0, size, step);
    assert cs[0] == Chunk(tokens[..size], 0, 0) && cs[1..] == ChunksFrom(tokens, step, 1, size, step);
  }

  lemma LongTextRestoresIff<T>(tokens: seq<T>, size: int, overlap: int)
    requires 0 <= size < |tokens| && StepOf(size, overlap) > 0
    ensures Restored(Chunks(tokens, false, size, overlap), Shared(size, overlap)) == tokens <==> overlap >= 0
  {
    hide ChunksFrom, Dropping, Restored, Chunks;
    var step := StepOf(size, overlap);
    RestoredSplits(tokens, size, overlap);
    if overlap >= 0 {
      assert Shared(size, overlap) == size - step;
      RestoresRest(tokens, step, 1, size, step);
      assert tokens == tokens[..size] + tokens[size..];
    } else {
      CoversAtMost(tokens, step, 1, size, step);
    }
  }

  /** Dropping the overlap and concatenating restores a text exactly when it is short or the overlap is not negative. */
  lemma RestoresIff<T>(tokens: seq<T>, size: int, overlap: int)
    requires size >= 0 && Ends(tokens, false, size, overlap)
    ensures Restored(Chunks(tokens, false, size, overlap), Shared(size, overlap)) == tokens
            <==> |tokens| <= size || overlap >= 0
  {
    hide ChunksFrom;
    if |tokens| > size {
      LongTextRestoresIff(tokens, size, overlap);
    } else if tokens != [] {
      assert Chunks(tokens, false, size, overlap) == [Chunk(tokens, 0, 0)];
    }
  }

  /** A text without content has no chunk, and only a text that fits one is that chunk. */
  lemma ShortTexts<T>(tokens: seq<T>, blank: bool, size: int, overlap: int)
    requires Ends(tokens, blank, size, overlap)
    ensures Chunks(tokens, blank, size, overlap) == [] <==> blank || tokens == []
    ensures Chunks(tokens, blank, size, overlap) == [Chunk(tokens, 0, 0)] <==> !blank && 0 < |tokens| <= size
  {
    if !blank && tokens != [] && |tokens| > size {
      FirstChunk(tokens, 0, 0, size, StepOf(size, overlap));
      assert |Chunks(tokens, blank, size, overlap)[0].tokens| < |tokens|;
    }
  }

  // ---- When the loop ends ----

  /** Round k of the loop runs and does not leave it. */
  ghost predicate KeepsLooping(n: nat, size: int, overlap: int, k: nat) {
    var start := StartAt(0, StepOf(size, overlap), k);
    start < n && Min(start + size, n) < n
  }

  lemma {:induction false} MovesOn(start: nat, step: nat, i: nat)
    requires step > 0
    ensures StartAt(start, step, i) >= start + i
    decreases i
  {
    if i > 0 {
      MovesOn(start + step, step, i - 1);
    }
  }

  lemma {:induction false} NeverAdvances(start: int, step: int, i: nat)
    requires step <= 0
    ensures StartAt(start, step, i) <= start
    decreases i
  {
    if i > 0 {
      NeverAdvances(start + step, step, i - 1);
    }
  }

  /**
   * On a text longer than a chunk the loop runs forever exactly for a size of zero or less with an overlap of at
   * least it.
   */
  lemma LoopsForeverIff(n: nat, size: int, overlap: int)
    requires n > 0 && n > size
    ensures (forall k: nat :: KeepsLooping(n, size, overlap, k)) <==> StepOf(size, overlap) <= 0
    ensures StepOf(size, overlap) <= 0 <==> size <= 0 && overlap >= size
  {
    if StepOf(size, overlap) <= 0 {
      forall k: nat ensures KeepsLooping(n, size, overlap, k) {
        NeverAdvances(0, StepOf(size, overlap), k);
      }
    } else {
      MovesOn(0, StepOf(size, overlap), n);
      assert !KeepsLooping(n, size, overlap, n);
    }
  }
}
