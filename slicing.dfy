/** Chunk arithmetic of the runner: how many chunks a dataset has, and which
    records chunk k holds. The runner cuts its data with PHP's `array_slice`,
    so ArraySlice models that function's offset rules, negative offsets included. */
module Slicing {

  function Min(a: int, b: int): int { if a <= b then a else b }
  function Max(a: int, b: int): int { if a <= b then b else a }

  /** The number of chunks, `ceil(count / size)` for a positive chunk size:
      one chunk per started block of `size` records (CeilingOfQuotient proves
      the two agree). */
  function TotalChunks(count: nat, size: int): nat
    requires size > 0
    decreases count
  {
    if count == 0 then 0 else 1 + TotalChunks(Max(count - size, 0), size)
  }

  /** The chunk count is the least t with count <= t * size. */
  lemma {:induction false} TotalChunksIsCeiling(count: nat, size: int)
    requires size > 0
    ensures var total := TotalChunks(count, size);
            && count <= total * size
            && (total == 0 || (total - 1) * size < count)
            && (total == 0 <==> count == 0)
  {
    if count > 0 {
      var rest := Max(count - size, 0);
      TotalChunksIsCeiling(rest, size);
      var t := TotalChunks(rest, size);
      assert (t + 1) * size == t * size + size;
      assert t == 0 || (t - 1) * size < rest;
      assert t == 0 || t * size == (t - 1) * size + size;
    }
  }

  /** The chunk count agrees with PHP's `ceil(count / size)`, written with
      integer division. */
  lemma CeilingOfQuotient(count: nat, size: int)
    requires size > 0
    ensures TotalChunks(count, size) == (count + size - 1) / size
  {
    TotalChunksIsCeiling(count, size);
    var t := TotalChunks(count, size);
    var q := (count + size - 1) / size;
    assert q * size <= count + size - 1 < q * size + size;
    assert (t + 1) * size == t * size + size;
    MulCancel(q, t + 1, size);
    if t > 0 {
      assert t * size == (t - 1) * size + size;
      assert (q + 1) * size == q * size + size;
      MulCancel(t, q + 1, size);
    }
  }

  /** `array_slice(s, offset, length)` for a non-negative length: a negative
      offset counts from the end of `s` (and is clamped at its start), an offset
      past the end gives the empty slice, and at most `length` records are taken. */
  function ArraySlice<T>(s: seq<T>, offset: int, length: nat): (r: seq<T>)
    ensures |r| <= length
    ensures offset >= 0 ==> r == s[Min(offset, |s|)..Min(offset + length, |s|)]
    ensures offset < 0 && -offset <= |s| ==> r == s[|s| + offset..Min(|s| + offset + length, |s|)]
    ensures offset < 0 && -offset > |s| ==> r == s[..Min(length, |s|)]
  {
    var from := if offset >= 0 then Min(offset, |s|) else Max(|s| + offset, 0);
    s[from..Min(from + length, |s|)]
  }

  /** `k * size`, the offset of chunk k, written as a recursion so that the
      solver meets no product of two unknowns (StartOfChunk proves the two equal). */
  function ChunkStart(k: int, size: int): int
    decreases if k >= 0 then k else -k
  {
    if k == 0 then 0
    else if k > 0 then ChunkStart(k - 1, size) + size
    else ChunkStart(k + 1, size) - size
  }

  lemma {:induction false} StartOfChunk(k: int, size: int)
    ensures ChunkStart(k, size) == k * size
    decreases if k >= 0 then k else -k
  {
    if k > 0 {
      StartOfChunk(k - 1, size);
      assert k * size == (k - 1) * size + size;
    } else if k < 0 {
      StartOfChunk(k + 1, size);
      assert k * size == (k + 1) * size - size;
    }
  }

  /** The records of chunk k: `array_slice(s, k * size, size)`. */
  function Chunk<T>(s: seq<T>, size: int, k: int): seq<T>
    requires size > 0
  {
    ArraySlice(s, ChunkStart(k, size), size)
  }

  /** Chunks 0 .. k-1 joined in order. */
  function Joined<T>(s: seq<T>, size: int, k: nat): seq<T>
    requires size > 0
  {
    if k == 0 then [] else Joined(s, size, k - 1) + Chunk(s, size, k - 1)
  }

  lemma MulMonotone(a: int, b: int, size: int)
    requires a <= b && size > 0
    ensures a * size <= b * size
  {
    assert b * size - a * size == (b - a) * size;
  }

  lemma MulCancel(a: int, b: int, size: int)
    requires size > 0 && a * size < b * size
    ensures a < b
  {
    if b <= a {
      MulMonotone(b, a, size);
    }
  }

  /** Chunk k of a non-negative position is the half-open range the runner
      intends; below the total chunk count it is never empty, and only the last
      chunk may be shorter than `size`. */
  lemma {:induction false} ChunkRange<T>(s: seq<T>, size: int, k: nat)
    requires size > 0 && k < TotalChunks(|s|, size)
    ensures k * size < |s|
    ensures Chunk(s, size, k) == s[k * size..Min((k + 1) * size, |s|)]
    ensures 0 < |Chunk(s, size, k)| <= size
    ensures k + 1 < TotalChunks(|s|, size) ==> |Chunk(s, size, k)| == size
  {
    TotalChunksIsCeiling(|s|, size);
    StartOfChunk(k, size);
    var total := TotalChunks(|s|, size);
    var start := k * size;
    MulMonotone(k, total - 1, size);
    assert start < |s|;
    assert (k + 1) * size == start + size;
    if k + 1 < total {
      MulMonotone(k + 1, total - 1, size);
      assert start + size < |s|;
    }
  }

  /** For a non-empty dataset every position below the chunk count, negative
      ones included (a stored position may be anything), selects a non-empty
      slice: the runner's empty-slice guard never fires. */
  lemma {:induction false} SliceNonEmpty<T>(s: seq<T>, size: int, k: int)
    requires size > 0 && |s| > 0 && k < TotalChunks(|s|, size)
    ensures |Chunk(s, size, k)| > 0
  {
    TotalChunksIsCeiling(|s|, size);
    if k >= 0 {
      ChunkRange(s, size, k);
    } else {
      MulMonotone(k, -1, size);
      StartOfChunk(k, size);
      assert ChunkStart(k, size) < 0;
    }
  }

  /** The records before offset m followed by the slice at m are the records before m + size. */
  lemma PrefixStep<T>(s: seq<T>, m: int, size: int)
    requires m >= 0 && size > 0
    ensures s[..Min(m, |s|)] + ArraySlice(s, m, size) == s[..Min(m + size, |s|)]
  {
  }

  /** Joining the first k chunks gives back the first min(k * size, |s|) records. */
  lemma {:induction false} JoinedPrefix<T>(s: seq<T>, size: int, k: nat)
    requires size > 0
    ensures Joined(s, size, k) == s[..Min(k * size, |s|)]
  {
    if k > 0 {
      JoinedPrefix(s, size, k - 1);
      StartOfChunk(k - 1, size);
      MulMonotone(0, k - 1, size);
      PrefixStep(s, (k - 1) * size, size);
      assert Chunk(s, size, k - 1) == ArraySlice(s, (k - 1) * size, size);
      assert k * size == (k - 1) * size + size;
    }
  }

  /** Concatenating chunks 0 .. TotalChunks-1 reconstructs the dataset. */
  lemma Reassemble<T>(s: seq<T>, size: int)
    requires size > 0
    ensures Joined(s, size, TotalChunks(|s|, size)) == s
  {
    TotalChunksIsCeiling(|s|, size);
    JoinedPrefix(s, size, TotalChunks(|s|, size));
  }
}
