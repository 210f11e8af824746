/**
 * `_chunkData`: the pages of the paginated table. Rows are gathered into a
 * buffer that is emitted once it holds `size` rows; rows left in the buffer
 * when the list ends are never emitted.
 */
module Chunking {

  /** The full chunks of `list`, in order; a shorter tail is not a chunk. */
  function Chunks<T>(list: seq<T>, size: nat): seq<seq<T>>
    requires size > 0
    decreases |list|
  {
    if |list| < size then [] else [list[..size]] + Chunks(list[size..], size)
  }

  function Flatten<T>(chunks: seq<seq<T>>): seq<T> {
    if chunks == [] then [] else chunks[0] + Flatten(chunks[1..])
  }

  lemma {:induction false} MulAtLeast(k: int, d: int)
    requires k >= 1 && d > 0
    ensures k * d >= d
    decreases k
  {
    if k > 1 {
      MulAtLeast(k - 1, d);
      assert k * d == (k - 1) * d + d;
    }
  }

  /** Division by `d` determined by quotient and remainder. */
  lemma DivUnique(n: int, d: int, q: int, r: int)
    requires d > 0 && n == q * d + r && 0 <= r < d
    ensures n / d == q
  {
    var q', r' := n / d, n % d;
    assert q' * d + r' == q * d + r;
    if q' < q {
      assert (q - q') * d == q * d - q' * d;
      MulAtLeast(q - q', d);
    } else if q' > q {
      assert (q' - q) * d == q' * d - q * d;
      MulAtLeast(q' - q, d);
    }
  }

  /** Taking one chunk off lowers the chunk count by one. */
  lemma DivStep(n: int, d: int)
    requires 0 < d <= n
    ensures (n - d) / d == n / d - 1
  {
    var q, r := (n - d) / d, (n - d) % d;
    assert n == (q + 1) * d + r;
    DivUnique(n, d, q + 1, r);
  }

  /** Every chunk holds exactly `size` rows. */
  lemma {:induction false} ChunksHaveSize<T>(list: seq<T>, size: nat)
    requires size > 0
    ensures forall c | c in Chunks(list, size) :: |c| == size
    decreases |list|
  {
    if |list| >= size {
      ChunksHaveSize(list[size..], size);
    }
  }

  /** There are `|list| / size` chunks, rounded down. */
  lemma {:induction false} ChunksCount<T>(list: seq<T>, size: nat)
    requires size > 0
    ensures |Chunks(list, size)| == |list| / size
    decreases |list|
  {
    if |list| >= size {
      ChunksCount(list[size..], size);
      DivStep(|list|, size);
    }
  }

  lemma FlattenCons<T>(c: seq<T>, rest: seq<seq<T>>)
    ensures Flatten([c] + rest) == c + Flatten(rest)
  {
    assert ([c] + rest)[1..] == rest;
  }

  lemma {:induction false} ChunksConcatPrefix<T>(list: seq<T>, size: nat)
    requires size > 0
    ensures |Chunks(list, size)| * size <= |list|
    ensures Flatten(Chunks(list, size)) == list[..|Chunks(list, size)| * size]
    decreases |list|
  {
    if |list| >= size {
      var rest := list[size..];
      ChunksConcatPrefix(rest, size);
      var m := |Chunks(rest, size)|;
      FlattenCons(list[..size], Chunks(rest, size));
      assert |Chunks(list, size)| * size == (m + 1) * size == m * size + size;
      assert list[..size] + rest[..m * size] == list[..m * size + size];
    }
  }

  /** The chunks, put back together, are the list without its last `|list| % size` rows. */
  lemma ChunksConcat<T>(list: seq<T>, size: nat)
    requires size > 0
    ensures |list| / size * size <= |list|
    ensures Flatten(Chunks(list, size)) == list[..|list| / size * size]
  {
    ChunksConcatPrefix(list, size);
    ChunksCount(list, size);
  }

  /** A list shorter than `size` has no chunk at all. */
  lemma ChunksEmpty<T>(list: seq<T>, size: nat)
    requires size > 0
    ensures Chunks(list, size) == [] <==> |list| < size
  {
  }

  /** A full buffer starting at `start` is the first chunk of the rest of the list. */
  lemma ChunksStep<T>(list: seq<T>, start: nat, size: nat)
    requires size > 0 && start + size <= |list|
    ensures Chunks(list[start..], size) == [list[start..start + size]] + Chunks(list[start + size..], size)
  {
    assert list[start..][..size] == list[start..start + size];
    assert list[start..][size..] == list[start + size..];
  }

  /** `_chunkData(list, size)`. */
  method ChunkData<T>(list: seq<T>, size: nat) returns (chunked: seq<seq<T>>)
    requires size > 0
    ensures chunked == Chunks(list, size)
  {
    chunked := [];
    var temp: seq<T> := [];
    var i := 0;
    while i < |list|
      invariant 0 <= |temp| <= i <= |list|
      invariant |temp| < size
      invariant temp == list[i - |temp|..i]
      invariant chunked + Chunks(list[i - |temp|..], size) == Chunks(list, size)
    {
      var start := i - |temp|;
      temp := temp + [list[i]];
      assert temp == list[start..i + 1];
      if |temp| == size {
        ChunksStep(list, start, size);
        assert (chunked + [temp]) + Chunks(list[i + 1..], size) == chunked + Chunks(list[start..], size);
        chunked := chunked + [temp];
        temp := [];
      }
      i := i + 1;
    }
  }
}
