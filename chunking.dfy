/** Splitting a job's records into consecutive batches of at most `BatchSize`. */
module Chunking {

  /** `const batchSize = 100` in both engines. */
  const BatchSize: nat := 100

  function Min(a: int, b: int): int
  {
    if a <= b then a else b
  }

  /** The number of iterations of `for (i = 0; i < n; i += BatchSize)`, which is ceil(n / BatchSize). */
  function NumChunks(n: nat): (c: nat)
    ensures c * BatchSize >= n
    ensures c > 0 ==> (c - 1) * BatchSize < n
    ensures n == 0 <==> c == 0
  {
    (n + BatchSize - 1) / BatchSize
  }

  /** The chunks of `s` in order: the first `BatchSize` records, then the chunks of the rest. */
  function Chunks<T>(s: seq<T>): (cs: seq<seq<T>>)
    ensures |cs| == NumChunks(|s|)
    ensures forall k :: 0 <= k < |cs| ==> 0 < |cs[k]| <= BatchSize
    decreases |s|
  {
    if |s| == 0 then []
    else
      var m := Min(BatchSize, |s|);
      [s[..m]] + Chunks(s[m..])
  }

  function Flatten<T>(cs: seq<seq<T>>): seq<T>
  {
    if cs == [] then [] else cs[0] + Flatten(cs[1..])
  }

  /** Concatenating the chunks in order gives back the input. */
  lemma {:induction false} FlattenChunks<T>(s: seq<T>)
    ensures Flatten(Chunks(s)) == s
  {
    if |s| > 0 {
      var m := Min(BatchSize, |s|);
      FlattenChunks(s[m..]);
      assert Chunks(s)[1..] == Chunks(s[m..]);
      assert s == s[..m] + s[m..];
    }
  }

  /** Chunk `k` is `users.slice(k * BatchSize, k * BatchSize + BatchSize)`, and it starts inside the input. */
  lemma {:induction false} ChunkIsSlice<T>(s: seq<T>, k: nat)
    requires k < NumChunks(|s|)
    ensures k * BatchSize < |s|
    ensures Chunks(s)[k] == s[k * BatchSize .. Min(k * BatchSize + BatchSize, |s|)]
  {
    if k > 0 {
      var rest := s[BatchSize..];
      assert Chunks(s) == [s[..BatchSize]] + Chunks(rest);
      ChunkIsSlice(rest, k - 1);
      assert (k - 1) * BatchSize == k * BatchSize - BatchSize;
    }
  }

  /** A job of 250 records runs three statements, over 100, 100 and 50 records. */
  lemma {:induction false} TwoHundredFifty<T>(s: seq<T>)
    requires |s| == 250
    ensures |Chunks(s)| == 3
    ensures |Chunks(s)[0]| == 100 && |Chunks(s)[1]| == 100 && |Chunks(s)[2]| == 50
  {
    ChunkIsSlice(s, 0);
    ChunkIsSlice(s, 1);
    ChunkIsSlice(s, 2);
  }
}
