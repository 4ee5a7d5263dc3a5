/**
 * The loaders' insert loop `for i in range(0, len(data), batch_size):
 * batch = data[i:i+batch_size]`: contiguous slices of `data` of at most
 * `batch_size` rows each, handed one after another to the database.
 */
module Batching {
  import opened Seqs

  function Min(a: int, b: int): int
  {
    if a <= b then a else b
  }

  /** `data` cut into consecutive slices of `size` rows, the last one possibly shorter. */
  function Chunks<T>(data: seq<T>, size: nat): seq<seq<T>>
    requires size > 0
    decreases |data|
  {
    if data == [] then [] else [data[..Min(size, |data|)]] + Chunks(data[Min(size, |data|)..], size)
  }

  lemma MulSucc(n: nat, size: nat)
    ensures (n + 1) * size == n * size + size
  {
  }

  lemma {:induction false} ChunksFlatten<T>(data: seq<T>, size: nat)
    requires size > 0
    ensures Flatten(Chunks(data, size)) == data
    decreases |data|
  {
    if data != [] {
      var m := Min(size, |data|);
      ChunksFlatten(data[m..], size);
      FlattenCons(data[..m], Chunks(data[m..], size));
      assert data == data[..m] + data[m..];
    }
  }

  lemma {:induction false} ChunksSizes<T>(data: seq<T>, size: nat)
    requires size > 0
    ensures var cs := Chunks(data, size);
            && (forall k :: 0 <= k < |cs| ==> 0 < |cs[k]| <= size)
            && (forall k :: 0 <= k < |cs| - 1 ==> |cs[k]| == size)
            && |cs| * size >= |data|
    decreases |data|
  {
    if data != [] {
      var m := Min(size, |data|);
      ChunksSizes(data[m..], size);
      var cs := Chunks(data, size);
      var tail := Chunks(data[m..], size);
      assert cs == [data[..m]] + tail;
      assert forall k :: 0 < k < |cs| ==> cs[k] == tail[k - 1];
      if |tail| > 0 {
        assert |data| > size;
      }
      MulSucc(|tail|, size);
    }
  }

  lemma {:induction false} ChunksOffsets<T>(data: seq<T>, size: nat)
    requires size > 0
    ensures var cs := Chunks(data, size);
            forall k :: 0 <= k < |cs| ==>
              k * size < |data| && cs[k] == data[k * size .. Min(k * size + size, |data|)]
    decreases |data|
  {
    if data != [] {
      var m := Min(size, |data|);
      var rest := data[m..];
      ChunksOffsets(rest, size);
      var cs := Chunks(data, size);
      var tail := Chunks(rest, size);
      assert cs == [data[..m]] + tail;
      forall k | 0 < k < |cs|
        ensures k * size < |data| && cs[k] == data[k * size .. Min(k * size + size, |data|)]
      {
        assert cs[k] == tail[k - 1];
        assert m == size;
        ShiftSlice(data, size, k);
      }
    }
  }

  /** Slice `k - 1` of `data[size..]` is slice `k` of `data`. */
  lemma ShiftSlice<T>(data: seq<T>, size: nat, k: nat)
    requires 0 < size < |data| && 0 < k && (k - 1) * size < |data| - size
    ensures k * size < |data|
    ensures data[size..][(k - 1) * size .. Min((k - 1) * size + size, |data| - size)]
            == data[k * size .. Min(k * size + size, |data|)]
  {
    MulSucc(k - 1, size);
  }

  /**
   * The batches the insert loop hands to the database, in order. Together they
   * are `data` again (no row lost, none repeated); batch `k` is
   * `data[k*size .. (k+1)*size]` cut at the end of `data`; every batch is
   * non-empty, all but the last hold exactly `size` rows.
   */
  method Batches<T>(data: seq<T>, size: nat) returns (batches: seq<seq<T>>)
    requires size > 0
    ensures Flatten(batches) == data
    ensures forall k :: 0 <= k < |batches| ==>
              k * size < |data| && batches[k] == data[k * size .. Min(k * size + size, |data|)]
    ensures forall k :: 0 <= k < |batches| ==> 0 < |batches[k]| <= size
    ensures forall k :: 0 <= k < |batches| - 1 ==> |batches[k]| == size
    ensures |batches| * size >= |data|
  {
    batches := [];
    var i := 0;
    while i < |data|
      invariant batches + Chunks(data[Min(i, |data|)..], size) == Chunks(data, size)
      decreases |data| - i
    {
      var batch := data[i .. Min(i + size, |data|)];
      var m := Min(size, |data| - i);
      assert data[i..][..m] == batch;
      assert data[i..][m..] == data[Min(i + size, |data|)..];
      assert Chunks(data[i..], size) == [batch] + Chunks(data[Min(i + size, |data|)..], size);
      assert batches + [batch] + Chunks(data[Min(i + size, |data|)..], size)
          == batches + ([batch] + Chunks(data[Min(i + size, |data|)..], size));
      batches := batches + [batch];
      i := i + size;
    }
    assert data[Min(i, |data|)..] == [];
    assert batches == Chunks(data, size);
    ChunksFlatten(data, size);
    ChunksSizes(data, size);
    ChunksOffsets(data, size);
  }
}
