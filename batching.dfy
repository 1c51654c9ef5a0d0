/** Cutting a sequence into consecutive batches of at most `n` elements, the
    way both scripts do it: start at offset `i`, take the slice
    `s.slice(i, i + n)`, step `i += n`, stop once `i` reaches the end. */
module Batching {

  function Min(a: int, b: int): int {
    if a <= b then a else b
  }

  /** The batches that the loop `for (; i < |s|; i += n)` cuts from `s`. */
  function ChunksFrom<T>(s: seq<T>, n: nat, i: nat): (r: seq<seq<T>>)
    requires n > 0
    ensures i < |s| <==> r != []
    decreases |s| - i
  {
    if i >= |s| then [] else [s[i..Min(i + n, |s|)]] + ChunksFrom(s, n, i + n)
  }

  /** Every batch holds at least one and at most `n` elements. */
  lemma {:induction false} ChunkSizes<T>(s: seq<T>, n: nat, i: nat)
    requires n > 0
    ensures forall k :: 0 <= k < |ChunksFrom(s, n, i)| ==> 0 < |ChunksFrom(s, n, i)[k]| <= n
    decreases |s| - i
  {
    if i < |s| {
      var rest := ChunksFrom(s, n, i + n);
      var r := ChunksFrom(s, n, i);
      assert r == [s[i..Min(i + n, |s|)]] + rest;
      ChunkSizes(s, n, i + n);
      forall k | 0 < k < |r|
        ensures 0 < |r[k]| <= n
      {
        assert r[k] == rest[k - 1];
      }
    }
  }

  /** The batches of the whole of `s`. */
  function Chunks<T>(s: seq<T>, n: nat): seq<seq<T>>
    requires n > 0
  {
    ChunksFrom(s, n, 0)
  }

  function Flatten<T>(bs: seq<seq<T>>): seq<T> {
    if bs == [] then [] else bs[0] + Flatten(bs[1..])
  }

  /** Concatenated in order, the batches give back exactly what was cut. */
  lemma {:induction false} FlattenChunks<T>(s: seq<T>, n: nat, i: nat)
    requires n > 0 && i <= |s|
    ensures Flatten(ChunksFrom(s, n, i)) == s[i..]
    decreases |s| - i
  {
    if i < |s| {
      var e := Min(i + n, |s|);
      var rest := ChunksFrom(s, n, i + n);
      assert ChunksFrom(s, n, i) == [s[i..e]] + rest;
      FlattenCons(s[i..e], rest);
      if i + n < |s| {
        FlattenChunks(s, n, i + n);
        SliceSplit(s, i, e);
      } else {
        assert e == |s| && rest == [];
        assert Flatten(rest) == [];
        assert s[i..e] + [] == s[i..];
      }
    }
  }

  lemma SliceSplit<T>(s: seq<T>, i: nat, e: nat)
    requires i <= e <= |s|
    ensures s[i..e] + s[e..] == s[i..]
  {
  }

  lemma FlattenCons<T>(b: seq<T>, bs: seq<seq<T>>)
    ensures Flatten([b] + bs) == b + Flatten(bs)
  {
    assert ([b] + bs)[1..] == bs;
  }

  /** There are ceil((|s| - i) / n) batches: `c` batches of at most `n`
      cover the rest of `s`, and `c - 1` of them would not. */
  lemma {:induction false} ChunkCount<T>(s: seq<T>, n: nat, i: nat)
    requires n > 0 && i <= |s|
    ensures var c := |ChunksFrom(s, n, i)|; (c - 1) * n < |s| - i <= c * n
    decreases |s| - i
  {
    if i < |s| {
      var c := |ChunksFrom(s, n, i)|;
      if i + n < |s| {
        var rest := |ChunksFrom(s, n, i + n)|;
        ChunkCount(s, n, i + n);
        assert c == rest + 1;
        MulSucc(rest - 1, n);
        MulSucc(rest, n);
      } else {
        assert ChunksFrom(s, n, i + n) == [];
        assert c == 1;
      }
    }
  }

  /** Where batch `k` starts when batch 0 starts at `i`: each batch starts
      `n` after the one before it. */
  function BatchStart(i: nat, n: nat, k: nat): nat
    decreases k
  {
    if k == 0 then i else BatchStart(i + n, n, k - 1)
  }

  /** Batch `k` starts at `i + k * n`. */
  lemma {:induction false} BatchStartIs(i: nat, n: nat, k: nat)
    ensures BatchStart(i, n, k) == i + k * n
    decreases k
  {
    if k > 0 {
      BatchStartIs(i + n, n, k - 1);
      MulSucc(k - 1, n);
    }
  }

  /** Each batch starts `n` after the one before it. */
  lemma {:induction false} BatchStartNext(i: nat, n: nat, k: nat)
    ensures BatchStart(i, n, k + 1) == BatchStart(i, n, k) + n
    decreases k
  {
    if k > 0 {
      BatchStartNext(i + n, n, k - 1);
    }
  }

  lemma MulSucc(c: int, n: int)
    ensures (c + 1) * n == c * n + n
  {
  }

  /** Batch `k` is the slice of `s` that starts at `BatchStart(i, n, k)`
      and is `n` long, or shorter at the end of `s`. */
  lemma {:induction false} ChunkAt<T>(s: seq<T>, n: nat, i: nat, k: nat)
    requires n > 0 && k < |ChunksFrom(s, n, i)|
    ensures BatchStart(i, n, k) < |s|
    ensures ChunksFrom(s, n, i)[k] == s[BatchStart(i, n, k)..Min(BatchStart(i, n, k) + n, |s|)]
    decreases k
  {
    if k > 0 {
      var rest := ChunksFrom(s, n, i + n);
      assert ChunksFrom(s, n, i) == [s[i..Min(i + n, |s|)]] + rest;
      assert ChunksFrom(s, n, i)[k] == rest[k - 1];
      ChunkAt(s, n, i + n, k - 1);
    }
  }
}
