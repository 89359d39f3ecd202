/**
 * Time-bucketed aggregates (`BlockData` in lib/utils.ts) and the combinators
 * that fold a single series: merge by bucket, running accumulation and the
 * total. Amounts are mathematical integers.
 */
module Blocks {

  /** One bucket: the amount, its block chunk and the date string of the chunk. */
  datatype BlockData = BlockData(totalAmount: int, blockChunk: int, blockChunkDate: string)

  /** Sum of the amounts of a series, accumulated front to back. */
  function Total(data: seq<BlockData>): int
  {
    if data == [] then 0 else Total(data[..|data| - 1]) + data[|data| - 1].totalAmount
  }

  lemma {:induction false} TotalAppend(a: seq<BlockData>, b: seq<BlockData>)
    ensures Total(a + b) == Total(a) + Total(b)
  {
    if b != [] {
      assert (a + b)[..|a + b| - 1] == a + b[..|b| - 1];
      TotalAppend(a, b[..|b| - 1]);
    } else {
      assert a + b == a;
    }
  }

  /** Replacing one bucket changes the total by the difference of the amounts. */
  lemma {:induction false} TotalUpdate(s: seq<BlockData>, j: nat, e: BlockData)
    requires j < |s|
    ensures Total(s[j := e]) == Total(s) - s[j].totalAmount + e.totalAmount
  {
    var n := |s| - 1;
    if j < n {
      assert s[j := e][..n] == s[..n][j := e];
      TotalUpdate(s[..n], j, e);
    } else {
      assert s[j := e][..n] == s[..n];
    }
  }

  /** sumTotalAmounts: adds every amount to an accumulator. */
  method SumTotalAmounts(data: seq<BlockData>) returns (sum: int)
    ensures sum == Total(data)
  {
    sum := 0;
    for i := 0 to |data|
      invariant sum == Total(data[..i])
    {
      assert data[..i + 1][..i] == data[..i];
      sum := sum + data[i].totalAmount;
    }
    assert data[..|data|] == data;
  }

  /** Sum of the amounts of the first `n` buckets. */
  function PrefixTotal(data: seq<BlockData>, n: nat): int
    requires n <= |data|
  {
    if n == 0 then 0 else PrefixTotal(data, n - 1) + data[n - 1].totalAmount
  }

  lemma {:induction false} PrefixTotalIsTotal(data: seq<BlockData>, n: nat)
    requires n <= |data|
    ensures PrefixTotal(data, n) == Total(data[..n])
  {
    if n > 0 {
      PrefixTotalIsTotal(data, n - 1);
      assert data[..n][..n - 1] == data[..n - 1];
    }
  }

  /** accumulateAmounts: a running total, pushed entry by entry while reading
      the previously pushed one; chunk and date are copied unchanged. */
  method AccumulateAmounts(data: seq<BlockData>) returns (acc: seq<BlockData>)
    ensures |acc| == |data|
    ensures |data| > 0 ==> acc[0] == data[0]
    ensures forall i :: 0 < i < |data| ==>
      acc[i].totalAmount == data[i].totalAmount + acc[i - 1].totalAmount
    ensures forall i :: 0 <= i < |data| ==>
      acc[i].blockChunk == data[i].blockChunk && acc[i].blockChunkDate == data[i].blockChunkDate
    ensures forall i :: 0 <= i < |data| ==> acc[i].totalAmount == PrefixTotal(data, i + 1)
    ensures |data| > 0 ==> acc[|data| - 1].totalAmount == Total(data)
  {
    acc := [];
    for i := 0 to |data|
      invariant |acc| == i
      invariant forall k :: 0 <= k < i ==>
        acc[k] == data[k].(totalAmount := PrefixTotal(data, k + 1))
    {
      var amount := data[i].totalAmount;
      if i > 0 {
        amount := amount + acc[i - 1].totalAmount;
      }
      acc := acc + [data[i].(totalAmount := amount)];
    }
    PrefixTotalIsTotal(data, |data|);
    assert data[..|data|] == data;
  }

  /** Index of the first of the first `n` buckets of `s` in chunk `chunk`,
      or `n` when there is none. */
  function FirstIndex(s: seq<BlockData>, n: nat, chunk: int): (i: nat)
    requires n <= |s|
    ensures i <= n
    ensures i < n ==> s[i].blockChunk == chunk
    ensures forall j :: 0 <= j < i ==> s[j].blockChunk != chunk
  {
    if n == 0 then 0
    else
      var k := FirstIndex(s, n - 1, chunk);
      if k < n - 1 then k
      else if s[n - 1].blockChunk == chunk then n - 1
      else n
  }

  /** Sum of the amounts of those of the first `n` buckets of `s` in chunk `chunk`. */
  function ChunkSum(s: seq<BlockData>, n: nat, chunk: int): int
    requires n <= |s|
  {
    if n == 0 then 0
    else ChunkSum(s, n - 1, chunk) + (if s[n - 1].blockChunk == chunk then s[n - 1].totalAmount else 0)
  }

  /** The chunk of every bucket, in order. */
  function Chunks(s: seq<BlockData>): (cs: seq<int>)
    ensures |cs| == |s|
  {
    seq(|s|, j requires 0 <= j < |s| => s[j].blockChunk)
  }

  /** The distinct chunks among the first `n` buckets, in order of first occurrence. */
  function DistinctChunks(data: seq<BlockData>, n: nat): seq<int>
    requires n <= |data|
  {
    if n == 0 then []
    else
      var d := DistinctChunks(data, n - 1);
      if data[n - 1].blockChunk in d then d else d + [data[n - 1].blockChunk]
  }

  /** A chunk is listed exactly when it occurs among the first `n` buckets. */
  lemma {:induction false} DistinctChunksMembers(data: seq<BlockData>, n: nat, chunk: int)
    requires n <= |data|
    ensures chunk in DistinctChunks(data, n) <==> FirstIndex(data, n, chunk) < n
  {
    if n > 0 {
      DistinctChunksMembers(data, n - 1, chunk);
    }
  }

  /** The listed chunks appear in strictly increasing order of first occurrence;
      in particular none is listed twice. */
  lemma {:induction false} DistinctChunksFirstSeen(data: seq<BlockData>, n: nat)
    requires n <= |data|
    ensures forall j :: 0 <= j < |DistinctChunks(data, n)| ==>
      FirstIndex(data, n, DistinctChunks(data, n)[j]) < n
    ensures forall j, k :: 0 <= j < k < |DistinctChunks(data, n)| ==>
      FirstIndex(data, n, DistinctChunks(data, n)[j]) < FirstIndex(data, n, DistinctChunks(data, n)[k])
  {
    if n > 0 {
      var d := DistinctChunks(data, n - 1);
      DistinctChunksFirstSeen(data, n - 1);
      var c := data[n - 1].blockChunk;
      DistinctChunksMembers(data, n - 1, c);
      forall j | 0 <= j < |d|
        ensures FirstIndex(data, n, d[j]) == FirstIndex(data, n - 1, d[j]) < n - 1
      {
      }
    }
  }

  /** There are no more distinct chunks than buckets. */
  lemma DistinctChunksNoLonger(data: seq<BlockData>, n: nat)
    requires n <= |data|
    ensures |DistinctChunks(data, n)| <= n
  {
    var d := DistinctChunks(data, n);
    DistinctChunksFirstSeen(data, n);
    if |d| > 0 {
      var j := 0;
      while j < |d| - 1
        invariant 0 <= j < |d|
        invariant FirstIndex(data, n, d[j]) >= j
      {
        j := j + 1;
      }
    }
  }

  /** `m` is the merge of the first `n` buckets of `data` by chunk: one entry
      per distinct chunk, in order of first occurrence, each a copy of that
      first occurrence carrying the sum of all amounts of its chunk. */
  ghost predicate MergesPrefix(m: seq<BlockData>, data: seq<BlockData>, n: nat)
    requires n <= |data|
  {
    && Chunks(m) == DistinctChunks(data, n)
    && forall j :: 0 <= j < |m| ==>
         FirstIndex(data, n, m[j].blockChunk) < n
         && m[j] == data[FirstIndex(data, n, m[j].blockChunk)].(totalAmount := ChunkSum(data, n, m[j].blockChunk))
  }

  ghost predicate IsMergeOf(m: seq<BlockData>, data: seq<BlockData>)
  {
    MergesPrefix(m, data, |data|)
  }

  /** `Array.prototype.find` on the merged list: the first entry in `chunk`. */
  method FindChunk(merged: seq<BlockData>, chunk: int) returns (j: nat)
    ensures j <= |merged|
    ensures j < |merged| ==> merged[j].blockChunk == chunk
    ensures forall k :: 0 <= k < j ==> merged[k].blockChunk != chunk
  {
    j := 0;
    while j < |merged| && merged[j].blockChunk != chunk
      invariant j <= |merged|
      invariant forall k :: 0 <= k < j ==> merged[k].blockChunk != chunk
    {
      j := j + 1;
    }
  }

  /** Step of the merge when the chunk of bucket `n` is already present at `j`. */
  lemma MergeStepExisting(m: seq<BlockData>, data: seq<BlockData>, n: nat, j: nat)
    requires n < |data| && MergesPrefix(m, data, n)
    requires j < |m| && m[j].blockChunk == data[n].blockChunk
    ensures MergesPrefix(m[j := m[j].(totalAmount := m[j].totalAmount + data[n].totalAmount)], data, n + 1)
    ensures Total(m[j := m[j].(totalAmount := m[j].totalAmount + data[n].totalAmount)])
         == Total(m) + data[n].totalAmount
  {
    var m' := m[j := m[j].(totalAmount := m[j].totalAmount + data[n].totalAmount)];
    TotalUpdate(m, j, m'[j]);
    assert Chunks(m)[j] == data[n].blockChunk;
    assert Chunks(m') == Chunks(m);
    DistinctChunksFirstSeen(data, n);
    forall k | 0 <= k < |m'|
      ensures FirstIndex(data, n + 1, m'[k].blockChunk) == FirstIndex(data, n, m[k].blockChunk)
      ensures ChunkSum(data, n + 1, m'[k].blockChunk)
           == ChunkSum(data, n, m[k].blockChunk) + (if k == j then data[n].totalAmount else 0)
    {
      if k != j {
        assert Chunks(m)[k] != Chunks(m)[j];
      }
    }
  }

  /** Step of the merge when the chunk of bucket `n` is not present yet. */
  lemma MergeStepNew(m: seq<BlockData>, data: seq<BlockData>, n: nat)
    requires n < |data| && MergesPrefix(m, data, n)
    requires forall k :: 0 <= k < |m| ==> m[k].blockChunk != data[n].blockChunk
    ensures MergesPrefix(m + [data[n]], data, n + 1)
    ensures Total(m + [data[n]]) == Total(m) + data[n].totalAmount
  {
    TotalAppend(m, [data[n]]);
    var c := data[n].blockChunk;
    assert c !in Chunks(m);
    DistinctChunksMembers(data, n, c);
    assert Chunks(m + [data[n]]) == Chunks(m) + [c];
    NewChunkEntries(m, data, n);
  }

  lemma NewChunkEntries(m: seq<BlockData>, data: seq<BlockData>, n: nat)
    requires n < |data| && MergesPrefix(m, data, n)
    requires FirstIndex(data, n, data[n].blockChunk) == n
    ensures forall j :: 0 <= j < |m| + 1 ==>
      FirstIndex(data, n + 1, (m + [data[n]])[j].blockChunk) < n + 1
      && (m + [data[n]])[j]
         == data[FirstIndex(data, n + 1, (m + [data[n]])[j].blockChunk)].(totalAmount := ChunkSum(data, n + 1, (m + [data[n]])[j].blockChunk))
  {
    var c := data[n].blockChunk;
    ChunkSumAbsent(data, n, c);
    forall k | 0 <= k < |m|
      ensures m[k].blockChunk != c
      ensures FirstIndex(data, n + 1, m[k].blockChunk) == FirstIndex(data, n, m[k].blockChunk)
      ensures ChunkSum(data, n + 1, m[k].blockChunk) == ChunkSum(data, n, m[k].blockChunk)
    {
    }
  }

  lemma {:induction false} ChunkSumAbsent(s: seq<BlockData>, n: nat, chunk: int)
    requires n <= |s|
    requires forall j :: 0 <= j < n ==> s[j].blockChunk != chunk
    ensures ChunkSum(s, n, chunk) == 0
  {
    if n > 0 {
      ChunkSumAbsent(s, n - 1, chunk);
    }
  }

  /** The body of the `forEach` in mergeBlockChunks: folds bucket `i` into
      the merge of the buckets before it. */
  method MergeOne(merged: seq<BlockData>, data: seq<BlockData>, i: nat) returns (next: seq<BlockData>)
    requires i < |data| && MergesPrefix(merged, data, i)
    ensures MergesPrefix(next, data, i + 1)
    ensures Total(next) == Total(merged) + data[i].totalAmount
  {
    var j := FindChunk(merged, data[i].blockChunk);
    if j < |merged| {
      MergeStepExisting(merged, data, i, j);
      next := merged[j := merged[j].(totalAmount := merged[j].totalAmount + data[i].totalAmount)];
    } else {
      MergeStepNew(merged, data, i);
      next := merged + [data[i]];
    }
  }

  /** mergeBlockChunks: for each bucket, adds its amount to the merged entry
      of the same chunk, or appends a copy of it when there is none yet. */
  method MergeBlockChunks(data: seq<BlockData>) returns (merged: seq<BlockData>)
    ensures IsMergeOf(merged, data)
    ensures Total(merged) == Total(data)
  {
    merged := [];
    for i := 0 to |data|
      invariant MergesPrefix(merged, data, i)
      invariant Total(merged) == PrefixTotal(data, i)
    {
      merged := MergeOne(merged, data, i);
    }
    PrefixTotalIsTotal(data, |data|);
    assert data[..|data|] == data;
  }

  /** What a merge promises: no longer than its input, no chunk twice, the
      entries in order of first occurrence, and every chunk of the input present. */
  lemma MergeShape(m: seq<BlockData>, data: seq<BlockData>)
    requires IsMergeOf(m, data)
    ensures |m| <= |data|
    ensures forall j, k :: 0 <= j < k < |m| ==> m[j].blockChunk != m[k].blockChunk
    ensures forall j, k :: 0 <= j < k < |m| ==>
      FirstIndex(data, |data|, m[j].blockChunk) < FirstIndex(data, |data|, m[k].blockChunk)
    ensures forall i :: 0 <= i < |data| ==> data[i].blockChunk in Chunks(m)
  {
    var n := |data|;
    DistinctChunksNoLonger(data, n);
    DistinctChunksFirstSeen(data, n);
    forall j | 0 <= j < |m|
      ensures Chunks(m)[j] == m[j].blockChunk
    {
    }
    forall i | 0 <= i < n
      ensures data[i].blockChunk in Chunks(m)
    {
      DistinctChunksMembers(data, n, data[i].blockChunk);
    }
  }
}
