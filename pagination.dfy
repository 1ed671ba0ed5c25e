/**
 * Pagination of lines 77-78 of process_warbands.py:
 * `for page_start in range(0, len(items), per_page)` takes the slice
 * `items[page_start : page_start + per_page]`, so the pages are consecutive
 * chunks of `per_page` items, the last one possibly shorter.
 */
module Pagination {
  import opened Arith

  /** The chunks taken from `start` onwards, one per step of the `range`. */
  function ChunksFrom<T>(s: seq<T>, n: nat, start: nat): seq<seq<T>>
    requires n >= 1
    decreases |s| - start
  {
    if start >= |s| then []
    else [s[start .. Min(start + n, |s|)]] + ChunksFrom(s, n, start + n)
  }

  /** All chunks of `s`: the pages of a bucket. */
  function Chunks<T>(s: seq<T>, n: nat): seq<seq<T>>
    requires n >= 1
  {
    ChunksFrom(s, n, 0)
  }

  /** Concatenation of a sequence of chunks. */
  function Flatten<T>(cs: seq<seq<T>>): seq<T>
  {
    if cs == [] then [] else cs[0] + Flatten(cs[1..])
  }

  /** ceil(len / n): the number of pages `len` items need at `n` per page. */
  function NumChunks(len: nat, n: nat): nat
    requires n >= 1
  {
    (len + n - 1) / n
  }

  lemma {:induction false} ChunksFromCount<T>(s: seq<T>, n: nat, start: nat)
    requires n >= 1 && start <= |s|
    ensures |ChunksFrom(s, n, start)| == NumChunks(|s| - start, n)
    decreases |s| - start
  {
    var d := |s| - start;
    if start == |s| {
      DivModUnique(n - 1, n, 0, n - 1);
    } else if start + n <= |s| {
      ChunksFromCount(s, n, start + n);
      DivModUnique(d + n - 1, n, (d - 1) / n + 1, (d - 1) % n);
      DivModUnique(d - 1, n, (d - 1) / n, (d - 1) % n);
    } else {
      assert ChunksFrom(s, n, start + n) == [];
      DivModUnique(d + n - 1, n, 1, d - 1);
    }
  }

  lemma {:induction false} ChunksFromAt<T>(s: seq<T>, n: nat, start: nat, k: nat)
    requires n >= 1 && k < |ChunksFrom(s, n, start)|
    ensures start + k * n < |s|
    ensures ChunksFrom(s, n, start)[k] == s[start + k * n .. Min(start + k * n + n, |s|)]
    decreases k
  {
    if k > 0 {
      ChunksFromAt(s, n, start + n, k - 1);
      assert start + n + (k - 1) * n == start + k * n;
    }
  }

  lemma {:induction false} ChunksFromFlatten<T>(s: seq<T>, n: nat, start: nat)
    requires n >= 1 && start <= |s|
    ensures Flatten(ChunksFrom(s, n, start)) == s[start..]
    decreases |s| - start
  {
    if start < |s| {
      var m := Min(start + n, |s|);
      var cs := ChunksFrom(s, n, start);
      assert cs[1..] == ChunksFrom(s, n, start + n);
      if start + n <= |s| {
        ChunksFromFlatten(s, n, start + n);
      } else {
        assert ChunksFrom(s, n, start + n) == [];
      }
      assert s[start..m] + s[m..] == s[start..];
    }
  }

  /**
   * The pages partition the input: concatenated they give back the items,
   * in order, and there are ceil(|s| / n) of them.
   */
  lemma ChunksPartition<T>(s: seq<T>, n: nat)
    requires n >= 1
    ensures Flatten(Chunks(s, n)) == s
    ensures |Chunks(s, n)| == NumChunks(|s|, n)
  {
    ChunksFromFlatten(s, n, 0);
    ChunksFromCount(s, n, 0);
  }

  /**
   * Page k starts at item k * n and holds the next n items, or fewer on the
   * last page, which is never empty.
   */
  lemma ChunkAt<T>(s: seq<T>, n: nat, k: nat)
    requires n >= 1 && k < |Chunks(s, n)|
    ensures k * n < |s|
    ensures Chunks(s, n)[k] == s[k * n .. Min(k * n + n, |s|)]
    ensures 1 <= |Chunks(s, n)[k]| <= n
    ensures k + 1 < |Chunks(s, n)| ==> |Chunks(s, n)[k]| == n
  {
    ChunksFromAt(s, n, 0, k);
    assert 0 + k * n == k * n;
    if k + 1 < |Chunks(s, n)| {
      ChunksFromAt(s, n, 0, k + 1);
      assert (k + 1) * n == k * n + n;
    }
  }

  /** Item k sits in chunk k / n, at offset k % n, and that chunk exists. */
  lemma ChunkOfItem<T>(s: seq<T>, n: nat, k: nat)
    requires n >= 1 && k < |s|
    ensures 0 <= k / n < |Chunks(s, n)| && 0 <= k % n
    ensures k % n < |Chunks(s, n)[k / n]| && Chunks(s, n)[k / n][k % n] == s[k]
  {
    ChunksPartition(s, n);
    var q, r := k / n, k % n;
    DivBelowCeil(k, |s|, n);
    DivMod(k, n);
    ChunkAt(s, n, q);
    assert q * n + r < Min(q * n + n, |s|);
  }

  /** 20 cards at 9 per page need 3 pages, the last holding 2 cards. */
  lemma TwentyCardsThreePages<T>(s: seq<T>)
    requires |s| == 20
    ensures |Chunks(s, 9)| == 3 && |Chunks(s, 9)[2]| == 2
  {
    ChunksPartition(s, 9);
    ChunkAt(s, 9, 2);
  }
}
