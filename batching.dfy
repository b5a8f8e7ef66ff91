/**
 * How the incremental workers cut a stream of objects into bulk batches,
 * and how a sequence of possibly failing search-engine calls ends.
 */
module Batching {
  import opened Common

  /**
   * The batches the workers post for the stream `s` when the data source's
   * batch size is `n`: a batch is flushed as soon as it holds `n` objects or
   * the stream is exhausted. A batch size below 1 is never reached by a
   * non-empty batch, so the whole stream then forms a single batch.
   */
  function Chunks<T>(s: seq<T>, n: int): seq<seq<T>>
    decreases |s|
  {
    if s == [] then []
    else if 1 <= n < |s| then [s[..n]] + Chunks(s[n..], n)
    else [s]
  }

  /** The batches of the stream that starts at index `i` of `s`, computed on indices. */
  function ChunksFrom<T>(s: seq<T>, i: nat, n: int): seq<seq<T>>
    requires i <= |s|
    decreases |s| - i
  {
    if i == |s| then []
    else if 1 <= n < |s| - i then [s[i..i + n]] + ChunksFrom(s, i + n, n)
    else [s[i..]]
  }

  lemma {:induction false} ChunksFromSuffix<T>(s: seq<T>, i: nat, n: int)
    requires i <= |s|
    ensures ChunksFrom(s, i, n) == Chunks(s[i..], n)
    decreases |s| - i
  {
    if i == |s| {
      assert s[i..] == [];
    } else if 1 <= n < |s| - i {
      ChunksFromSuffix(s, i + n, n);
      assert s[i..][n..] == s[i + n..];
      assert s[i..][..n] == s[i..i + n];
    }
  }

  /** Posting the batches in order posts the stream itself: nothing is lost, reordered or repeated. */
  lemma {:induction false} ChunksFlatten<T>(s: seq<T>, n: int)
    ensures Flatten(Chunks(s, n)) == s
    decreases |s|
  {
    if s != [] && 1 <= n < |s| {
      ChunksFlatten(s[n..], n);
      assert s[..n] + s[n..] == s;
    }
  }

  /** With a batch size of at least 1, no batch is empty and none exceeds the batch size. */
  lemma {:induction false} ChunksBounded<T>(s: seq<T>, n: int)
    requires n >= 1
    ensures forall c :: c in Chunks(s, n) ==> 1 <= |c| <= n
    decreases |s|
  {
    if s != [] && n < |s| {
      ChunksBounded(s[n..], n);
    }
  }

  /**
   * With a batch size of at least 1 there are ceil(|s| / n) batches: the
   * batches cover the stream, and one batch fewer would not.
   */
  lemma {:induction false} ChunksCount<T>(s: seq<T>, n: int)
    requires n >= 1
    ensures (|Chunks(s, n)| - 1) * n < |s| <= |Chunks(s, n)| * n
    decreases |s|
  {
    if s != [] && n < |s| {
      ChunksCount(s[n..], n);
      var c := |Chunks(s[n..], n)|;
      assert |Chunks(s, n)| == c + 1;
      assert (c + 1) * n == c * n + n;
    }
  }

  /** No batch is empty, whatever the batch size. */
  lemma {:induction false} ChunksNonEmpty<T>(s: seq<T>, n: int)
    ensures forall c :: c in Chunks(s, n) ==> c != []
    decreases |s|
  {
    if s != [] && 1 <= n < |s| {
      ChunksNonEmpty(s[n..], n);
    }
  }

  /**
   * The flush rule: once `m` objects of the stream `t` are buffered and
   * either the buffer holds the batch size or the stream is exhausted, the
   * buffer is the first batch and the rest are the batches of what remains.
   */
  lemma {:induction false} ChunkHead<T>(t: seq<T>, n: int, m: nat)
    requires 1 <= m <= |t|
    requires m == n || m == |t|
    requires n >= 1 ==> m <= n
    ensures Chunks(t, n) == [t[..m]] + Chunks(t[m..], n)
  {
    if m == |t| {
      assert t[..m] == t && t[m..] == [];
    }
  }

  /** A batch size below 1 yields one batch holding the whole stream. */
  lemma {:induction false} SingleChunkWhenUnbounded<T>(s: seq<T>, n: int)
    requires n < 1 && s != []
    ensures Chunks(s, n) == [s]
  {
  }

  /**
   * The index, among `m` consecutive search-engine calls numbered from
   * `start`, of the first call that fails; `m` when none of them fails.
   */
  function FirstFailure(fails: nat -> bool, start: nat, m: nat): (k: nat)
    ensures k <= m
    ensures forall c :: start <= c < start + k ==> !fails(c)
    ensures k < m ==> fails(start + k)
    decreases m
  {
    if m == 0 then 0
    else if fails(start) then 0
    else 1 + FirstFailure(fails, start + 1, m - 1)
  }

  /** None of the `k` calls numbered from `start` fails. */
  ghost predicate Succeeds(fails: nat -> bool, start: nat, k: nat)
  {
    forall c :: start <= c < start + k ==> !fails(c)
  }

  lemma {:induction false} SucceedsSnoc(fails: nat -> bool, start: nat, k: nat)
    requires Succeeds(fails, start, k) && !fails(start + k)
    ensures Succeeds(fails, start, k + 1)
  {
  }

  /** The contract of FirstFailure determines it: the calls before k succeed and call k fails. */
  lemma {:induction false} FirstFailureAt(fails: nat -> bool, start: nat, m: nat, k: nat)
    requires k < m && fails(start + k)
    requires forall c :: start <= c < start + k ==> !fails(c)
    ensures FirstFailure(fails, start, m) == k
  {
  }

  lemma {:induction false} NoFailure(fails: nat -> bool, start: nat, m: nat)
    requires forall c :: start <= c < start + m ==> !fails(c)
    ensures FirstFailure(fails, start, m) == m
  {
  }
}
