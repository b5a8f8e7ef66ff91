/**
 * The data sources of the incremental service and the iterator that pulls
 * their objects by batches: a cursor over the list of requested ids, and an
 * insertion-ordered buffer keyed by object id that is refilled one slice of
 * ids at a time, only once it has been emptied.
 */
module BatchIterator {
  import opened Common
  import opened IndexingStatusRegistry

  const DEFAULT_BATCH_SIZE: int := 10000
  /** The configured bulk batch size; the property lookup is not modelled, so it is the default. */
  const BATCH_SIZE: int := DEFAULT_BATCH_SIZE

  /**
   * A data source: its id, name, target index, configured batch size, the
   * fetch of the objects of a list of ids, and its indexing status.
   */
  datatype DataSource = DataSource(
    id: string,
    name: string,
    targetIndexName: string,
    batchSize: int,
    getDataObjects: seq<string> -> seq<DataObject>,
    indexingStatus: IndexingStatus)

  /** The batch size the iterator uses: the data source's when it is positive, else the configured one. */
  function EffectiveBatchSize(batchSize: int): (b: int)
    ensures b >= 1
    ensures batchSize >= 1 ==> b == batchSize
    ensures batchSize < 1 ==> b == BATCH_SIZE
  {
    if batchSize < 1 then BATCH_SIZE else batchSize
  }

  /**
   * The slice of at most `nBatchSize` ids that starts at `nFirstId`: empty
   * once the cursor is past the end, otherwise between 1 and `nBatchSize`
   * consecutive ids.
   */
  function LoadNextDataObjectsId(ids: seq<string>, nBatchSize: int, nFirstId: nat): (r: seq<string>)
    requires nBatchSize >= 1
    ensures nFirstId >= |ids| ==> r == []
    ensures nFirstId < |ids| ==> 1 <= |r| <= nBatchSize && |r| == Min(nBatchSize, |ids| - nFirstId)
    ensures forall i :: 0 <= i < |r| ==> r[i] == ids[nFirstId + i]
  {
    if |ids| < nFirstId + 1 then []
    else
      var nLastId := if |ids| < nFirstId + nBatchSize then |ids| else nFirstId + nBatchSize;
      ids[nFirstId..nLastId]
  }

  /** Java's 32-bit signed `int` addition, which wraps past 2^31 - 1. */
  function Int32Add(a: int, b: int): (r: int)
    ensures -0x8000_0000 <= r < 0x8000_0000
    ensures -0x8000_0000 <= a + b < 0x8000_0000 ==> r == a + b
  {
    (a + b + 0x8000_0000) % 0x1_0000_0000 - 0x8000_0000
  }

  /**
   * The slice as `loadNextDataObjectsId` computes it: the cursor sums are
   * 32-bit, and `None` stands for the exception `subList` throws when its
   * bounds are out of order or out of range.
   */
  function LoadNextAsWritten(ids: seq<string>, nBatchSize: int, nFirstId: int): (r: Option<seq<string>>)
    ensures r.Some? ==> forall i :: 0 <= i < |r.value| ==> 0 <= nFirstId + i < |ids| && r.value[i] == ids[nFirstId + i]
  {
    if |ids| < Int32Add(nFirstId, 1) then Some([])
    else
      var nLastId := if |ids| < Int32Add(nFirstId, nBatchSize) then |ids| else Int32Add(nFirstId, nBatchSize);
      if 0 <= nFirstId <= nLastId <= |ids| then Some(ids[nFirstId..nLastId]) else None
  }

  /** While the cursor sums stay within 32 bits, the source's slice is the one the model uses. */
  lemma {:induction false} LoadNextAgrees(ids: seq<string>, nBatchSize: int, nFirstId: nat)
    requires nBatchSize >= 1 && nFirstId + nBatchSize < 0x8000_0000
    ensures LoadNextAsWritten(ids, nBatchSize, nFirstId) == Some(LoadNextDataObjectsId(ids, nBatchSize, nFirstId))
  {
    assert Int32Add(nFirstId, 1) == nFirstId + 1;
    assert Int32Add(nFirstId, nBatchSize) == nFirstId + nBatchSize;
  }

  /**
   * At the largest batch size the first refill starts at 2^31 - 1: the
   * source's sums wrap, the emptiness test passes and `subList` throws,
   * where the model's slice is empty and iteration ends.
   */
  lemma {:induction false} LoadNextOverflows(ids: seq<string>)
    requires 1 <= |ids| < 0x8000_0000
    ensures LoadNextAsWritten(ids, 0x7FFF_FFFF, 0x7FFF_FFFF) == None
    ensures LoadNextDataObjectsId(ids, 0x7FFF_FFFF, 0x7FFF_FFFF) == []
  {
    assert Int32Add(0x7FFF_FFFF, 1) == -0x8000_0000;
    assert Int32Add(0x7FFF_FFFF, 0x7FFF_FFFF) == -2;
  }

  /** No two buffered objects share an id: the buffer is a map keyed by id. */
  ghost predicate DistinctIds(buf: seq<DataObject>)
  {
    forall i, j :: 0 <= i < j < |buf| ==> buf[i].id != buf[j].id
  }

  /**
   * The buffer after put(o.id, o) on an insertion-ordered map: an object
   * with a known id replaces the old value in its old position, one with a
   * new id goes to the end.
   */
  function Put(buf: seq<DataObject>, o: DataObject): seq<DataObject>
  {
    if o.id in Ids(buf) then seq(|buf|, i requires 0 <= i < |buf| => if buf[i].id == o.id then o else buf[i])
    else buf + [o]
  }

  /** A put stores the object, adds its id only when the id is new, and keeps the ids distinct. */
  lemma {:induction false} PutSpec(buf: seq<DataObject>, o: DataObject)
    ensures o in Put(buf, o)
    ensures Ids(Put(buf, o)) == if o.id in Ids(buf) then Ids(buf) else Ids(buf) + [o.id]
    ensures DistinctIds(buf) ==> DistinctIds(Put(buf, o))
  {
    var r := Put(buf, o);
    if o.id in Ids(buf) {
      var k :| 0 <= k < |buf| && Ids(buf)[k] == o.id;
      assert r[k] == o;
      assert forall i :: 0 <= i < |buf| ==> r[i].id == buf[i].id;
      assert Ids(r) == Ids(buf);
    } else {
      assert r[|buf|] == o;
      assert forall i :: 0 <= i < |buf| ==> Ids(buf)[i] == buf[i].id != o.id;
      assert Ids(r) == Ids(buf) + [o.id];
    }
  }

  /** The buffer after putting each of `objs` in turn. */
  function PutAll(buf: seq<DataObject>, objs: seq<DataObject>): (r: seq<DataObject>)
    ensures |r| <= |buf| + |objs|
    decreases |objs|
  {
    if objs == [] then buf
    else
      var front := PutAll(buf, objs[..|objs| - 1]);
      var last := objs[|objs| - 1];
      assert |Put(front, last)| <= |front| + 1 by { PutSpec(front, last); }
      Put(front, last)
  }

  /** Puts keep the ids of the buffer distinct. */
  lemma {:induction false} PutAllDistinct(buf: seq<DataObject>, objs: seq<DataObject>)
    requires DistinctIds(buf)
    ensures DistinctIds(PutAll(buf, objs))
    decreases |objs|
  {
    if objs != [] {
      PutAllDistinct(buf, objs[..|objs| - 1]);
      PutSpec(PutAll(buf, objs[..|objs| - 1]), objs[|objs| - 1]);
    }
  }

  /** The ids in the buffer after the puts are those it held and those put. */
  lemma {:induction false} PutAllIds(buf: seq<DataObject>, objs: seq<DataObject>)
    ensures forall x :: x in Ids(PutAll(buf, objs)) <==> x in Ids(buf) || x in Ids(objs)
    decreases |objs|
  {
    if objs != [] {
      var front := objs[..|objs| - 1];
      var last := objs[|objs| - 1];
      PutAllIds(buf, front);
      PutSpec(PutAll(buf, front), last);
      assert objs == front + [last];
      IdsAppend(front, [last]);
      assert Ids([last]) == [last.id];
    }
  }

  /** The buffer a fetch fills when it starts empty. */
  function Fill(objs: seq<DataObject>): seq<DataObject>
  {
    PutAll([], objs)
  }

  /** A filled buffer never holds two objects with the same id. */
  lemma {:induction false} FillDistinctIds(objs: seq<DataObject>)
    ensures DistinctIds(Fill(objs))
  {
    PutAllDistinct([], objs);
  }

  /** The ids in a filled buffer are exactly the ids the fetch returned. */
  lemma {:induction false} FillIds(objs: seq<DataObject>)
    ensures forall x :: x in Ids(Fill(objs)) <==> x in Ids(objs)
  {
    PutAllIds([], objs);
  }

  /** Objects with distinct ids fill the buffer in fetch order, one slot each. */
  lemma {:induction false} FillDistinct(objs: seq<DataObject>)
    requires DistinctIds(objs)
    ensures Fill(objs) == objs
    decreases |objs|
  {
    if objs != [] {
      var front := objs[..|objs| - 1];
      var last := objs[|objs| - 1];
      FillDistinct(front);
      assert last.id !in Ids(front) by {
        forall i | 0 <= i < |front| ensures Ids(front)[i] != last.id {
          assert front[i] == objs[i];
        }
      }
      assert objs == front + [last];
    }
  }

  /**
   * Objects that share an id take a single buffer slot: the buffer holds
   * exactly as many objects as the fetch returned distinct ids.
   */
  lemma {:induction false} FillSize(objs: seq<DataObject>)
    ensures |Fill(objs)| == |set x | x in Ids(objs)|
  {
    var r := Fill(objs);
    FillIds(objs);
    FillDistinctIds(objs);
    DistinctCard(Ids(r));
    assert (set x | x in Ids(r)) == (set x | x in Ids(objs));
  }

  /**
   * When a fetch returns only objects whose ids were requested, the buffer
   * it fills is no larger than the slice of ids: the memory bound.
   */
  lemma {:induction false} FillBound(objs: seq<DataObject>, slice: seq<string>)
    requires IdsWithin(objs, slice)
    ensures |Fill(objs)| <= |slice|
  {
    var r := Fill(objs);
    FillIds(objs);
    FillDistinctIds(objs);
    DistinctCard(Ids(r));
    SeqSetCard(slice);
    SubsetCard(set x | x in Ids(r), set x | x in slice);
  }

  ghost predicate DistinctSeq(s: seq<string>)
  {
    forall i, j :: 0 <= i < j < |s| ==> s[i] != s[j]
  }

  lemma {:induction false} DistinctCard(s: seq<string>)
    requires forall i, j :: 0 <= i < j < |s| ==> s[i] != s[j]
    ensures |set x | x in s| == |s|
  {
    if s != [] {
      DistinctCard(s[1..]);
      assert (set x | x in s) == {s[0]} + (set x | x in s[1..]);
      assert s[0] !in s[1..] by {
        forall k | 0 <= k < |s[1..]| ensures s[1..][k] != s[0] {
          assert s[1..][k] == s[k + 1];
        }
      }
    }
  }

  lemma {:induction false} SeqSetCard(s: seq<string>)
    ensures |set x | x in s| <= |s|
  {
    if s != [] {
      SeqSetCard(s[1..]);
      assert (set x | x in s) == {s[0]} + (set x | x in s[1..]);
    }
  }

  lemma {:induction false} SubsetCard(a: set<string>, b: set<string>)
    requires a <= b
    ensures |a| <= |b|
    decreases |a|
  {
    if a != {} {
      var x :| x in a;
      SubsetCard(a - {x}, b - {x});
    }
  }

  /** The fetch returns only objects whose ids were asked for. */
  ghost predicate FetchWithin(fetch: seq<string> -> seq<DataObject>)
  {
    forall s: seq<string> :: IdsWithin(fetch(s), s)
  }

  ghost predicate IdsWithin(objs: seq<DataObject>, s: seq<string>)
  {
    forall x :: x in Ids(objs) ==> x in s
  }

  /** The fetch returns one object per requested id, in the requested order. */
  ghost predicate FetchExact(fetch: seq<string> -> seq<DataObject>)
  {
    forall s: seq<string> :: Ids(fetch(s)) == s
  }

  /**
   * The objects the iterator yields from the slice starting at `c` on:
   * each non-empty slice is fetched and buffered; the first slice whose
   * fetch fills nothing ends the iteration.
   */
  function Tail(ids: seq<string>, nBatchSize: int, fetch: seq<string> -> seq<DataObject>, c: nat): seq<DataObject>
    requires nBatchSize >= 1
    decreases |ids| - c
  {
    if c >= |ids| then []
    else
      var buf := Fill(fetch(LoadNextDataObjectsId(ids, nBatchSize, c)));
      if buf == [] then [] else buf + Tail(ids, nBatchSize, fetch, c + nBatchSize)
  }

  /**
   * Everything a fresh iterator yields: the slice at 0 is fetched
   * unconditionally, the later ones as Tail says.
   */
  function Yield(ids: seq<string>, nBatchSize: int, fetch: seq<string> -> seq<DataObject>): seq<DataObject>
    requires nBatchSize >= 1
  {
    var buf := Fill(fetch(LoadNextDataObjectsId(ids, nBatchSize, 0)));
    if buf == [] then [] else buf + Tail(ids, nBatchSize, fetch, nBatchSize)
  }

  /** A slice of distinct ids has distinct ids. */
  lemma {:induction false} SliceDistinct(ids: seq<string>, nBatchSize: int, c: nat)
    requires nBatchSize >= 1 && DistinctSeq(ids)
    ensures DistinctSeq(LoadNextDataObjectsId(ids, nBatchSize, c))
  {
    var r := LoadNextDataObjectsId(ids, nBatchSize, c);
    forall i, j | 0 <= i < j < |r| ensures r[i] != r[j] {
      assert r[i] == ids[c + i] && r[j] == ids[c + j];
    }
  }

  /** With an exact fetch, a slice fills the buffer with one object per id of the slice. */
  lemma {:induction false} ExactFill(ids: seq<string>, nBatchSize: int, fetch: seq<string> -> seq<DataObject>, c: nat)
    requires nBatchSize >= 1 && DistinctSeq(ids) && FetchExact(fetch)
    ensures Ids(Fill(fetch(LoadNextDataObjectsId(ids, nBatchSize, c)))) == LoadNextDataObjectsId(ids, nBatchSize, c)
  {
    var slice := LoadNextDataObjectsId(ids, nBatchSize, c);
    var objs := fetch(slice);
    SliceDistinct(ids, nBatchSize, c);
    assert Ids(objs) == slice;
    assert DistinctIds(objs) by {
      forall i, j | 0 <= i < j < |objs| ensures objs[i].id != objs[j].id {
        assert Ids(objs)[i] == objs[i].id && Ids(objs)[j] == objs[j].id;
      }
    }
    FillDistinct(objs);
  }

  /** A slice followed by the ids after it is the suffix the slice starts. */
  lemma {:induction false} SliceConcat(ids: seq<string>, nBatchSize: int, c: nat)
    requires nBatchSize >= 1 && c < |ids|
    ensures LoadNextDataObjectsId(ids, nBatchSize, c)
      + (if c + nBatchSize >= |ids| then [] else ids[c + nBatchSize..]) == ids[c..]
  {
    var slice := LoadNextDataObjectsId(ids, nBatchSize, c);
    if c + nBatchSize >= |ids| {
      assert slice == ids[c..];
    } else {
      assert slice == ids[c..c + nBatchSize];
      assert ids[c..] == ids[c..c + nBatchSize] + ids[c + nBatchSize..];
    }
  }

  /** When a slice fills the buffer with its own ids, Tail continues with the next slice. */
  lemma {:induction false} TailStep(ids: seq<string>, nBatchSize: int, fetch: seq<string> -> seq<DataObject>, c: nat)
    requires nBatchSize >= 1 && c < |ids|
    requires Ids(Fill(fetch(LoadNextDataObjectsId(ids, nBatchSize, c)))) == LoadNextDataObjectsId(ids, nBatchSize, c)
    ensures Ids(Tail(ids, nBatchSize, fetch, c))
      == LoadNextDataObjectsId(ids, nBatchSize, c) + Ids(Tail(ids, nBatchSize, fetch, c + nBatchSize))
  {
    var slice := LoadNextDataObjectsId(ids, nBatchSize, c);
    var buf := Fill(fetch(slice));
    var rest := Tail(ids, nBatchSize, fetch, c + nBatchSize);
    assert buf != [] by {
      assert |Ids(buf)| == |slice| >= 1;
    }
    assert Tail(ids, nBatchSize, fetch, c) == buf + rest;
    IdsAppend(buf, rest);
  }

  lemma {:induction false} TailExact(ids: seq<string>, nBatchSize: int, fetch: seq<string> -> seq<DataObject>, c: nat)
    requires nBatchSize >= 1 && DistinctSeq(ids) && FetchExact(fetch)
    ensures c >= |ids| ==> Tail(ids, nBatchSize, fetch, c) == []
    ensures c < |ids| ==> Ids(Tail(ids, nBatchSize, fetch, c)) == ids[c..]
    decreases |ids| - c
  {
    if c < |ids| {
      ExactFill(ids, nBatchSize, fetch, c);
      TailStep(ids, nBatchSize, fetch, c);
      TailExact(ids, nBatchSize, fetch, c + nBatchSize);
      SliceConcat(ids, nBatchSize, c);
      var slice := LoadNextDataObjectsId(ids, nBatchSize, c);
      var rest := Ids(Tail(ids, nBatchSize, fetch, c + nBatchSize));
      if c + nBatchSize >= |ids| {
        assert rest == [] by {
          assert Tail(ids, nBatchSize, fetch, c + nBatchSize) == [];
          assert Ids([]) == [];
        }
        assert slice + [] == slice;
        assert slice == ids[c..];
      } else {
        assert rest == ids[c + nBatchSize..];
        assert slice + ids[c + nBatchSize..] == ids[c..];
      }
      assert Ids(Tail(ids, nBatchSize, fetch, c)) == slice + rest;
    }
  }

  /** A fresh iterator over a non-empty id list yields what its first slice and the rest yield. */
  lemma {:induction false} YieldIsTail(ids: seq<string>, nBatchSize: int, fetch: seq<string> -> seq<DataObject>)
    requires nBatchSize >= 1 && ids != []
    ensures Yield(ids, nBatchSize, fetch) == Tail(ids, nBatchSize, fetch, 0)
  {
  }

  /**
   * With an exact fetch and distinct ids, the iterator yields one object
   * per requested id, in the requested order: nothing is lost or repeated.
   */
  lemma {:induction false} YieldExact(ids: seq<string>, nBatchSize: int, fetch: seq<string> -> seq<DataObject>)
    requires nBatchSize >= 1 && DistinctSeq(ids) && FetchExact(fetch)
    ensures Ids(Yield(ids, nBatchSize, fetch)) == ids
  {
    if ids == [] {
      ExactFill(ids, nBatchSize, fetch, 0);
    } else {
      YieldIsTail(ids, nBatchSize, fetch);
      TailExact(ids, nBatchSize, fetch, 0);
      assert ids[0..] == ids;
    }
  }

  /**
   * The iterator invariant, on the values of the iterator's fields. The
   * effective batch size is positive; the buffer is keyed by id; the slices
   * requested start at 0, B, 2B, ... and the cursor at the next multiple of
   * B; every slice after the first was non-empty; and, when the fetch returns only requested ids, the
   * buffer never holds more than B objects.
   */
  ghost predicate IterInv(ds: DataSource, b: int, ids: seq<string>, buf: seq<DataObject>, cursor: int, requested: seq<int>)
  {
    && b == EffectiveBatchSize(ds.batchSize)
    && DistinctIds(buf)
    && |requested| >= 1 && requested == Starts(|requested|, b)
    && cursor == |requested| * b
    && cursor >= b
    && (forall i :: 1 <= i < |requested| ==> requested[i] < |ids|)
    && (FetchWithin(ds.getDataObjects) ==> |buf| <= b)
  }

  /** The starts of the first n slices: 0, B, 2B, ... */
  ghost function Starts(n: nat, b: int): (r: seq<int>)
    ensures |r| == n
  {
    seq(n, i requires 0 <= i < n => i * b)
  }

  lemma {:induction false} StartsSnoc(n: nat, b: int)
    ensures Starts(n, b) + [n * b] == Starts(n + 1, b)
  {
  }

  lemma {:induction false} MulStep(n: int, b: int)
    ensures n * b + b == (n + 1) * b
  {
  }

  /** The objects still to be yielded by an iterator with buffer `buf` and cursor `cursor`. */
  ghost function StreamOf(ids: seq<string>, b: int, fetch: seq<string> -> seq<DataObject>, buf: seq<DataObject>, cursor: nat): seq<DataObject>
    requires b >= 1
  {
    if buf == [] then [] else buf + Tail(ids, b, fetch, cursor)
  }

  /** The state the constructor builds satisfies the invariant and yields Yield. */
  lemma {:induction false} InitStep(ds: DataSource, ids: seq<string>)
    ensures var b := EffectiveBatchSize(ds.batchSize);
      var buf := Fill(ds.getDataObjects(LoadNextDataObjectsId(ids, b, 0)));
      && IterInv(ds, b, ids, buf, b, [0])
      && StreamOf(ids, b, ds.getDataObjects, buf, b) == Yield(ids, b, ds.getDataObjects)
  {
    var b := EffectiveBatchSize(ds.batchSize);
    var slice := LoadNextDataObjectsId(ids, b, 0);
    FillDistinctIds(ds.getDataObjects(slice));
    if FetchWithin(ds.getDataObjects) {
      FillBound(ds.getDataObjects(slice), slice);
    }
  }

  /** Taking one object from a buffer of several keeps the invariant. */
  lemma {:induction false} PopStep(ds: DataSource, b: int, ids: seq<string>, buf: seq<DataObject>, cursor: nat, requested: seq<int>)
    requires IterInv(ds, b, ids, buf, cursor, requested) && |buf| > 1
    ensures IterInv(ds, b, ids, buf[1..], cursor, requested)
  {
    RemoveFirstKey(buf);
  }

  /** Taking the last buffered object when no ids remain ends the iteration. */
  lemma {:induction false} EndStep(ds: DataSource, b: int, ids: seq<string>, buf: seq<DataObject>, cursor: nat, requested: seq<int>)
    requires IterInv(ds, b, ids, buf, cursor, requested) && |buf| == 1
    requires LoadNextDataObjectsId(ids, b, cursor) == []
    ensures IterInv(ds, b, ids, [], cursor, requested)
    ensures StreamOf(ids, b, ds.getDataObjects, buf, cursor)[1..] == []
  {
    assert Tail(ids, b, ds.getDataObjects, cursor) == [];
  }

  /**
   * Taking the last buffered object when ids remain fetches the next
   * slice into the buffer and moves the cursor by B; the iterator then
   * yields what it had still to yield after that object.
   */
  lemma {:induction false} RefillStep(ds: DataSource, b: int, ids: seq<string>, buf: seq<DataObject>, cursor: nat, requested: seq<int>)
    requires IterInv(ds, b, ids, buf, cursor, requested) && |buf| == 1
    requires LoadNextDataObjectsId(ids, b, cursor) != []
    ensures IterInv(ds, b, ids, Fill(ds.getDataObjects(LoadNextDataObjectsId(ids, b, cursor))), cursor + b, requested + [cursor])
  {
    var slice := LoadNextDataObjectsId(ids, b, cursor);
    StartsSnoc(|requested|, b);
    MulStep(|requested|, b);
    FillDistinctIds(ds.getDataObjects(slice));
    if FetchWithin(ds.getDataObjects) {
      FillBound(ds.getDataObjects(slice), slice);
    }
  }

  /** The state Next leaves behind, as a relation between the state before and after. */
  ghost predicate NextState(ds: DataSource, b: int, ids: seq<string>, buf: seq<DataObject>, cursor: nat, requested: seq<int>,
                            buf': seq<DataObject>, cursor': int, requested': seq<int>)
    requires b >= 1
  {
    if |buf| > 1 then buf' == buf[1..] && cursor' == cursor && requested' == requested
    else if LoadNextDataObjectsId(ids, b, cursor) == [] then buf' == [] && cursor' == cursor && requested' == requested
    else
      && buf' == Fill(ds.getDataObjects(LoadNextDataObjectsId(ids, b, cursor)))
      && cursor' == cursor + b && requested' == requested + [cursor]
  }

  /** Whichever way Next goes, it keeps the invariant and yields the head of the stream. */
  lemma {:induction false} NextStep(ds: DataSource, b: int, ids: seq<string>, buf: seq<DataObject>, cursor: nat, requested: seq<int>,
                 buf': seq<DataObject>, cursor': int, requested': seq<int>)
    requires IterInv(ds, b, ids, buf, cursor, requested) && buf != []
    requires NextState(ds, b, ids, buf, cursor, requested, buf', cursor', requested')
    ensures cursor' >= 0 && IterInv(ds, b, ids, buf', cursor', requested')
    ensures StreamOf(ids, b, ds.getDataObjects, buf', cursor') == StreamOf(ids, b, ds.getDataObjects, buf, cursor)[1..]
  {
    NextKeeps(ds, b, ids, buf, cursor, requested, buf', cursor', requested');
    NextYields(ds, b, ids, buf, cursor, requested, buf', cursor', requested');
  }

  /** Whichever way Next goes, it keeps the invariant. */
  lemma {:induction false} NextKeeps(ds: DataSource, b: int, ids: seq<string>, buf: seq<DataObject>, cursor: nat, requested: seq<int>,
                  buf': seq<DataObject>, cursor': int, requested': seq<int>)
    requires IterInv(ds, b, ids, buf, cursor, requested) && buf != []
    requires NextState(ds, b, ids, buf, cursor, requested, buf', cursor', requested')
    ensures cursor' >= 0 && IterInv(ds, b, ids, buf', cursor', requested')
  {
    if |buf| > 1 {
      PopStep(ds, b, ids, buf, cursor, requested);
    } else if LoadNextDataObjectsId(ids, b, cursor) == [] {
      EndStep(ds, b, ids, buf, cursor, requested);
    } else {
      RefillStep(ds, b, ids, buf, cursor, requested);
    }
  }

  /** Whichever way Next goes, what is left to yield is the stream without its head. */
  lemma {:induction false} NextYields(ds: DataSource, b: int, ids: seq<string>, buf: seq<DataObject>, cursor: nat, requested: seq<int>,
                   buf': seq<DataObject>, cursor': nat, requested': seq<int>)
    requires b >= 1 && buf != []
    requires NextState(ds, b, ids, buf, cursor, requested, buf', cursor', requested')
    ensures StreamOf(ids, b, ds.getDataObjects, buf', cursor') == StreamOf(ids, b, ds.getDataObjects, buf, cursor)[1..]
  {
    if |buf| > 1 {
      PopYields(b, ids, ds.getDataObjects, buf, cursor, buf', cursor');
    } else if LoadNextDataObjectsId(ids, b, cursor) == [] {
      assert Tail(ids, b, ds.getDataObjects, cursor) == [];
    } else {
      RefillYields(b, ids, ds.getDataObjects, buf, cursor, buf', cursor');
    }
  }

  lemma {:induction false} PopYields(b: int, ids: seq<string>, fetch: seq<string> -> seq<DataObject>, buf: seq<DataObject>, cursor: nat,
                  buf': seq<DataObject>, cursor': nat)
    requires b >= 1 && |buf| > 1
    requires buf' == buf[1..] && cursor' == cursor
    ensures StreamOf(ids, b, fetch, buf', cursor') == StreamOf(ids, b, fetch, buf, cursor)[1..]
  {
    var rest := Tail(ids, b, fetch, cursor);
    assert (buf + rest)[1..] == buf' + rest;
  }

  lemma {:induction false} RefillYields(b: int, ids: seq<string>, fetch: seq<string> -> seq<DataObject>, buf: seq<DataObject>, cursor: nat,
                     buf': seq<DataObject>, cursor': nat)
    requires b >= 1 && |buf| == 1
    requires LoadNextDataObjectsId(ids, b, cursor) != []
    requires buf' == Fill(fetch(LoadNextDataObjectsId(ids, b, cursor))) && cursor' == cursor + b
    ensures StreamOf(ids, b, fetch, buf', cursor') == StreamOf(ids, b, fetch, buf, cursor)[1..]
  {
    var rest := Tail(ids, b, fetch, cursor);
    assert cursor < |ids|;
    assert rest == if buf' == [] then [] else buf' + Tail(ids, b, fetch, cursor');
    assert StreamOf(ids, b, fetch, buf', cursor') == rest;
    assert (buf + rest)[1..] == rest;
  }

  /** Iterator over the objects of a list of ids, fetched by batches. */
  class BatchDataObjectsIterator {
    const nBatchSize: int
    const listIdDataObjects: seq<string>
    const dataSource: DataSource
    /** The buffer: an insertion-ordered map from id to object, as its sequence of entries. */
    var mapTmpIdDataObject: seq<DataObject>
    /** The start of the next slice of ids to fetch. */
    var nNextFirstId: int
    /** The starts of the slices fetched so far. */
    ghost var requested: seq<int>

    ghost predicate Valid()
      reads this
    {
      IterInv(dataSource, nBatchSize, listIdDataObjects, mapTmpIdDataObject, nNextFirstId, requested)
    }

    /** The objects the iterator has still to yield, in order. */
    ghost function Stream(): seq<DataObject>
      reads this
      requires Valid()
    {
      StreamOf(listIdDataObjects, nBatchSize, dataSource.getDataObjects, mapTmpIdDataObject, nNextFirstId)
    }

    /**
     * The iterator over the objects of `ids`: it fetches the first slice
     * right away and sets the cursor after it.
     */
    constructor (ds: DataSource, ids: seq<string>)
      ensures Valid()
      ensures dataSource == ds && listIdDataObjects == ids
      ensures nBatchSize == EffectiveBatchSize(ds.batchSize)
      ensures requested == [0] && nNextFirstId == nBatchSize
      ensures mapTmpIdDataObject == Fill(ds.getDataObjects(LoadNextDataObjectsId(ids, nBatchSize, 0)))
      ensures Stream() == Yield(ids, nBatchSize, ds.getDataObjects)
    {
      mapTmpIdDataObject := [];
      dataSource := ds;
      nBatchSize := if ds.batchSize < 1 then BATCH_SIZE else ds.batchSize;
      listIdDataObjects := ids;
      new;
      var slice := LoadNextDataObjectsId(listIdDataObjects, nBatchSize, 0);
      nNextFirstId := nBatchSize;
      requested := [0];
      PutObjects(dataSource.getDataObjects(slice));
      InitStep(ds, ids);
    }

    /** The loop that puts each fetched object into the buffer. */
    method PutObjects(objs: seq<DataObject>)
      modifies this
      ensures mapTmpIdDataObject == PutAll(old(mapTmpIdDataObject), objs)
      ensures old(mapTmpIdDataObject) == [] ==> mapTmpIdDataObject == Fill(objs)
      ensures nNextFirstId == old(nNextFirstId) && requested == old(requested)
    {
      for i := 0 to |objs|
        invariant mapTmpIdDataObject == PutAll(old(mapTmpIdDataObject), objs[..i])
        invariant nNextFirstId == old(nNextFirstId) && requested == old(requested)
      {
        assert objs[..i + 1][..i] == objs[..i];
        mapTmpIdDataObject := Put(mapTmpIdDataObject, objs[i]);
      }
      assert objs[..|objs|] == objs;
    }

    /** There is a next object exactly when the buffer is not empty. */
    method HasNext() returns (b: bool)
      requires Valid()
      ensures b <==> mapTmpIdDataObject != []
      ensures b <==> Stream() != []
      ensures b ==> Stream()[0] == mapTmpIdDataObject[0]
    {
      b := |mapTmpIdDataObject| > 0;
    }

    /**
     * Yields the earliest buffered object and removes it from the buffer; if
     * that empties the buffer, the next slice is fetched, and the cursor
     * moves on only when that slice is non-empty. On an empty buffer it
     * yields nothing and changes nothing.
     */
    method Next() returns (o: Option<DataObject>)
      requires Valid()
      modifies this
      ensures Valid()
      ensures old(mapTmpIdDataObject) == [] ==> o == None && unchanged(this)
      ensures old(mapTmpIdDataObject) != [] ==> o == Some(old(mapTmpIdDataObject)[0])
      ensures old(mapTmpIdDataObject) != [] ==>
        NextState(dataSource, nBatchSize, listIdDataObjects, old(mapTmpIdDataObject), old(nNextFirstId), old(requested),
                  mapTmpIdDataObject, nNextFirstId, requested)
      ensures Stream() == if old(mapTmpIdDataObject) == [] then [] else old(Stream())[1..]
    {
      if mapTmpIdDataObject == [] {
        return None;
      }
      var dataObj := mapTmpIdDataObject[0];
      ghost var buf0, cursor0, requested0 := mapTmpIdDataObject, nNextFirstId, requested;
      RemoveFirstKey(mapTmpIdDataObject);
      mapTmpIdDataObject := RemoveKey(mapTmpIdDataObject, dataObj.id);
      if mapTmpIdDataObject == [] {
        var slice := LoadNextDataObjectsId(listIdDataObjects, nBatchSize, nNextFirstId);
        if slice != [] {
          nNextFirstId := nNextFirstId + nBatchSize;
          requested := requested + [cursor0];
          PutObjects(dataSource.getDataObjects(slice));
        }
      }
      NextStep(dataSource, nBatchSize, listIdDataObjects, buf0, cursor0, requested0, mapTmpIdDataObject, nNextFirstId, requested);
      o := Some(dataObj);
    }
  }

  /** The buffer after remove(key) on the insertion-ordered map. */
  function RemoveKey(buf: seq<DataObject>, key: string): (r: seq<DataObject>)
    ensures |r| <= |buf|
  {
    if buf == [] then []
    else (if buf[0].id == key then [] else [buf[0]]) + RemoveKey(buf[1..], key)
  }

  lemma {:induction false} RemoveAbsentKey(buf: seq<DataObject>, key: string)
    requires forall i :: 0 <= i < |buf| ==> buf[i].id != key
    ensures RemoveKey(buf, key) == buf
  {
    if buf != [] {
      RemoveAbsentKey(buf[1..], key);
    }
  }

  /** Removing the key of the first entry drops exactly that entry. */
  lemma {:induction false} RemoveFirstKey(buf: seq<DataObject>)
    requires buf != [] && DistinctIds(buf)
    ensures RemoveKey(buf, buf[0].id) == buf[1..]
    ensures DistinctIds(buf[1..])
  {
    var rest := buf[1..];
    forall i | 0 <= i < |rest| ensures rest[i].id != buf[0].id {
      assert rest[i] == buf[i + 1];
    }
    forall i, j | 0 <= i < j < |rest| ensures rest[i].id != rest[j].id {
      assert rest[i] == buf[i + 1] && rest[j] == buf[j + 1];
    }
    RemoveAbsentKey(rest, buf[0].id);
    assert RemoveKey(buf, buf[0].id) == [] + RemoveKey(rest, buf[0].id);
  }

  /** Slices never overlap: each starts at least B ids after any earlier one. */
  lemma {:induction false} SlicesDisjoint(it: BatchDataObjectsIterator, i: int, j: int)
    requires it.Valid() && 0 <= i < j < |it.requested|
    ensures it.requested[i] + it.nBatchSize <= it.requested[j]
  {
    var b := it.nBatchSize;
    assert it.requested[i] == i * b && it.requested[j] == j * b;
    MulStep(i, b);
    MulMono(i + 1, j, b);
  }

  lemma {:induction false} MulMono(i: int, j: int, b: int)
    requires i <= j && b >= 0
    ensures i * b <= j * b
  {
    assert j * b - i * b == (j - i) * b;
  }
}
