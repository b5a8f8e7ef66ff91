/**
 * The change queue: the table elasticdata_indexer_action, one row per
 * pending change notification, as an in-memory table. Its queries follow
 * the predicates of the DAO (by key, by data source and task, by data
 * source and resource), and the transaction manager is a snapshot of the
 * rows that a rollback restores.
 */
module IndexerActions {
  import opened Common

  const TASK_CREATE: int := 1
  const TASK_MODIFY: int := 2
  const TASK_DELETE: int := 3

  /** A queue row: (id_action, id_resource, id_task, id_datasource). */
  datatype IndexerAction = IndexerAction(id: int, idResource: string, idTask: int, idDataSource: string)

  /** The generated key of row `i`. */
  function Key(rows: seq<IndexerAction>, i: int): int
    requires 0 <= i < |rows|
  {
    rows[i].id
  }

  /** The generated keys of the rows are distinct. */
  ghost predicate DistinctKeys(rows: seq<IndexerAction>)
  {
    forall i, j :: 0 <= i < j < |rows| ==> Key(rows, i) != Key(rows, j)
  }

  /** Every generated key is below the next key the table will hand out. */
  ghost predicate KeysBelow(rows: seq<IndexerAction>, nextId: int)
  {
    forall i :: 0 <= i < |rows| ==> Key(rows, i) < nextId
  }

  /** At most one pending row per (data source, resource) pair. */
  ghost predicate UniquePairs(rows: seq<IndexerAction>)
  {
    forall i, j :: 0 <= i < j < |rows| ==>
      !(rows[i].idDataSource == rows[j].idDataSource && rows[i].idResource == rows[j].idResource)
  }

  /** The rows of the (data source, resource) pair, in table order. */
  function RowsFor(rows: seq<IndexerAction>, idDataSource: string, idResource: string): (r: seq<IndexerAction>)
    ensures forall x :: x in r <==> x in rows && x.idDataSource == idDataSource && x.idResource == idResource
    ensures |r| <= |rows|
  {
    if rows == [] then []
    else
      (if rows[0].idDataSource == idDataSource && rows[0].idResource == idResource then [rows[0]] else [])
      + RowsFor(rows[1..], idDataSource, idResource)
  }

  /**
   * The row the lookup by (resource, data source) returns: the first
   * matching row in table order, or None. When the table keeps at most one
   * row per pair there is no choice to make.
   */
  function Find(rows: seq<IndexerAction>, idResource: string, idDataSource: string): (r: Option<IndexerAction>)
    ensures r.Some? ==> r.value in rows && r.value.idResource == idResource && r.value.idDataSource == idDataSource
    ensures r.None? <==> RowsFor(rows, idDataSource, idResource) == []
    ensures r.Some? ==> RowsFor(rows, idDataSource, idResource)[0] == r.value
  {
    if rows == [] then None
    else if rows[0].idResource == idResource && rows[0].idDataSource == idDataSource then Some(rows[0])
    else Find(rows[1..], idResource, idDataSource)
  }

  /**
   * The resource ids of the rows of data source `ds` whose task is `task`,
   * in table order (the SQL select has no ORDER BY).
   */
  function Select(rows: seq<IndexerAction>, ds: string, task: int): (r: seq<string>)
    ensures forall x :: x in r <==> exists a :: a in rows && a.idDataSource == ds && a.idTask == task && a.idResource == x
    ensures |r| <= |rows|
  {
    if rows == [] then []
    else
      (if rows[0].idDataSource == ds && rows[0].idTask == task then [rows[0].idResource] else [])
      + Select(rows[1..], ds, task)
  }

  /** The rows left after deleting those of data source `ds` whose resource id is in `ids`. */
  function RemoveByIdResourceList(rows: seq<IndexerAction>, ids: seq<string>, ds: string): (r: seq<IndexerAction>)
    ensures forall x :: x in r <==> x in rows && !(x.idDataSource == ds && x.idResource in ids)
    ensures |r| <= |rows|
  {
    if rows == [] then []
    else
      (if rows[0].idDataSource == ds && rows[0].idResource in ids then [] else [rows[0]])
      + RemoveByIdResourceList(rows[1..], ids, ds)
  }

  /** The rows left after deleting the row whose key is `key`. */
  function DeleteKey(rows: seq<IndexerAction>, key: int): (r: seq<IndexerAction>)
    ensures forall x :: x in r <==> x in rows && x.id != key
    ensures |r| <= |rows|
  {
    if rows == [] then []
    else (if rows[0].id == key then [] else [rows[0]]) + DeleteKey(rows[1..], key)
  }

  /** The rows after overwriting every column of the row whose key is `a.id` with those of `a`. */
  function Store(rows: seq<IndexerAction>, a: IndexerAction): (r: seq<IndexerAction>)
    ensures |r| == |rows|
    ensures forall i :: 0 <= i < |rows| ==> r[i] == if rows[i].id == a.id then a else rows[i]
  {
    if rows == [] then [] else [if rows[0].id == a.id then a else rows[0]] + Store(rows[1..], a)
  }

  lemma {:induction false} RemoveByIdResourceListEmpty(rows: seq<IndexerAction>, ds: string)
    ensures RemoveByIdResourceList(rows, [], ds) == rows
  {
    if rows != [] {
      RemoveByIdResourceListEmpty(rows[1..], ds);
    }
  }

  /** Two removals in a row remove the union of the two id lists. */
  lemma {:induction false} RemoveByIdResourceListTwice(rows: seq<IndexerAction>, a: seq<string>, b: seq<string>, ds: string)
    ensures RemoveByIdResourceList(RemoveByIdResourceList(rows, a, ds), b, ds) == RemoveByIdResourceList(rows, a + b, ds)
  {
    if rows != [] {
      RemoveByIdResourceListTwice(rows[1..], a, b, ds);
      var x := rows[0];
      var inA := x.idDataSource == ds && x.idResource in a;
      var inB := x.idDataSource == ds && x.idResource in b;
      assert x.idResource in a + b <==> x.idResource in a || x.idResource in b;
      var once := RemoveByIdResourceList(rows, a, ds);
      var tail := RemoveByIdResourceList(rows[1..], a, ds);
      assert once == (if inA then [] else [x]) + tail;
      if inA {
        assert once == tail;
      } else {
        assert once[0] == x && once[1..] == tail;
      }
    }
  }

  /**
   * The queue table. `rows` is the table's content, `nextId` the next
   * generated key and `snapshot` the content saved when the current
   * transaction began.
   */
  class IndexerActionTable {
    var rows: seq<IndexerAction>
    var nextId: int
    var snapshot: seq<IndexerAction>

    ghost predicate Valid()
      reads this
    {
      && DistinctKeys(rows) && KeysBelow(rows, nextId)
      && DistinctKeys(snapshot) && KeysBelow(snapshot, nextId)
    }

    constructor ()
      ensures Valid() && rows == [] && snapshot == []
    {
      rows, nextId, snapshot := [], 1, [];
    }

    /** INSERT: the row gets the next generated key. */
    method Create(a: IndexerAction) returns (created: IndexerAction)
      requires Valid()
      modifies this
      ensures Valid()
      ensures created == a.(id := old(nextId))
      ensures rows == old(rows) + [created] && nextId == old(nextId) + 1 && snapshot == old(snapshot)
    {
      created := a.(id := nextId);
      AppendKey(rows, created, nextId);
      KeysBelowMore(snapshot, nextId, nextId + 1);
      rows := rows + [created];
      nextId := nextId + 1;
    }

    /** UPDATE ... WHERE id_action = a.id */
    method Update(a: IndexerAction)
      requires Valid()
      modifies this
      ensures Valid()
      ensures rows == Store(old(rows), a) && nextId == old(nextId) && snapshot == old(snapshot)
    {
      var r := Store(rows, a);
      assert DistinctKeys(r) by {
        forall i, j | 0 <= i < j < |r| ensures Key(r, i) != Key(r, j) {
          assert Key(rows, i) != Key(rows, j);
        }
      }
      assert KeysBelow(r, nextId) by {
        forall i | 0 <= i < |r| ensures Key(r, i) < nextId {
          assert Key(rows, i) < nextId;
        }
      }
      rows := r;
    }

    /** DELETE ... WHERE id_action = key */
    method Remove(key: int)
      requires Valid()
      modifies this
      ensures Valid()
      ensures rows == DeleteKey(old(rows), key) && nextId == old(nextId) && snapshot == old(snapshot)
    {
      var r := DeleteKey(rows, key);
      DeleteKeyKeeps(rows, key);
      KeysBelowSubset(rows, r, nextId);
      rows := r;
    }

    /** The row of the (resource, data source) pair, if any. */
    method FindByIdResource(idResource: string, idDataSource: string) returns (a: Option<IndexerAction>)
      ensures a == Find(rows, idResource, idDataSource)
    {
      a := Find(rows, idResource, idDataSource);
    }

    /** SELECT id_resource ... WHERE id_datasource = ? AND id_task = ? */
    method GetIdResourceList(ds: string, task: int) returns (ids: seq<string>)
      ensures ids == Select(rows, ds, task)
    {
      ids := Select(rows, ds, task);
    }

    /** Deletes the rows of data source `ds` for the resource ids in `ids`. */
    method RemoveByIdResourceListRows(ids: seq<string>, ds: string)
      requires Valid()
      modifies this
      ensures Valid()
      ensures rows == RemoveByIdResourceList(old(rows), ids, ds)
      ensures nextId == old(nextId) && snapshot == old(snapshot)
    {
      var r := RemoveByIdResourceList(rows, ids, ds);
      RemoveKeeps(rows, ids, ds);
      KeysBelowSubset(rows, r, nextId);
      rows := r;
    }

    /** Transaction begin: remembers the rows that a rollback restores. */
    method BeginTransaction()
      requires Valid()
      modifies this
      ensures Valid()
      ensures snapshot == rows && rows == old(rows) && nextId == old(nextId)
    {
      snapshot := rows;
    }

    /** Transaction commit: the edits made since the begin are kept. */
    method CommitTransaction()
      requires Valid()
      modifies this
      ensures Valid()
      ensures rows == old(rows) && nextId == old(nextId) && snapshot == rows
    {
      snapshot := rows;
    }

    /** Transaction rollback: the rows saved at the begin are restored. */
    method RollBack()
      requires Valid()
      modifies this
      ensures Valid()
      ensures rows == old(snapshot) && nextId == old(nextId) && snapshot == old(snapshot)
    {
      rows := snapshot;
    }
  }

  /** A row carrying the next key can be appended: the keys stay distinct and below the key after it. */
  lemma {:induction false} AppendKey(rows: seq<IndexerAction>, x: IndexerAction, nextId: int)
    requires DistinctKeys(rows) && KeysBelow(rows, nextId) && x.id == nextId
    ensures DistinctKeys(rows + [x]) && KeysBelow(rows + [x], nextId + 1)
  {
    var r := rows + [x];
    forall i | 0 <= i < |r| ensures Key(r, i) < nextId + 1 {
      if i < |rows| {
        assert Key(rows, i) < nextId;
      }
    }
    forall i, j | 0 <= i < j < |r| ensures Key(r, i) != Key(r, j) {
      if j < |rows| {
        assert Key(rows, i) != Key(rows, j);
      } else {
        assert Key(rows, i) < nextId;
      }
    }
  }

  /** A bound on the keys holds for every larger bound. */
  lemma {:induction false} KeysBelowMore(rows: seq<IndexerAction>, n: int, m: int)
    requires KeysBelow(rows, n) && n <= m
    ensures KeysBelow(rows, m)
  {
    forall i | 0 <= i < |rows| ensures Key(rows, i) < m {
      assert Key(rows, i) < n;
    }
  }

  /** A table made of rows of another keeps that table's bound on the keys. */
  lemma {:induction false} KeysBelowSubset(rows: seq<IndexerAction>, r: seq<IndexerAction>, n: int)
    requires KeysBelow(rows, n) && forall x :: x in r ==> x in rows
    ensures KeysBelow(r, n)
  {
    forall i | 0 <= i < |r| ensures Key(r, i) < n {
      assert r[i] in rows;
      var j :| 0 <= j < |rows| && rows[j] == r[i];
      assert Key(rows, j) < n;
    }
  }

  /** Deleting by key keeps some of the rows in order, so their keys stay distinct. */
  lemma {:induction false} DeleteKeyKeeps(rows: seq<IndexerAction>, key: int)
    requires DistinctKeys(rows)
    ensures DistinctKeys(DeleteKey(rows, key))
  {
    if rows != [] {
      HeadKeyFresh(rows);
      DeleteKeyKeeps(rows[1..], key);
      var t := DeleteKey(rows[1..], key);
      if rows[0].id != key {
        ConsKeys(rows[0], t);
        assert DeleteKey(rows, key) == [rows[0]] + t;
      } else {
        assert DeleteKey(rows, key) == t;
      }
    }
  }

  lemma {:induction false} RemoveKeeps(rows: seq<IndexerAction>, ids: seq<string>, ds: string)
    requires DistinctKeys(rows)
    ensures DistinctKeys(RemoveByIdResourceList(rows, ids, ds))
  {
    if rows != [] {
      HeadKeyFresh(rows);
      RemoveKeeps(rows[1..], ids, ds);
      var t := RemoveByIdResourceList(rows[1..], ids, ds);
      if !(rows[0].idDataSource == ds && rows[0].idResource in ids) {
        ConsKeys(rows[0], t);
        assert RemoveByIdResourceList(rows, ids, ds) == [rows[0]] + t;
      } else {
        assert RemoveByIdResourceList(rows, ids, ds) == t;
      }
    }
  }

  /** In a table with distinct keys, the first row's key occurs nowhere after it. */
  lemma {:induction false} HeadKeyFresh(rows: seq<IndexerAction>)
    requires DistinctKeys(rows) && rows != []
    ensures DistinctKeys(rows[1..])
    ensures forall y :: y in rows[1..] ==> y.id != rows[0].id
  {
    forall i, j | 0 <= i < j < |rows[1..]| ensures Key(rows[1..], i) != Key(rows[1..], j) {
      assert Key(rows, i + 1) != Key(rows, j + 1);
    }
    forall y | y in rows[1..] ensures y.id != rows[0].id {
      var m :| 0 <= m < |rows[1..]| && rows[1..][m] == y;
      assert Key(rows, 0) != Key(rows, m + 1);
    }
  }

  /** A row whose key is fresh can precede rows with distinct keys. */
  lemma {:induction false} ConsKeys(x: IndexerAction, t: seq<IndexerAction>)
    requires DistinctKeys(t)
    requires forall y :: y in t ==> y.id != x.id
    ensures DistinctKeys([x] + t)
  {
    var r := [x] + t;
    forall i, j | 0 <= i < j < |r| ensures Key(r, i) != Key(r, j) {
      assert r[j] == t[j - 1];
      if i == 0 {
        assert t[j - 1] in t;
      } else {
        assert r[i] == t[i - 1];
        assert Key(t, i - 1) != Key(t, j - 1);
      }
    }
  }
}
