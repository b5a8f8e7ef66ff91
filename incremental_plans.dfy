/**
 * What the incremental service does, as functions of the state it starts
 * from: the merge rule of addTask on the queue table, and the effect of each
 * worker and of a per-data-source run on the queue and on the search
 * engine. The methods of IncrementalService are proved against these.
 */
module IncrementalPlans {
  import opened Common
  import opened Batching
  import opened IndexerActions
  import opened SearchEngines
  import opened BatchIterator

  const INSERT_ERROR: ClientError := CreateByBulkError
  const UPDATE_ERROR: ClientError := PartialUpdateError
  /** deleteByQuery reuses the message of the bulk insert. */
  const DELETE_ERROR: ClientError := CreateByBulkError

  /** The head of a per-data-source log line, before the data source's name. */
  const LOG_PREFIX: string := "Number of documents processed by the incremental service from the Data Source '"

  /** Task codes a per-data-source run drains, in this order. */
  const TASKS: seq<int> := [TASK_CREATE, TASK_MODIFY, TASK_DELETE]

  // ---------------------------------------------------------------------
  // addTask
  // ---------------------------------------------------------------------

  /**
   * The queue after addTask(ds, res, task) when the table's next key is
   * `nextId`. A pending row for the pair absorbs the notification: a DELETE
   * cancels a pending CREATE, a DELETE overrides a pending MODIFY, and any
   * other combination is dropped. Without a pending row, a new row is added.
   */
  function AddTaskRows(rows: seq<IndexerAction>, nextId: int, ds: string, res: string, task: int): seq<IndexerAction>
  {
    match Find(rows, res, ds)
    case Some(a) =>
      if a.idTask == TASK_CREATE && task == TASK_DELETE then DeleteKey(rows, a.id)
      else if a.idTask == TASK_MODIFY && task == TASK_DELETE then Store(rows, a.(idTask := task))
      else rows
    case None => rows + [IndexerAction(nextId, res, task, ds)]
  }

  /** Without a pending row for the pair, addTask appends exactly one row carrying the pair and its task code. */
  lemma {:induction false} AddTaskCreates(rows: seq<IndexerAction>, nextId: int, ds: string, res: string, task: int)
    requires RowsFor(rows, ds, res) == []
    ensures AddTaskRows(rows, nextId, ds, res, task) == rows + [IndexerAction(nextId, res, task, ds)]
    ensures RowsFor(AddTaskRows(rows, nextId, ds, res, task), ds, res) == [IndexerAction(nextId, res, task, ds)]
  {
    RowsForAppend(rows, [IndexerAction(nextId, res, task, ds)], ds, res);
  }

  lemma {:induction false} RowsForAppend(a: seq<IndexerAction>, b: seq<IndexerAction>, ds: string, res: string)
    ensures RowsFor(a + b, ds, res) == RowsFor(a, ds, res) + RowsFor(b, ds, res)
  {
    if a != [] {
      var c := a + b;
      ConsAppend(a, b, c);
      var h := if a[0].idDataSource == ds && a[0].idResource == res then [a[0]] else [];
      assert RowsFor(c, ds, res) == h + RowsFor(c[1..], ds, res);
      RowsForAppend(a[1..], b, ds, res);
      AppendAssoc(h, RowsFor(a[1..], ds, res), RowsFor(b, ds, res));
    } else {
      assert a + b == b;
    }
  }

  /** A DELETE on a pending CREATE removes that row, so no row is left for the pair; every other row stays. */
  lemma {:induction false} AddTaskCancels(rows: seq<IndexerAction>, nextId: int, ds: string, res: string, a: IndexerAction)
    requires DistinctKeys(rows) && UniquePairs(rows)
    requires Find(rows, res, ds) == Some(a) && a.idTask == TASK_CREATE
    ensures RowsFor(AddTaskRows(rows, nextId, ds, res, TASK_DELETE), ds, res) == []
    ensures forall x :: x in AddTaskRows(rows, nextId, ds, res, TASK_DELETE) <==> x in rows && x != a
  {
    var r := AddTaskRows(rows, nextId, ds, res, TASK_DELETE);
    assert r == DeleteKey(rows, a.id);
    forall x | x in rows ensures x.id == a.id ==> x == a {
      SameKeySameRow(rows, x, a);
    }
    forall x | x in rows ensures x.idDataSource == ds && x.idResource == res ==> x == a {
      SamePairSameRow(rows, x, a);
    }
    RowsForNone(r, ds, res);
  }

  /** A table with no row of the pair answers no rows for it. */
  lemma {:induction false} RowsForNone(rows: seq<IndexerAction>, ds: string, res: string)
    requires forall x :: x in rows ==> !(x.idDataSource == ds && x.idResource == res)
    ensures RowsFor(rows, ds, res) == []
  {
    if rows != [] {
      assert rows[0] in rows;
      assert forall x :: x in rows[1..] ==> x in rows;
      RowsForNone(rows[1..], ds, res);
    }
  }

  /** A DELETE on a pending MODIFY turns that row into a DELETE, in place; every other row stays. */
  lemma {:induction false} AddTaskOverrides(rows: seq<IndexerAction>, nextId: int, ds: string, res: string, a: IndexerAction)
    requires DistinctKeys(rows)
    requires Find(rows, res, ds) == Some(a) && a.idTask == TASK_MODIFY
    ensures |AddTaskRows(rows, nextId, ds, res, TASK_DELETE)| == |rows|
    ensures forall i :: 0 <= i < |rows| ==>
      AddTaskRows(rows, nextId, ds, res, TASK_DELETE)[i] == if rows[i] == a then a.(idTask := TASK_DELETE) else rows[i]
  {
    forall i | 0 <= i < |rows| ensures rows[i].id == a.id <==> rows[i] == a {
      assert rows[i] in rows;
      SameKeySameRow(rows, rows[i], a);
    }
  }

  /** Any other combination with a pending row leaves the queue as it was. */
  lemma {:induction false} AddTaskKeeps(rows: seq<IndexerAction>, nextId: int, ds: string, res: string, task: int, a: IndexerAction)
    requires Find(rows, res, ds) == Some(a)
    requires !(a.idTask == TASK_CREATE && task == TASK_DELETE) && !(a.idTask == TASK_MODIFY && task == TASK_DELETE)
    ensures AddTaskRows(rows, nextId, ds, res, task) == rows
  {
  }

  /** addTask keeps at most one row per (data source, resource) pair. */
  lemma {:induction false} AddTaskUnique(rows: seq<IndexerAction>, nextId: int, ds: string, res: string, task: int)
    requires DistinctKeys(rows) && UniquePairs(rows)
    ensures UniquePairs(AddTaskRows(rows, nextId, ds, res, task))
  {
    match Find(rows, res, ds)
    case Some(a) =>
      if a.idTask == TASK_CREATE && task == TASK_DELETE {
        DeleteKeyUnique(rows, a.id);
      } else if a.idTask == TASK_MODIFY && task == TASK_DELETE {
        StoreUnique(rows, a, a.(idTask := task));
      }
    case None =>
      AppendUnique(rows, IndexerAction(nextId, res, task, ds));
  }

  /** Overwriting a row with one of the same key and pair keeps the pairs unique. */
  lemma {:induction false} StoreUnique(rows: seq<IndexerAction>, a: IndexerAction, a': IndexerAction)
    requires DistinctKeys(rows) && UniquePairs(rows) && a in rows
    requires a'.id == a.id && a'.idDataSource == a.idDataSource && a'.idResource == a.idResource
    ensures UniquePairs(Store(rows, a'))
  {
    var r := Store(rows, a');
    forall i | 0 <= i < |rows| ensures r[i].idDataSource == rows[i].idDataSource && r[i].idResource == rows[i].idResource {
      assert rows[i] in rows;
      SameKeySameRow(rows, rows[i], a);
    }
  }

  /** Appending a row for a pair that has none keeps the pairs unique. */
  lemma {:induction false} AppendUnique(rows: seq<IndexerAction>, n: IndexerAction)
    requires UniquePairs(rows) && RowsFor(rows, n.idDataSource, n.idResource) == []
    ensures UniquePairs(rows + [n])
  {
    var r := rows + [n];
    forall i | 0 <= i < |rows| ensures !(rows[i].idDataSource == n.idDataSource && rows[i].idResource == n.idResource) {
      assert rows[i] in rows && rows[i] !in RowsFor(rows, n.idDataSource, n.idResource);
    }
    forall i, j | 0 <= i < j < |r|
      ensures !(r[i].idDataSource == r[j].idDataSource && r[i].idResource == r[j].idResource)
    {
      assert r[i] == rows[i];
      assert r[j] == if j < |rows| then rows[j] else n;
    }
  }

  lemma {:induction false} DeleteKeyUnique(rows: seq<IndexerAction>, key: int)
    requires UniquePairs(rows)
    ensures UniquePairs(DeleteKey(rows, key))
    decreases |rows|
  {
    if rows != [] {
      DeleteKeyUnique(rows[1..], key);
      var t := DeleteKey(rows[1..], key);
      if rows[0].id != key {
        var r := [rows[0]] + t;
        assert DeleteKey(rows, key) == r;
        forall j | 0 <= j < |t|
          ensures !(rows[0].idDataSource == t[j].idDataSource && rows[0].idResource == t[j].idResource)
        {
          assert t[j] in rows[1..];
          var m :| 0 <= m < |rows[1..]| && rows[1..][m] == t[j];
          assert rows[m + 1] == t[j];
        }
        forall i, j | 0 <= i < j < |r|
          ensures !(r[i].idDataSource == r[j].idDataSource && r[i].idResource == r[j].idResource)
        {
          assert r[j] == t[j - 1];
          if i > 0 {
            assert r[i] == t[i - 1];
          }
        }
      } else {
        assert DeleteKey(rows, key) == t;
      }
    }
  }

  lemma {:induction false} SameKeySameRow(rows: seq<IndexerAction>, x: IndexerAction, y: IndexerAction)
    requires DistinctKeys(rows) && x in rows && y in rows
    ensures x.id == y.id ==> x == y
  {
    var i :| 0 <= i < |rows| && rows[i] == x;
    var j :| 0 <= j < |rows| && rows[j] == y;
    assert i < j || j < i ==> Key(rows, i) != Key(rows, j);
  }

  lemma {:induction false} SamePairSameRow(rows: seq<IndexerAction>, x: IndexerAction, y: IndexerAction)
    requires UniquePairs(rows) && x in rows && y in rows
    ensures x.idDataSource == y.idDataSource && x.idResource == y.idResource ==> x == y
  {
    var i :| 0 <= i < |rows| && rows[i] == x;
    var j :| 0 <= j < |rows| && rows[j] == y;
    assert i < j || j < i ==> !(rows[i].idDataSource == rows[j].idDataSource && rows[i].idResource == rows[j].idResource);
  }

  // ---------------------------------------------------------------------
  // The workers and the per-data-source run
  // ---------------------------------------------------------------------

  /**
   * What a run does: its outcome, how many search-engine calls it makes,
   * the requests that the engine accepted, in order, and the queue after it.
   */
  datatype Effect = Effect(outcome: Outcome, calls: nat, posted: seq<Request>, rows: seq<IndexerAction>)

  /** The bulk requests for a sequence of batches. */
  function Bulks(index: string, batches: seq<seq<DataObject>>): seq<Request>
  {
    seq(|batches|, i requires 0 <= i < |batches| => Bulk(index, batches[i]))
  }

  /** One partial update per object, addressed by the object's id. */
  function PartialUpdates(index: string, objs: seq<DataObject>): seq<Request>
  {
    seq(|objs|, i requires 0 <= i < |objs| => PartialUpdate(index, objs[i].id, objs[i]))
  }

  /** The document ids of a list of resource ids, one each, in order. */
  function DocIds(dsId: string, ids: seq<string>, getIdDocument: (string, string) -> string): (r: seq<string>)
    ensures |r| == |ids|
    ensures forall i :: 0 <= i < |ids| ==> r[i] == getIdDocument(dsId, ids[i])
  {
    seq(|ids|, i requires 0 <= i < |ids| => getIdDocument(dsId, ids[i]))
  }

  /**
   * insertObjects over the stream `s`, with the engine's calls numbered from
   * `c0`: the stream is cut into the batches Chunks(s, batchSize) and each
   * batch is one bulk call. The batches before the first failing call are
   * posted and their objects' rows removed; the failing batch is rolled
   * back and ends the run.
   */
  function InsertPlan(ds: DataSource, s: seq<DataObject>, fails: nat -> bool, c0: nat, rows: seq<IndexerAction>): Effect
  {
    var batches := Chunks(s, ds.batchSize);
    var k := FirstFailure(fails, c0, |batches|);
    Effect(
      if k == |batches| then Success(|s|) else Failure(INSERT_ERROR),
      if k == |batches| then k else k + 1,
      Bulks(ds.targetIndexName, batches[..k]),
      RemoveByIdResourceList(rows, Ids(Flatten(batches[..k])), ds.id))
  }

  /**
   * The progress values an insert reports, in order: after each object
   * pulled, the number pulled so far. The object that completes the
   * failing batch is not reported, since the error leaves the loop first.
   */
  ghost function InsertReports(ds: DataSource, s: seq<DataObject>, fails: nat -> bool, c0: nat): seq<int>
  {
    var batches := Chunks(s, ds.batchSize);
    var k := FirstFailure(fails, c0, |batches|);
    if k == |batches| then CountUp(|s|)
    else
      var pulled := |Flatten(batches[..k + 1])|;
      CountUp(if pulled == 0 then 0 else pulled - 1)
  }

  /**
   * updateObjects over the stream `s`: one partial update per object, in
   * stream order, whatever the batch boundaries. The ids it removes from the
   * queue form an empty list, so the queue never changes.
   */
  function UpdatePlan(ds: DataSource, s: seq<DataObject>, fails: nat -> bool, c0: nat, rows: seq<IndexerAction>): Effect
  {
    var k := FirstFailure(fails, c0, |s|);
    Effect(
      if k == |s| then Success(|s|) else Failure(UPDATE_ERROR),
      if k == |s| then k else k + 1,
      PartialUpdates(ds.targetIndexName, s[..k]),
      rows)
  }

  /** deleteByQuery on `ids`: one delete call; the rows of those ids go only when it succeeds. */
  function DeletePlan(ds: DataSource, ids: seq<string>, getIdDocument: (string, string) -> string,
                      fails: nat -> bool, c0: nat, rows: seq<IndexerAction>): Effect
  {
    var docs := DocIds(ds.id, ids, getIdDocument);
    if fails(c0) then Effect(Failure(DELETE_ERROR), 1, [], rows)
    else Effect(Success(|docs|), 1, [DeleteByQuery(ds.targetIndexName, docs)], RemoveByIdResourceList(rows, ids, ds.id))
  }

  /** The objects an iterator over `ids` yields for the data source. */
  ghost function Objects(ds: DataSource, ids: seq<string>): seq<DataObject>
  {
    Yield(ids, EffectiveBatchSize(ds.batchSize), ds.getDataObjects)
  }

  /** The effect of processing task `task` for the list `ids`; an empty list or an unknown task does nothing. */
  ghost function TaskPlan(ds: DataSource, ids: seq<string>, task: int, getIdDocument: (string, string) -> string,
                          fails: nat -> bool, c0: nat, rows: seq<IndexerAction>): Effect
  {
    if ids == [] then Effect(Success(0), 0, [], rows)
    else if task == TASK_CREATE then InsertPlan(ds, Objects(ds, ids), fails, c0, rows)
    else if task == TASK_MODIFY then UpdatePlan(ds, Objects(ds, ids), fails, c0, rows)
    else if task == TASK_DELETE then DeletePlan(ds, ids, getIdDocument, fails, c0, rows)
    else Effect(Success(0), 0, [], rows)
  }

  /**
   * The effect of running `tasks` in order for one data source. Each task
   * reads the queue rows its predecessors left; the first failure stops
   * the run; on success the count is the sum of each task's count.
   */
  ghost function RunTasks(ds: DataSource, tasks: seq<int>, getIdDocument: (string, string) -> string,
                          fails: nat -> bool, c0: nat, rows: seq<IndexerAction>): Effect
    decreases |tasks|
  {
    if tasks == [] then Effect(Success(0), 0, [], rows)
    else RunStep(ds, RunTasks(ds, tasks[..|tasks| - 1], getIdDocument, fails, c0, rows), tasks[|tasks| - 1], getIdDocument, fails, c0)
  }

  /** One more task after the run so far, `prev`: skipped after a failure, otherwise run on the queue `prev` left. */
  ghost function RunStep(ds: DataSource, prev: Effect, task: int, getIdDocument: (string, string) -> string,
                         fails: nat -> bool, c0: nat): Effect
  {
    if prev.outcome.Failure? then prev
    else Then(prev, TaskPlan(ds, Select(prev.rows, ds.id, task), task, getIdDocument, fails, c0 + prev.calls, prev.rows))
  }

  /** A successful run `prev` followed by the effect `e` of the next task. */
  function Then(prev: Effect, e: Effect): Effect
    requires prev.outcome.Success?
  {
    Effect(
      if e.outcome.Failure? then e.outcome else Success(prev.outcome.count + e.outcome.count),
      prev.calls + e.calls, prev.posted + e.posted, e.rows)
  }

  /**
   * A per-data-source run. Without a search-engine client every task is
   * skipped and the run counts nothing.
   */
  ghost function DataSourcePlan(ds: DataSource, up: bool, getIdDocument: (string, string) -> string,
                                fails: nat -> bool, c0: nat, rows: seq<IndexerAction>): Effect
  {
    if up then RunTasks(ds, TASKS, getIdDocument, fails, c0, rows) else Effect(Success(0), 0, [], rows)
  }

  /** What the sweep reports for one data source: the error message, or the run's log line. */
  function SweepEntry(ds: DataSource, outcome: Outcome, durationMs: int): string
  {
    match outcome
    case Failure(error) => Message(error) + "\n"
    case Success(count) => LogLine(ds.name, count, durationMs) + "\n"
  }

  /** The sweep's effect after the data sources `dss`, run in order: each one's outcome, and the totals. */
  datatype SweepEffect = SweepEffect(outcomes: seq<Outcome>, calls: nat, posted: seq<Request>, rows: seq<IndexerAction>)

  ghost function SweepPlan(dss: seq<DataSource>, up: bool, getIdDocument: (string, string) -> string, durations: seq<int>,
                           fails: nat -> bool, c0: nat, rows: seq<IndexerAction>): (r: SweepEffect)
    requires |durations| == |dss|
    ensures |r.outcomes| == |dss|
    decreases |dss|
  {
    if dss == [] then SweepEffect([], 0, [], rows)
    else
      var n := |dss| - 1;
      var prev := SweepPlan(dss[..n], up, getIdDocument, durations[..n], fails, c0, rows);
      var e := DataSourcePlan(dss[n], up, getIdDocument, fails, c0 + prev.calls, prev.rows);
      SweepEffect(prev.outcomes + [e.outcome], prev.calls + e.calls, prev.posted + e.posted, e.rows)
  }

  /** The sweep's report: the entries of the data sources `dss`, whose runs ended with `outcomes`, in order. */
  function SweepText(dss: seq<DataSource>, outcomes: seq<Outcome>, durations: seq<int>): string
    requires |outcomes| == |dss| && |durations| == |dss|
    decreases |dss|
  {
    if dss == [] then ""
    else
      var n := |dss| - 1;
      SweepText(dss[..n], outcomes[..n], durations[..n]) + SweepEntry(dss[n], outcomes[n], durations[n])
  }

  /** The per-data-source log line: the count part, then the duration part, as the run appends them. */
  function LogLine(name: string, count: int, durationMs: int): string
  {
    LogHead(name, count) + LogTail(durationMs)
  }

  function LogHead(name: string, count: int): string
  {
    LOG_PREFIX + name + "' : " + IntToString(count)
  }

  function LogTail(durationMs: int): string
  {
    " (duration : " + IntToString(durationMs) + "ms)\n"
  }

  // ---------------------------------------------------------------------
  // Properties of the plans
  // ---------------------------------------------------------------------

  /**
   * An insert succeeds exactly when none of its bulk calls fails. Then it
   * posts the whole stream, in order, counts it, and removes the rows of
   * every id in it.
   */
  lemma {:induction false} InsertSuccess(ds: DataSource, s: seq<DataObject>, fails: nat -> bool, c0: nat, rows: seq<IndexerAction>)
    ensures var e := InsertPlan(ds, s, fails, c0, rows);
      var m := |Chunks(s, ds.batchSize)|;
      && (e.outcome.Success? <==> forall c :: c0 <= c < c0 + m ==> !fails(c))
      && (e.outcome.Success? ==>
            && e.outcome.count == |s| && e.calls == m
            && BulkDocs(e.posted) == s
            && e.rows == RemoveByIdResourceList(rows, Ids(s), ds.id))
  {
    var batches := Chunks(s, ds.batchSize);
    var k := FirstFailure(fails, c0, |batches|);
    if k == |batches| {
      assert batches[..k] == batches;
      ChunksFlatten(s, ds.batchSize);
      BulkDocsOf(ds.targetIndexName, batches);
    }
  }

  /** The documents of a list of bulk requests, concatenated in order. */
  function BulkDocs(rs: seq<Request>): seq<DataObject>
  {
    if rs == [] then []
    else (if rs[0].Bulk? then rs[0].docs else []) + BulkDocs(rs[1..])
  }

  lemma {:induction false} BulkDocsOf(index: string, batches: seq<seq<DataObject>>)
    ensures BulkDocs(Bulks(index, batches)) == Flatten(batches)
  {
    if batches != [] {
      assert Bulks(index, batches)[1..] == Bulks(index, batches[1..]);
      BulkDocsOf(index, batches[1..]);
    }
  }

  /** With a batch size of at least 1, no bulk is empty or holds more than batchSize objects. */
  lemma {:induction false} InsertBulksBounded(ds: DataSource, s: seq<DataObject>, fails: nat -> bool, c0: nat, rows: seq<IndexerAction>)
    requires ds.batchSize >= 1
    ensures var e := InsertPlan(ds, s, fails, c0, rows);
      forall r :: r in e.posted ==> r.Bulk? && 1 <= |r.docs| <= ds.batchSize
  {
    var batches := Chunks(s, ds.batchSize);
    var k := FirstFailure(fails, c0, |batches|);
    ChunksBounded(s, ds.batchSize);
    forall r | r in Bulks(ds.targetIndexName, batches[..k]) ensures r.Bulk? && 1 <= |r.docs| <= ds.batchSize {
      var i :| 0 <= i < k && Bulks(ds.targetIndexName, batches[..k])[i] == r;
      assert batches[i] in batches;
    }
  }

  /**
   * When the bulk call of batch k fails, the k batches before it stay
   * posted and their rows stay removed, the failing batch's rows stay,
   * and the error is the insert's.
   */
  lemma {:induction false} InsertFailure(ds: DataSource, s: seq<DataObject>, fails: nat -> bool, c0: nat, rows: seq<IndexerAction>, k: nat)
    requires k < |Chunks(s, ds.batchSize)| && fails(c0 + k)
    requires forall c :: c0 <= c < c0 + k ==> !fails(c)
    ensures var e := InsertPlan(ds, s, fails, c0, rows);
      var batches := Chunks(s, ds.batchSize);
      && e.outcome == Failure(INSERT_ERROR)
      && e.calls == k + 1
      && BulkDocs(e.posted) == Flatten(batches[..k])
      && e.rows == RemoveByIdResourceList(rows, Ids(Flatten(batches[..k])), ds.id)
  {
    FirstFailureAt(fails, c0, |Chunks(s, ds.batchSize)|, k);
    BulkDocsOf(ds.targetIndexName, Chunks(s, ds.batchSize)[..k]);
  }

  /** An update succeeds exactly when none of its calls fails, and it never changes the queue. */
  lemma {:induction false} UpdateKeepsQueue(ds: DataSource, s: seq<DataObject>, fails: nat -> bool, c0: nat, rows: seq<IndexerAction>)
    ensures var e := UpdatePlan(ds, s, fails, c0, rows);
      && e.rows == rows
      && (e.outcome.Success? <==> forall c :: c0 <= c < c0 + |s| ==> !fails(c))
      && (e.outcome.Success? ==> e.outcome.count == |s| && e.posted == PartialUpdates(ds.targetIndexName, s))
  {
    var k := FirstFailure(fails, c0, |s|);
    if k == |s| {
      assert s[..k] == s;
    }
  }

  /**
   * A delete maps each resource id to one document id, keeping the length;
   * it removes those ids' rows only when its call succeeds, and then returns
   * how many there were.
   */
  lemma {:induction false} DeleteSpec(ds: DataSource, ids: seq<string>, gid: (string, string) -> string,
                   fails: nat -> bool, c0: nat, rows: seq<IndexerAction>)
    ensures var e := DeletePlan(ds, ids, gid, fails, c0, rows);
      && e.calls == 1
      && (e.outcome.Success? <==> !fails(c0))
      && (e.outcome.Success? ==>
            && e.outcome.count == |ids|
            && |e.posted| == 1 && e.posted[0].DeleteByQuery? && |e.posted[0].docIds| == |ids|
            && (forall x :: x in e.rows <==> x in rows && !(x.idDataSource == ds.id && x.idResource in ids)))
      && (e.outcome.Failure? ==> e.outcome.error == DELETE_ERROR && e.posted == [] && e.rows == rows)
  {
  }

  /** An empty id list or an unknown task code contributes 0 and touches nothing. */
  lemma {:induction false} TaskPlanNoop(ds: DataSource, ids: seq<string>, task: int, gid: (string, string) -> string,
                     fails: nat -> bool, c0: nat, rows: seq<IndexerAction>)
    requires ids == [] || !(task in TASKS)
    ensures TaskPlan(ds, ids, task, gid, fails, c0, rows) == Effect(Success(0), 0, [], rows)
  {
  }

  /** Appending tasks after a failed prefix changes nothing: the first failure ends the run. */
  lemma {:induction false} RunTasksStops(ds: DataSource, tasks: seq<int>, more: seq<int>, gid: (string, string) -> string,
                                         fails: nat -> bool, c0: nat, rows: seq<IndexerAction>)
    requires RunTasks(ds, tasks, gid, fails, c0, rows).outcome.Failure?
    ensures RunTasks(ds, tasks + more, gid, fails, c0, rows) == RunTasks(ds, tasks, gid, fails, c0, rows)
    decreases |more|
  {
    if more != [] {
      var front := more[..|more| - 1];
      assert (tasks + more)[..|tasks + more| - 1] == tasks + front;
      RunTasksStops(ds, tasks, front, gid, fails, c0, rows);
    } else {
      assert tasks + more == tasks;
    }
  }

  /**
   * A per-data-source run drains CREATE, then MODIFY, then DELETE, each
   * step reading the queue and the call counter the previous step left.
   */
  lemma {:induction false} RunTasksUnfold(ds: DataSource, gid: (string, string) -> string, fails: nat -> bool, c0: nat, rows: seq<IndexerAction>)
    ensures RunTasks(ds, TASKS, gid, fails, c0, rows) ==
      RunStep(ds, RunStep(ds, RunStep(ds, Effect(Success(0), 0, [], rows), TASK_CREATE, gid, fails, c0),
                          TASK_MODIFY, gid, fails, c0), TASK_DELETE, gid, fails, c0)
  {
    var e0 := Effect(Success(0), 0, [], rows);
    assert TASKS[..2] == [TASK_CREATE, TASK_MODIFY];
    assert [TASK_CREATE, TASK_MODIFY][..1] == [TASK_CREATE];
    assert [TASK_CREATE][..0] == [];
    assert RunTasks(ds, [], gid, fails, c0, rows) == e0;
    assert RunTasks(ds, [TASK_CREATE], gid, fails, c0, rows) == RunStep(ds, e0, TASK_CREATE, gid, fails, c0);
    assert RunTasks(ds, [TASK_CREATE, TASK_MODIFY], gid, fails, c0, rows)
      == RunStep(ds, RunTasks(ds, [TASK_CREATE], gid, fails, c0, rows), TASK_MODIFY, gid, fails, c0);
    assert RunTasks(ds, TASKS, gid, fails, c0, rows)
      == RunStep(ds, RunTasks(ds, [TASK_CREATE, TASK_MODIFY], gid, fails, c0, rows), TASK_DELETE, gid, fails, c0);
  }

  /**
   * The ids of the CREATE rows of a data source are distinct when the queue
   * keeps one row per pair.
   */
  lemma {:induction false} SelectDistinct(rows: seq<IndexerAction>, ds: string, task: int)
    requires UniquePairs(rows)
    ensures DistinctSeq(Select(rows, ds, task))
  {
    if rows != [] {
      var t := Select(rows[1..], ds, task);
      assert UniquePairs(rows[1..]) by {
        forall i, j | 0 <= i < j < |rows[1..]|
          ensures !(rows[1..][i].idDataSource == rows[1..][j].idDataSource && rows[1..][i].idResource == rows[1..][j].idResource)
        {
          assert rows[1..][i] == rows[i + 1] && rows[1..][j] == rows[j + 1];
        }
      }
      SelectDistinct(rows[1..], ds, task);
      if rows[0].idDataSource == ds && rows[0].idTask == task {
        forall a | a in rows[1..] ensures !(a.idDataSource == ds && a.idResource == rows[0].idResource) {
          var m :| 0 <= m < |rows[1..]| && rows[1..][m] == a;
          assert rows[m + 1] == a;
        }
        assert rows[0].idResource !in t;
        var r := [rows[0].idResource] + t;
        forall i, j | 0 <= i < j < |r| ensures r[i] != r[j] {
          assert r[j] == t[j - 1];
          if i == 0 {
            assert t[j - 1] in t;
          } else {
            assert r[i] == t[i - 1];
          }
        }
      } else {
        assert Select(rows, ds, task) == t;
      }
    }
  }

  /**
   * With a fetch that returns exactly the objects asked for and a queue with
   * one row per pair, a successful CREATE run of a data source leaves none
   * of its CREATE rows behind.
   */
  lemma {:induction false} CreateDrains(ds: DataSource, gid: (string, string) -> string, fails: nat -> bool, c0: nat,
                                        rows: seq<IndexerAction>)
    requires UniquePairs(rows) && FetchExact(ds.getDataObjects)
    ensures var ids := Select(rows, ds.id, TASK_CREATE);
      var e := TaskPlan(ds, ids, TASK_CREATE, gid, fails, c0, rows);
      e.outcome.Success? ==> forall x :: x in e.rows ==> !(x.idDataSource == ds.id && x.idTask == TASK_CREATE)
  {
    var ids := Select(rows, ds.id, TASK_CREATE);
    if ids != [] {
      var b := EffectiveBatchSize(ds.batchSize);
      var s := Objects(ds, ids);
      SelectDistinct(rows, ds.id, TASK_CREATE);
      YieldExact(ids, b, ds.getDataObjects);
      InsertSuccess(ds, s, fails, c0, rows);
      var e := InsertPlan(ds, s, fails, c0, rows);
      if e.outcome.Success? {
        forall x | x in e.rows ensures !(x.idDataSource == ds.id && x.idTask == TASK_CREATE) {
          assert x in rows && !(x.idDataSource == ds.id && x.idResource in ids);
          assert x.idDataSource == ds.id && x.idTask == TASK_CREATE ==> x.idResource in ids;
        }
      }
    } else {
      forall x | x in rows ensures !(x.idDataSource == ds.id && x.idTask == TASK_CREATE) {
        assert x.idDataSource == ds.id && x.idTask == TASK_CREATE ==> x.idResource in ids;
      }
    }
  }

  /** A successful DELETE run of a data source leaves none of its DELETE rows behind. */
  lemma {:induction false} DeleteDrains(ds: DataSource, gid: (string, string) -> string, fails: nat -> bool, c0: nat, rows: seq<IndexerAction>)
    ensures var ids := Select(rows, ds.id, TASK_DELETE);
      var e := TaskPlan(ds, ids, TASK_DELETE, gid, fails, c0, rows);
      e.outcome.Success? ==> forall x :: x in e.rows ==> !(x.idDataSource == ds.id && x.idTask == TASK_DELETE)
  {
    var ids := Select(rows, ds.id, TASK_DELETE);
    var e := TaskPlan(ds, ids, TASK_DELETE, gid, fails, c0, rows);
    if ids != [] && e.outcome.Success? {
      forall x | x in e.rows ensures !(x.idDataSource == ds.id && x.idTask == TASK_DELETE) {
        assert x in rows && !(x.idDataSource == ds.id && x.idResource in ids);
        assert x.idDataSource == ds.id && x.idTask == TASK_DELETE ==> x.idResource in ids;
      }
    } else if ids == [] {
      forall x | x in e.rows ensures !(x.idDataSource == ds.id && x.idTask == TASK_DELETE) {
        assert x in rows;
        assert x.idDataSource == ds.id && x.idTask == TASK_DELETE ==> x.idResource in ids;
      }
    }
  }

  /**
   * The progress an insert reports never decreases and never exceeds the
   * number of objects; after a success its last value is that number.
   */
  lemma {:induction false} InsertReportsProgress(ds: DataSource, s: seq<DataObject>, fails: nat -> bool, c0: nat)
    ensures var r := InsertReports(ds, s, fails, c0);
      && Nondecreasing(r)
      && (forall i :: 0 <= i < |r| ==> 1 <= r[i] <= |s|)
      && ((forall c :: c0 <= c < c0 + |Chunks(s, ds.batchSize)| ==> !fails(c)) ==> r == CountUp(|s|))
  {
    var batches := Chunks(s, ds.batchSize);
    var k := FirstFailure(fails, c0, |batches|);
    if k < |batches| {
      assert batches == batches[..k + 1] + batches[k + 1..];
      FlattenAppend(batches[..k + 1], batches[k + 1..]);
      ChunksFlatten(s, ds.batchSize);
    }
  }

  /** A run of the first i + 1 tasks is the run of the first i followed by one step. */
  lemma {:induction false} RunTasksSnoc(ds: DataSource, tasks: seq<int>, i: nat, gid: (string, string) -> string,
                     fails: nat -> bool, c0: nat, rows: seq<IndexerAction>)
    requires i < |tasks|
    ensures RunTasks(ds, tasks[..i + 1], gid, fails, c0, rows)
      == RunStep(ds, RunTasks(ds, tasks[..i], gid, fails, c0, rows), tasks[i], gid, fails, c0)
  {
    TakeTake(tasks, i);
  }

  /** A step after a successful run is that run followed by that task's effect on the queue the run left. */
  lemma {:induction false} RunStepThen(ds: DataSource, prev: Effect, task: int, gid: (string, string) -> string, fails: nat -> bool, c0: nat,
                                       ids: seq<string>, calls: nat, left: seq<IndexerAction>, e: Effect)
    requires prev.outcome.Success?
    requires left == prev.rows && ids == Select(left, ds.id, task) && calls == c0 + prev.calls
    requires e == TaskPlan(ds, ids, task, gid, fails, calls, left)
    ensures RunStep(ds, prev, task, gid, fails, c0) == Then(prev, e)
  {
    TaskPlanArgs(ds, ids, Select(prev.rows, ds.id, task), task, gid, fails, calls, c0 + prev.calls, left, prev.rows);
  }

  /**
   * The run of `tasks[..i + 1]`, after the successful run `run` of
   * `tasks[..i]`, given the effect `e` of task i on the ids `ids` that the
   * queue `run.rows` holds for it; when that task fails, it is also the run
   * of the whole list.
   */
  lemma {:induction false} RunTasksNext(ds: DataSource, tasks: seq<int>, i: nat, gid: (string, string) -> string,
                     fails: nat -> bool, c0: nat, rows: seq<IndexerAction>, run: Effect,
                     ids: seq<string>, calls: nat, left: seq<IndexerAction>, e: Effect)
    requires i < |tasks| && run == RunTasks(ds, tasks[..i], gid, fails, c0, rows) && run.outcome.Success?
    requires left == run.rows && ids == Select(left, ds.id, tasks[i]) && calls == c0 + run.calls
    requires e == TaskPlan(ds, ids, tasks[i], gid, fails, calls, left)
    ensures RunTasks(ds, tasks[..i + 1], gid, fails, c0, rows) == Then(run, e)
    ensures e.outcome.Failure? ==> RunTasks(ds, tasks, gid, fails, c0, rows) == Then(run, e)
  {
    RunStepThen(ds, run, tasks[i], gid, fails, c0, ids, calls, left, e);
    RunTasksSnoc(ds, tasks, i, gid, fails, c0, rows);
    if e.outcome.Failure? {
      RunTasksFailed(ds, tasks, i + 1, gid, fails, c0, rows);
    }
  }

  /** A congruence step for the solver: a task's effect depends only on the values of its ids, its first call and its queue. */
  lemma {:induction false} TaskPlanArgs(ds: DataSource, ids: seq<string>, ids': seq<string>, task: int,
                                        gid: (string, string) -> string, fails: nat -> bool, calls: nat, calls': nat,
                                        left: seq<IndexerAction>, left': seq<IndexerAction>)
    requires ids == ids' && calls == calls' && left == left'
    ensures TaskPlan(ds, ids, task, gid, fails, calls, left) == TaskPlan(ds, ids', task, gid, fails, calls', left')
  {
  }

  /** After a failing task the rest of the list is skipped. */
  lemma {:induction false} RunTasksFailed(ds: DataSource, tasks: seq<int>, i: nat, gid: (string, string) -> string,
                       fails: nat -> bool, c0: nat, rows: seq<IndexerAction>)
    requires i <= |tasks| && RunTasks(ds, tasks[..i], gid, fails, c0, rows).outcome.Failure?
    ensures RunTasks(ds, tasks, gid, fails, c0, rows) == RunTasks(ds, tasks[..i], gid, fails, c0, rows)
  {
    RunTasksStops(ds, tasks[..i], tasks[i..], gid, fails, c0, rows);
    assert tasks[..i] + tasks[i..] == tasks;
  }

  /** The sweep over the first i + 1 data sources, given the effect `e` of the run of data source i. */
  lemma {:induction false} SweepStep(dss: seq<DataSource>, up: bool, gid: (string, string) -> string, durations: seq<int>,
                  fails: nat -> bool, c0: nat, rows: seq<IndexerAction>, i: nat, sw: SweepEffect, e: Effect)
    requires |durations| == |dss| && i < |dss|
    requires sw == SweepPlan(dss[..i], up, gid, durations[..i], fails, c0, rows)
    requires e == DataSourcePlan(dss[i], up, gid, fails, c0 + sw.calls, sw.rows)
    ensures SweepPlan(dss[..i + 1], up, gid, durations[..i + 1], fails, c0, rows)
      == SweepEffect(sw.outcomes + [e.outcome], sw.calls + e.calls, sw.posted + e.posted, e.rows)
  {
    SweepSnoc(dss, up, gid, durations, fails, c0, rows, i);
  }

  /** A sweep over the first i + 1 data sources is the sweep over the first i followed by one run. */
  lemma {:induction false} SweepSnoc(dss: seq<DataSource>, up: bool, gid: (string, string) -> string, durations: seq<int>,
                  fails: nat -> bool, c0: nat, rows: seq<IndexerAction>, i: nat)
    requires |durations| == |dss| && i < |dss|
    ensures var prev := SweepPlan(dss[..i], up, gid, durations[..i], fails, c0, rows);
      var e := DataSourcePlan(dss[i], up, gid, fails, c0 + prev.calls, prev.rows);
      SweepPlan(dss[..i + 1], up, gid, durations[..i + 1], fails, c0, rows)
        == SweepEffect(prev.outcomes + [e.outcome], prev.calls + e.calls, prev.posted + e.posted, e.rows)
  {
    TakeTake(dss, i);
    TakeTake(durations, i);
  }

  /** One more data source extends the sweep's report by that data source's entry. */
  lemma {:induction false} SweepTextSnoc(dss: seq<DataSource>, outcomes: seq<Outcome>, o: Outcome, durations: seq<int>, i: nat)
    requires |outcomes| == i && |durations| == |dss| && i < |dss|
    ensures SweepText(dss[..i + 1], outcomes + [o], durations[..i + 1])
      == SweepText(dss[..i], outcomes, durations[..i]) + SweepEntry(dss[i], o, durations[i])
  {
    var d, os, ts := dss[..i + 1], outcomes + [o], durations[..i + 1];
    TakeTake(dss, i);
    TakeTake(durations, i);
    assert os[..i] == outcomes;
    assert d[i] == dss[i] && os[i] == o && ts[i] == durations[i];
    SweepTextLast(d, os, ts);
  }

  /** An unfolding step for the solver: the report of a non-empty sweep ends with its last data source's entry. */
  lemma {:induction false} SweepTextLast(dss: seq<DataSource>, outcomes: seq<Outcome>, durations: seq<int>)
    requires |outcomes| == |dss| && |durations| == |dss| && dss != []
    ensures var n := |dss| - 1;
      SweepText(dss, outcomes, durations) == SweepText(dss[..n], outcomes[..n], durations[..n]) + SweepEntry(dss[n], outcomes[n], durations[n])
  {
  }

  /** The failure pattern of a client whose calls all succeed. */
  function NeverFails(c: nat): bool
  {
    false
  }
}
