/**
 * The incremental indexing service: the merge rule that queues change
 * notifications, the three workers that post a data source's pending
 * changes to the search engine and delete the queue rows they have
 * handled, the per-data-source run, its single-flight asynchronous entry
 * and the sweep over all data sources. Each method is proved against the
 * plan function of IncrementalPlans that describes its effect.
 */
module IncrementalService {
  import opened Common
  import opened Batching
  import opened IndexerActions
  import opened SearchEngines
  import opened IndexingStatusRegistry
  import opened BatchIterator
  import opened IncrementalPlans

  /** The text an ElasticClientException with `error` prints as: its class name, then its message. */
  function ExceptionText(error: ClientError): string
  {
    "fr.paris.lutece.plugins.libraryelastic.util.ElasticClientException: " + Message(error)
  }

  /** updateIndexingStatus(dataSource, n): records n as the data source's progress. */
  method UpdateIndexingStatus(ds: DataSource, n: int)
    modifies ds.indexingStatus
    ensures ds.indexingStatus.currentNbIndexedObj == n
    ensures ds.indexingStatus.nbTotalObj == old(ds.indexingStatus.nbTotalObj)
    ensures ds.indexingStatus.sbLogs == old(ds.indexingStatus.sbLogs)
    ensures ds.indexingStatus.isRunning == old(ds.indexingStatus.isRunning)
    ensures ds.indexingStatus.indexId == old(ds.indexingStatus.indexId)
  {
    ds.indexingStatus.SetCurrentNbIndexedObj(n);
  }

  /** iterator.next() on an iterator with objects left: the first of them, and the stream moves past it. */
  method Pull(it: BatchDataObjectsIterator) returns (o: DataObject)
    requires it.Valid() && it.Stream() != []
    modifies it
    ensures it.Valid()
    ensures o == old(it.Stream())[0] && it.Stream() == old(it.Stream())[1..]
  {
    var more := it.HasNext();
    var next := it.Next();
    o := next.value;
  }

  // ---------------------------------------------------------------------
  // addTask
  // ---------------------------------------------------------------------

  /**
   * Queues the notification that resource `res` of data source `ds` went
   * through `task`, merged with the row already pending for the pair.
   */
  method AddTask(table: IndexerActionTable, ds: string, res: string, task: int)
    requires table.Valid()
    modifies table
    ensures table.Valid()
    ensures table.rows == AddTaskRows(old(table.rows), old(table.nextId), ds, res, task)
    ensures table.snapshot == old(table.snapshot)
  {
    var pending := table.FindByIdResource(res, ds);
    if pending.Some? {
      var a := pending.value;
      if a.idTask == TASK_CREATE && task == TASK_DELETE {
        table.Remove(a.id);
      } else if a.idTask == TASK_MODIFY && task == TASK_DELETE {
        table.Update(a.(idTask := task));
      }
      return;
    }
    var created := table.Create(IndexerAction(0, res, task, ds));
  }

  // ---------------------------------------------------------------------
  // insertObjects
  // ---------------------------------------------------------------------

  /**
   * Posts the objects the iterator yields in bulks of ds.batchSize, each in
   * a transaction that deletes the queue rows of the ids just posted, and
   * reports the number of objects pulled after each one. A failed bulk
   * rolls its transaction back and ends the run with the insert's error.
   */
  method InsertObjects(engine: SearchEngine, table: IndexerActionTable, ds: DataSource, it: BatchDataObjectsIterator)
    returns (r: Outcome, ghost reports: seq<int>)
    requires it.Valid() && table.Valid()
    modifies engine, table, it, ds.indexingStatus
    ensures table.Valid()
    ensures var e := InsertPlan(ds, old(it.Stream()), engine.fails, old(engine.calls), old(table.rows));
      && r == e.outcome
      && engine.calls == old(engine.calls) + e.calls
      && engine.posted == old(engine.posted) + e.posted
      && table.rows == e.rows
    ensures reports == InsertReports(ds, old(it.Stream()), engine.fails, old(engine.calls))
    ensures ds.indexingStatus.currentNbIndexedObj ==
      if reports == [] then old(ds.indexingStatus.currentNbIndexedObj) else reports[|reports| - 1]
    ensures ds.indexingStatus.nbTotalObj == old(ds.indexingStatus.nbTotalObj)
    ensures ds.indexingStatus.sbLogs == old(ds.indexingStatus.sbLogs)
    ensures ds.indexingStatus.isRunning == old(ds.indexingStatus.isRunning)
  {
    ghost var s0, c0, p0, rows0 := it.Stream(), engine.calls, engine.posted, table.rows;
    var failed, nCount;
    ghost var done, flushed, lb, lid, calls, posted, rows;
    failed, nCount, done, flushed, lb, lid, calls, posted, rows := InsertRun(engine, table, ds, it);
    reports := CountUp(nCount);
    if failed {
      InsertFailStep(ds, s0, engine.fails, c0, p0, rows0, done, flushed, nCount, lb, lid, calls, posted, rows);
      return Failure(INSERT_ERROR), reports;
    }
    InsertEndStep(ds, s0, engine.fails, c0, p0, rows0, done, flushed, nCount, lb, lid,
                  engine.calls, engine.posted, table.rows);
    r := Success(nCount);
  }

  /**
   * The loop of insertObjects. It stops either with the stream consumed and
   * every object posted, or at the bulk the engine refused, in which case the
   * ghost results describe the state just before that bulk.
   */
  method InsertRun(engine: SearchEngine, table: IndexerActionTable, ds: DataSource, it: BatchDataObjectsIterator)
    returns (failed: bool, nCount: nat, ghost done: nat, ghost flushed: nat,
             ghost lb: seq<DataObject>, ghost lid: seq<string>,
             ghost calls: nat, ghost posted: seq<Request>, ghost rows: seq<IndexerAction>)
    requires it.Valid() && table.Valid()
    modifies engine, table, it, ds.indexingStatus
    ensures table.Valid()
    ensures ds.indexingStatus.currentNbIndexedObj ==
      if nCount == 0 then old(ds.indexingStatus.currentNbIndexedObj) else nCount
    ensures ds.indexingStatus.nbTotalObj == old(ds.indexingStatus.nbTotalObj)
    ensures ds.indexingStatus.sbLogs == old(ds.indexingStatus.sbLogs)
    ensures ds.indexingStatus.isRunning == old(ds.indexingStatus.isRunning)
    ensures !failed ==>
      && flushed == nCount == |old(it.Stream())|
      && InsertLoop(ds, old(it.Stream()), engine.fails, old(engine.calls), old(engine.posted), old(table.rows),
                    done, flushed, nCount, lb, lid, engine.calls, engine.posted, table.rows)
    ensures failed ==>
      && InsertFailedAt(ds, old(it.Stream()), engine.fails, old(engine.calls), old(engine.posted), old(table.rows),
                        done, flushed, nCount, lb, lid, calls, posted, rows)
      && engine.calls == calls + 1 && engine.posted == posted && table.rows == rows
  {
    ghost var s0 := it.Stream();
    ghost var c0, p0, rows0 := engine.calls, engine.posted, table.rows;
    ghost var cur0 := ds.indexingStatus.currentNbIndexedObj;
    done, flushed := 0, 0;
    calls, posted, rows := c0, p0, rows0;
    var listBatch: seq<DataObject> := [];
    nCount := 0;
    var listIdResource: seq<string> := [];
    InsertStart(ds, s0, engine.fails, c0, p0, rows0);
    var more := it.HasNext();
    while more
      invariant it.Valid() && table.Valid()
      invariant InsertLoop(ds, s0, engine.fails, c0, p0, rows0, done, flushed, nCount, listBatch, listIdResource,
                           engine.calls, engine.posted, table.rows)
      invariant it.Stream() == s0[nCount..]
      invariant more <==> nCount < |s0|
      invariant !more ==> flushed == nCount
      invariant ds.indexingStatus.currentNbIndexedObj == if nCount == 0 then cur0 else nCount
      invariant ds.indexingStatus.nbTotalObj == old(ds.indexingStatus.nbTotalObj)
      invariant ds.indexingStatus.sbLogs == old(ds.indexingStatus.sbLogs)
      invariant ds.indexingStatus.isRunning == old(ds.indexingStatus.isRunning)
      decreases |s0| - nCount
    {
      var n, batch, idList := nCount, listBatch, listIdResource;
      ghost var d, f := done, flushed;
      calls, posted, rows := engine.calls, engine.posted, table.rows;
      var ok;
      ok, more, done, flushed, listBatch, listIdResource, nCount :=
        InsertTurn(engine, table, ds, it, s0, c0, p0, rows0, d, f, batch, idList, n);
      if !ok {
        failed, nCount, done, flushed, lb, lid := true, n, d, f, batch, idList;
        return;
      }
    }
    failed, lb, lid := false, listBatch, listIdResource;
  }

  /** iterator.next() followed by iterator.hasNext(), on a stream known to be the suffix of `s0` after `nCount` objects. */
  method PullNext(it: BatchDataObjectsIterator, ghost s0: seq<DataObject>, ghost nCount: nat) returns (o: DataObject, more: bool)
    requires nCount < |s0| && it.Valid() && it.Stream() == s0[nCount..]
    modifies it
    ensures it.Valid() && it.Stream() == s0[nCount + 1..]
    ensures o == s0[nCount] && (more <==> nCount + 1 < |s0|)
  {
    ghost var stream := it.Stream();
    o := Pull(it);
    SuffixSplit(s0, nCount, stream);
    more := it.HasNext();
  }

  /** A turn of insertObjects' loop: pull the next object, then buffer or post it. */
  method InsertTurn(engine: SearchEngine, table: IndexerActionTable, ds: DataSource, it: BatchDataObjectsIterator,
                    ghost s0: seq<DataObject>, ghost c0: nat, ghost p0: seq<Request>, ghost rows0: seq<IndexerAction>,
                    ghost done: nat, ghost flushed: nat, listBatch: seq<DataObject>, listIdResource: seq<string>, nCount: nat)
    returns (ok: bool, more: bool, ghost done': nat, ghost flushed': nat, listBatch': seq<DataObject>,
             listIdResource': seq<string>, nCount': nat)
    requires it.Valid() && table.Valid()
    requires InsertLoop(ds, s0, engine.fails, c0, p0, rows0, done, flushed, nCount, listBatch, listIdResource,
                        engine.calls, engine.posted, table.rows)
    requires nCount < |s0| && it.Stream() == s0[nCount..]
    modifies engine, table, it, ds.indexingStatus
    ensures it.Valid() && table.Valid()
    ensures nCount' == nCount + 1 && it.Stream() == s0[nCount'..] && (more <==> nCount' < |s0|)
    ensures ds.indexingStatus.currentNbIndexedObj == if ok then nCount' else old(ds.indexingStatus.currentNbIndexedObj)
    ensures ds.indexingStatus.nbTotalObj == old(ds.indexingStatus.nbTotalObj)
    ensures ds.indexingStatus.sbLogs == old(ds.indexingStatus.sbLogs)
    ensures ds.indexingStatus.isRunning == old(ds.indexingStatus.isRunning)
    ensures ok ==> InsertLoop(ds, s0, engine.fails, c0, p0, rows0, done', flushed', nCount', listBatch', listIdResource',
                              engine.calls, engine.posted, table.rows)
    ensures ok ==> !more ==> flushed' == nCount'
    ensures !ok ==>
      && InsertFailedAt(ds, s0, engine.fails, c0, p0, rows0, done, flushed, nCount, listBatch, listIdResource,
                        old(engine.calls), old(engine.posted), old(table.rows))
      && engine.calls == old(engine.calls) + 1 && engine.posted == old(engine.posted) && table.rows == old(table.rows)
  {
    var dataObject;
    dataObject, more := PullNext(it, s0, nCount);
    ok, done', flushed', listBatch', listIdResource', nCount' :=
      InsertStep(engine, table, ds, s0, c0, p0, rows0, done, flushed, listBatch, listIdResource, nCount, dataObject, more);
  }

  /**
   * The rest of a turn of insertObjects' loop once object `o` is pulled:
   * buffer it and, when the buffer is full or the stream is exhausted, post
   * the buffer as a bulk, then report the number of objects pulled. `ok` is
   * false when that bulk was refused, and nothing is reported then.
   */
  method InsertStep(engine: SearchEngine, table: IndexerActionTable, ds: DataSource,
                    ghost s0: seq<DataObject>, ghost c0: nat, ghost p0: seq<Request>, ghost rows0: seq<IndexerAction>,
                    ghost done: nat, ghost flushed: nat, listBatch: seq<DataObject>, listIdResource: seq<string>, nCount: nat,
                    o: DataObject, more: bool)
    returns (ok: bool, ghost done': nat, ghost flushed': nat, listBatch': seq<DataObject>, listIdResource': seq<string>,
             nCount': nat)
    requires table.Valid()
    requires InsertLoop(ds, s0, engine.fails, c0, p0, rows0, done, flushed, nCount, listBatch, listIdResource,
                        engine.calls, engine.posted, table.rows)
    requires nCount < |s0| && o == s0[nCount] && (more <==> nCount + 1 < |s0|)
    modifies engine, table, ds.indexingStatus
    ensures table.Valid()
    ensures nCount' == nCount + 1
    ensures ds.indexingStatus.currentNbIndexedObj == if ok then nCount' else old(ds.indexingStatus.currentNbIndexedObj)
    ensures ds.indexingStatus.nbTotalObj == old(ds.indexingStatus.nbTotalObj)
    ensures ds.indexingStatus.sbLogs == old(ds.indexingStatus.sbLogs)
    ensures ds.indexingStatus.isRunning == old(ds.indexingStatus.isRunning)
    ensures ok ==> InsertLoop(ds, s0, engine.fails, c0, p0, rows0, done', flushed', nCount', listBatch', listIdResource',
                              engine.calls, engine.posted, table.rows)
    ensures ok ==> !more ==> flushed' == nCount'
    ensures !ok ==>
      && InsertFailedAt(ds, s0, engine.fails, c0, p0, rows0, done, flushed, nCount, listBatch, listIdResource,
                        old(engine.calls), old(engine.posted), old(table.rows))
      && engine.calls == old(engine.calls) + 1 && engine.posted == old(engine.posted) && table.rows == old(table.rows)
  {
    ghost var calls, posted, rows := engine.calls, engine.posted, table.rows;
    listIdResource' := listIdResource + [o.id];
    listBatch' := listBatch + [o];
    nCount' := nCount + 1;
    if |listBatch'| == ds.batchSize || !more {
      ok := PostBulk(engine, table, ds, listBatch', listIdResource');
      if !ok {
        done', flushed' := done, flushed;
        return;
      }
      InsertFlushStep(ds, s0, engine.fails, c0, p0, rows0, done, flushed, nCount, listBatch, listIdResource, o,
                      calls, posted, rows);
      listIdResource' := [];
      listBatch' := [];
      done', flushed' := done + 1, nCount';
    } else {
      InsertPullStep(ds, s0, engine.fails, c0, p0, rows0, done, flushed, nCount, listBatch, listIdResource, o,
                     calls, posted, rows);
      ok := true;
      done', flushed' := done, flushed;
    }
    UpdateIndexingStatus(ds, nCount');
  }

  /**
   * The try block of insertObjects: one bulk in a transaction that, when
   * the bulk is accepted, deletes the queue rows of the batch's ids and
   * commits, and otherwise rolls back.
   */
  method PostBulk(engine: SearchEngine, table: IndexerActionTable, ds: DataSource, listBatch: seq<DataObject>, listIdResource: seq<string>)
    returns (ok: bool)
    requires table.Valid()
    modifies engine, table
    ensures table.Valid()
    ensures ok == !engine.fails(old(engine.calls)) && engine.calls == old(engine.calls) + 1
    ensures engine.posted == if ok then old(engine.posted) + [Bulk(ds.targetIndexName, listBatch)] else old(engine.posted)
    ensures table.rows == if ok then RemoveByIdResourceList(old(table.rows), listIdResource, ds.id) else old(table.rows)
  {
    table.BeginTransaction();
    ok := engine.CreateByBulk(ds.targetIndexName, listBatch);
    if !ok {
      table.RollBack();
      return;
    }
    table.RemoveByIdResourceListRows(listIdResource, ds.id);
    table.CommitTransaction();
  }

  /**
   * The state of insertObjects between two objects: `nCount` objects
   * pulled, the first `flushed` of them posted in `done` successful bulks,
   * the rest buffered, and the engine and the queue as those bulks left them.
   */
  ghost predicate InsertLoop(ds: DataSource, s0: seq<DataObject>, fails: nat -> bool, c0: nat, p0: seq<Request>,
                             rows0: seq<IndexerAction>, done: nat, flushed: nat, nCount: nat,
                             listBatch: seq<DataObject>, listIdResource: seq<string>,
                             calls: nat, posted: seq<Request>, rows: seq<IndexerAction>)
  {
    && InsertBuffer(ds, s0, done, flushed, nCount, listBatch, listIdResource)
    && InsertPosted(ds, s0, fails, c0, p0, done, calls, posted)
    && rows == RemoveByIdResourceList(rows0, Ids(s0[..flushed]), ds.id)
  }

  /** The first `flushed` objects form the first `done` batches; the objects after them up to `nCount` are buffered. */
  ghost predicate InsertBuffer(ds: DataSource, s0: seq<DataObject>, done: nat, flushed: nat, nCount: nat,
                               listBatch: seq<DataObject>, listIdResource: seq<string>)
  {
    var batches := Chunks(s0, ds.batchSize);
    && flushed <= nCount <= |s0|
    && listBatch == s0[flushed..nCount] && listIdResource == Ids(listBatch)
    && (ds.batchSize >= 1 ==> |listBatch| < ds.batchSize)
    && done <= |batches| && Flatten(batches[..done]) == s0[..flushed]
    && ChunksFrom(s0, flushed, ds.batchSize) == batches[done..]
  }

  /** The bulks of the first `done` batches were accepted, one call each, and are the posted requests. */
  ghost predicate InsertPosted(ds: DataSource, s0: seq<DataObject>, fails: nat -> bool, c0: nat, p0: seq<Request>,
                               done: nat, calls: nat, posted: seq<Request>)
  {
    var batches := Chunks(s0, ds.batchSize);
    && done <= |batches|
    && Succeeds(fails, c0, done)
    && calls == c0 + done && posted == p0 + Bulks(ds.targetIndexName, batches[..done])
  }

  lemma {:induction false} InsertStart(ds: DataSource, s0: seq<DataObject>, fails: nat -> bool, c0: nat, p0: seq<Request>, rows0: seq<IndexerAction>)
    ensures InsertLoop(ds, s0, fails, c0, p0, rows0, 0, 0, 0, [], [], c0, p0, rows0)
  {
    RemoveByIdResourceListEmpty(rows0, ds.id);
    assert Ids(s0[..0]) == [];
    assert Ids(s0[0..0]) == [];
    ChunksFromSuffix(s0, 0, ds.batchSize);
    assert s0[0..] == s0;
  }

  /** An object pulled into the buffer without completing a batch. */
  lemma {:induction false} InsertPullStep(ds: DataSource, s0: seq<DataObject>, fails: nat -> bool, c0: nat, p0: seq<Request>,
                       rows0: seq<IndexerAction>, done: nat, flushed: nat, nCount: nat,
                       lb: seq<DataObject>, lid: seq<string>, o: DataObject,
                       calls: nat, posted: seq<Request>, rows: seq<IndexerAction>)
    requires InsertLoop(ds, s0, fails, c0, p0, rows0, done, flushed, nCount, lb, lid, calls, posted, rows)
    requires nCount + 1 < |s0| && o == s0[nCount] && |lb| + 1 != ds.batchSize
    ensures InsertLoop(ds, s0, fails, c0, p0, rows0, done, flushed, nCount + 1, lb + [o], lid + [o.id], calls, posted, rows)
  {
    PullBuffer(ds, s0, done, flushed, nCount, lb, lid, o);
  }

  lemma {:induction false} PullBuffer(ds: DataSource, s0: seq<DataObject>, done: nat, flushed: nat, nCount: nat,
                   lb: seq<DataObject>, lid: seq<string>, o: DataObject)
    requires InsertBuffer(ds, s0, done, flushed, nCount, lb, lid)
    requires nCount + 1 < |s0| && o == s0[nCount] && |lb| + 1 != ds.batchSize
    ensures InsertBuffer(ds, s0, done, flushed, nCount + 1, lb + [o], lid + [o.id])
  {
    SliceSnoc(s0, flushed, nCount, lb);
    IdsSnoc(lb, o);
  }

  /** An object pulled that completes a batch, and the batch's bulk accepted. */
  lemma {:induction false} InsertFlushStep(ds: DataSource, s0: seq<DataObject>, fails: nat -> bool, c0: nat, p0: seq<Request>,
                        rows0: seq<IndexerAction>, done: nat, flushed: nat, nCount: nat,
                        lb: seq<DataObject>, lid: seq<string>, o: DataObject,
                        calls: nat, posted: seq<Request>, rows: seq<IndexerAction>)
    requires InsertLoop(ds, s0, fails, c0, p0, rows0, done, flushed, nCount, lb, lid, calls, posted, rows)
    requires nCount < |s0| && o == s0[nCount] && (|lb| + 1 == ds.batchSize || nCount + 1 == |s0|)
    requires !fails(calls)
    ensures InsertLoop(ds, s0, fails, c0, p0, rows0, done + 1, nCount + 1, nCount + 1, [], [], calls + 1,
                       posted + [Bulk(ds.targetIndexName, lb + [o])], RemoveByIdResourceList(rows, lid + [o.id], ds.id))
  {
    FlushBuffer(ds, s0, done, flushed, nCount, lb, lid, o);
    FlushPosted(ds, s0, fails, c0, p0, done, calls, posted, lb + [o]);
    FlushRows(rows0, s0, flushed, nCount + 1, ds.id, rows, lid + [o.id]);
  }

  /** The buffer completed by `o` is the next batch, and the buffer starts afresh after it. */
  lemma {:induction false} FlushBuffer(ds: DataSource, s0: seq<DataObject>, done: nat, flushed: nat, nCount: nat,
                    lb: seq<DataObject>, lid: seq<string>, o: DataObject)
    requires InsertBuffer(ds, s0, done, flushed, nCount, lb, lid)
    requires nCount < |s0| && o == s0[nCount] && (|lb| + 1 == ds.batchSize || nCount + 1 == |s0|)
    ensures InsertBuffer(ds, s0, done + 1, nCount + 1, nCount + 1, [], [])
    ensures done < |Chunks(s0, ds.batchSize)| && Chunks(s0, ds.batchSize)[done] == lb + [o]
    ensures Ids(s0[flushed..nCount + 1]) == lid + [o.id]
  {
    SliceSnoc(s0, flushed, nCount, lb);
    IdsSnoc(lb, o);
    NextBatch(ds.batchSize, s0, Chunks(s0, ds.batchSize), done, flushed, nCount + 1);
    EmptySlice(s0, nCount + 1);
  }

  /** An accepted bulk of the next batch extends the posted requests by one. */
  lemma {:induction false} FlushPosted(ds: DataSource, s0: seq<DataObject>, fails: nat -> bool, c0: nat, p0: seq<Request>,
                    done: nat, calls: nat, posted: seq<Request>, batch: seq<DataObject>)
    requires InsertPosted(ds, s0, fails, c0, p0, done, calls, posted)
    requires done < |Chunks(s0, ds.batchSize)| && Chunks(s0, ds.batchSize)[done] == batch
    requires !fails(calls)
    ensures InsertPosted(ds, s0, fails, c0, p0, done + 1, calls + 1, posted + [Bulk(ds.targetIndexName, batch)])
  {
    var batches := Chunks(s0, ds.batchSize);
    BulksSnoc(ds.targetIndexName, batches, done);
    assert p0 + Bulks(ds.targetIndexName, batches[..done]) + [Bulk(ds.targetIndexName, batches[done])]
      == p0 + (Bulks(ds.targetIndexName, batches[..done]) + [Bulk(ds.targetIndexName, batches[done])]);
    SucceedsSnoc(fails, c0, done);
  }

  /** Deleting the rows of the next batch's ids extends the deleted ids by that batch. */
  lemma {:induction false} FlushRows(rows0: seq<IndexerAction>, s0: seq<DataObject>, flushed: nat, n: nat, dsId: string,
                  rows: seq<IndexerAction>, ids: seq<string>)
    requires flushed <= n <= |s0|
    requires rows == RemoveByIdResourceList(rows0, Ids(s0[..flushed]), dsId) && ids == Ids(s0[flushed..n])
    ensures RemoveByIdResourceList(rows, ids, dsId) == RemoveByIdResourceList(rows0, Ids(s0[..n]), dsId)
  {
    RemoveSplit(rows0, s0, flushed, n, dsId);
  }

  /** The state of insertObjects just before the bulk that the engine refuses: call number `calls` fails. */
  ghost predicate InsertFailedAt(ds: DataSource, s0: seq<DataObject>, fails: nat -> bool, c0: nat, p0: seq<Request>,
                                 rows0: seq<IndexerAction>, done: nat, flushed: nat, nCount: nat,
                                 lb: seq<DataObject>, lid: seq<string>,
                                 calls: nat, posted: seq<Request>, rows: seq<IndexerAction>)
  {
    && InsertLoop(ds, s0, fails, c0, p0, rows0, done, flushed, nCount, lb, lid, calls, posted, rows)
    && nCount < |s0| && (|lb| + 1 == ds.batchSize || nCount + 1 == |s0|)
    && fails(calls)
  }

  /** An object pulled that completes a batch, and the batch's bulk refused. */
  lemma {:induction false} InsertFailStep(ds: DataSource, s0: seq<DataObject>, fails: nat -> bool, c0: nat, p0: seq<Request>,
                       rows0: seq<IndexerAction>, done: nat, flushed: nat, nCount: nat,
                       lb: seq<DataObject>, lid: seq<string>,
                       calls: nat, posted: seq<Request>, rows: seq<IndexerAction>)
    requires InsertFailedAt(ds, s0, fails, c0, p0, rows0, done, flushed, nCount, lb, lid, calls, posted, rows)
    ensures var e := InsertPlan(ds, s0, fails, c0, rows0);
      && Failure(INSERT_ERROR) == e.outcome
      && calls + 1 == c0 + e.calls && posted == p0 + e.posted && rows == e.rows
    ensures CountUp(nCount) == InsertReports(ds, s0, fails, c0)
  {
    var batches := Chunks(s0, ds.batchSize);
    NextBatch(ds.batchSize, s0, batches, done, flushed, nCount + 1);
    InsertStopped(ds, s0, fails, c0, rows0, done);
  }

  /** The stream consumed with every buffered object posted. */
  lemma {:induction false} InsertEndStep(ds: DataSource, s0: seq<DataObject>, fails: nat -> bool, c0: nat, p0: seq<Request>,
                      rows0: seq<IndexerAction>, done: nat, flushed: nat, nCount: nat,
                      lb: seq<DataObject>, lid: seq<string>,
                      calls: nat, posted: seq<Request>, rows: seq<IndexerAction>)
    requires InsertLoop(ds, s0, fails, c0, p0, rows0, done, flushed, nCount, lb, lid, calls, posted, rows)
    requires flushed == nCount == |s0|
    ensures var e := InsertPlan(ds, s0, fails, c0, rows0);
      && Success(nCount) == e.outcome
      && calls == c0 + e.calls && posted == p0 + e.posted && rows == e.rows
    ensures CountUp(nCount) == InsertReports(ds, s0, fails, c0)
  {
    ChunksFromSuffix(s0, flushed, ds.batchSize);
    InsertCompleted(ds, s0, fails, c0, rows0, done, flushed);
  }

  lemma {:induction false} NextBatch(n: int, s0: seq<DataObject>, batches: seq<seq<DataObject>>, done: nat, flushed: nat, nCount: nat)
    requires flushed < nCount <= |s0|
    requires nCount - flushed == n || nCount == |s0|
    requires n >= 1 ==> nCount - flushed <= n
    requires done <= |batches| && Flatten(batches[..done]) == s0[..flushed]
    requires ChunksFrom(s0, flushed, n) == batches[done..]
    ensures done < |batches| && batches[done] == s0[flushed..nCount]
    ensures ChunksFrom(s0, nCount, n) == batches[done + 1..]
    ensures Flatten(batches[..done + 1]) == s0[..nCount]
  {
    if 1 <= n < |s0| - flushed {
      assert nCount == flushed + n;
    } else {
      assert nCount == |s0|;
    }
    assert batches[done..][0] == batches[done];
    assert batches[done..][1..] == batches[done + 1..];
    assert batches[..done + 1] == batches[..done] + [batches[done]];
    FlattenSnoc(batches[..done], batches[done]);
    assert s0[..flushed] + s0[flushed..nCount] == s0[..nCount];
  }

  lemma {:induction false} BulksSnoc(index: string, batches: seq<seq<DataObject>>, k: nat)
    requires k < |batches|
    ensures Bulks(index, batches[..k + 1]) == Bulks(index, batches[..k]) + [Bulk(index, batches[k])]
  {
    assert |Bulks(index, batches[..k + 1])| == k + 1;
  }

  lemma {:induction false} RemoveSplit(rows: seq<IndexerAction>, s: seq<DataObject>, i: nat, j: nat, dsId: string)
    requires i <= j <= |s|
    ensures RemoveByIdResourceList(RemoveByIdResourceList(rows, Ids(s[..i]), dsId), Ids(s[i..j]), dsId)
      == RemoveByIdResourceList(rows, Ids(s[..j]), dsId)
  {
    assert s[..i] + s[i..j] == s[..j];
    IdsAppend(s[..i], s[i..j]);
    RemoveByIdResourceListTwice(rows, Ids(s[..i]), Ids(s[i..j]), dsId);
  }

  /** The plan of an insert whose bulk number `k` fails after k successful ones. */
  lemma {:induction false} InsertStopped(ds: DataSource, s: seq<DataObject>, fails: nat -> bool, c0: nat, rows: seq<IndexerAction>, k: nat)
    requires k < |Chunks(s, ds.batchSize)| && fails(c0 + k)
    requires forall c :: c0 <= c < c0 + k ==> !fails(c)
    ensures var e := InsertPlan(ds, s, fails, c0, rows);
      var batches := Chunks(s, ds.batchSize);
      && e.outcome == Failure(INSERT_ERROR)
      && e.calls == k + 1
      && e.posted == Bulks(ds.targetIndexName, batches[..k])
      && e.rows == RemoveByIdResourceList(rows, Ids(Flatten(batches[..k])), ds.id)
      && InsertReports(ds, s, fails, c0) == CountUp(|Flatten(batches[..k + 1])| - 1)
  {
    FirstFailureAt(fails, c0, |Chunks(s, ds.batchSize)|, k);
    var batches := Chunks(s, ds.batchSize);
    ChunksNonEmpty(s, ds.batchSize);
    assert batches[..k + 1] == batches[..k] + [batches[k]];
    FlattenSnoc(batches[..k], batches[k]);
    assert batches[k] in batches;
  }

  /** The plan of an insert whose bulks all succeed, once the stream has been consumed. */
  lemma {:induction false} InsertCompleted(ds: DataSource, s: seq<DataObject>, fails: nat -> bool, c0: nat, rows: seq<IndexerAction>,
                        done: nat, flushed: nat)
    requires flushed == |s| && done <= |Chunks(s, ds.batchSize)|
    requires Chunks(s[flushed..], ds.batchSize) == Chunks(s, ds.batchSize)[done..]
    requires forall c :: c0 <= c < c0 + done ==> !fails(c)
    requires Flatten(Chunks(s, ds.batchSize)[..done]) == s[..flushed]
    ensures var e := InsertPlan(ds, s, fails, c0, rows);
      var batches := Chunks(s, ds.batchSize);
      && done == |batches|
      && e.outcome == Success(|s|)
      && e.calls == done
      && e.posted == Bulks(ds.targetIndexName, batches[..done])
      && e.rows == RemoveByIdResourceList(rows, Ids(s[..flushed]), ds.id)
      && InsertReports(ds, s, fails, c0) == CountUp(|s|)
  {
    assert s[flushed..] == [];
    NoFailure(fails, c0, |Chunks(s, ds.batchSize)|);
  }

  // ---------------------------------------------------------------------
  // updateObjects
  // ---------------------------------------------------------------------

  /**
   * Sends one partial update per object the iterator yields, by batches of
   * ds.batchSize, each batch in a transaction. The list of ids whose queue
   * rows the transaction deletes is never filled, so the queue is left as
   * it was. A refused update rolls back and ends the run with the update's
   * error; the updates of the batch sent before it stay sent.
   */
  method UpdateObjects(engine: SearchEngine, table: IndexerActionTable, ds: DataSource, it: BatchDataObjectsIterator)
    returns (r: Outcome)
    requires it.Valid() && table.Valid()
    modifies engine, table, it, ds.indexingStatus
    ensures table.Valid()
    ensures var e := UpdatePlan(ds, old(it.Stream()), engine.fails, old(engine.calls), old(table.rows));
      && r == e.outcome
      && engine.calls == old(engine.calls) + e.calls
      && engine.posted == old(engine.posted) + e.posted
      && table.rows == e.rows
    ensures r.Success? ==>
      ds.indexingStatus.currentNbIndexedObj == if r.count == 0 then old(ds.indexingStatus.currentNbIndexedObj) else r.count
    ensures ds.indexingStatus.nbTotalObj == old(ds.indexingStatus.nbTotalObj)
    ensures ds.indexingStatus.sbLogs == old(ds.indexingStatus.sbLogs)
    ensures ds.indexingStatus.isRunning == old(ds.indexingStatus.isRunning)
  {
    ghost var s0, c0, p0 := it.Stream(), engine.calls, engine.posted;
    ghost var cur0 := ds.indexingStatus.currentNbIndexedObj;
    ghost var pulled := 0;
    var listBatch: seq<DataObject> := [];
    var nCount: nat := 0;
    UpdateStart(ds, s0, engine.fails, c0, p0);
    var more := it.HasNext();
    while more
      invariant it.Valid() && table.Valid() && table.rows == old(table.rows)
      invariant UpdateLoop(ds, s0, engine.fails, c0, p0, nCount, pulled, listBatch, engine.calls, engine.posted)
      invariant it.Stream() == s0[pulled..]
      invariant more <==> pulled < |s0|
      invariant !more ==> nCount == pulled
      invariant ds.indexingStatus.currentNbIndexedObj == if pulled == 0 then cur0 else nCount
      invariant ds.indexingStatus.nbTotalObj == old(ds.indexingStatus.nbTotalObj)
      invariant ds.indexingStatus.sbLogs == old(ds.indexingStatus.sbLogs)
      invariant ds.indexingStatus.isRunning == old(ds.indexingStatus.isRunning)
      decreases |s0| - pulled
    {
      var ok;
      ok, more, pulled, listBatch, nCount := UpdateTurn(engine, table, ds, it, s0, c0, p0, pulled, listBatch, nCount);
      if !ok {
        return Failure(UPDATE_ERROR);
      }
    }
    UpdateEndStep(ds, s0, engine.fails, c0, p0, nCount, listBatch, engine.calls, engine.posted, old(table.rows));
    r := Success(nCount);
  }

  /**
   * A turn of updateObjects' loop: pull the next object and buffer it; when
   * the buffer is full or the stream is exhausted, send the buffer's
   * updates; then report the number of objects updated so far. `ok` is
   * false when an update was refused, and nothing is reported then.
   */
  method UpdateTurn(engine: SearchEngine, table: IndexerActionTable, ds: DataSource, it: BatchDataObjectsIterator,
                    ghost s0: seq<DataObject>, ghost c0: nat, ghost p0: seq<Request>,
                    ghost pulled: nat, listBatch: seq<DataObject>, nCount: nat)
    returns (ok: bool, more: bool, ghost pulled': nat, listBatch': seq<DataObject>, nCount': nat)
    requires it.Valid() && table.Valid()
    requires UpdateLoop(ds, s0, engine.fails, c0, p0, nCount, pulled, listBatch, engine.calls, engine.posted)
    requires pulled < |s0| && it.Stream() == s0[pulled..]
    modifies engine, table, it, ds.indexingStatus
    ensures it.Valid() && table.Valid() && table.rows == old(table.rows)
    ensures pulled' == pulled + 1 && it.Stream() == s0[pulled'..] && (more <==> pulled' < |s0|)
    ensures ds.indexingStatus.currentNbIndexedObj == if ok then nCount' else old(ds.indexingStatus.currentNbIndexedObj)
    ensures ds.indexingStatus.nbTotalObj == old(ds.indexingStatus.nbTotalObj)
    ensures ds.indexingStatus.sbLogs == old(ds.indexingStatus.sbLogs)
    ensures ds.indexingStatus.isRunning == old(ds.indexingStatus.isRunning)
    ensures ok ==> UpdateLoop(ds, s0, engine.fails, c0, p0, nCount', pulled', listBatch', engine.calls, engine.posted)
    ensures ok ==> !more ==> nCount' == pulled'
    ensures !ok ==> var e := UpdatePlan(ds, s0, engine.fails, c0, table.rows);
      && Failure(UPDATE_ERROR) == e.outcome && engine.calls == c0 + e.calls && engine.posted == p0 + e.posted
  {
    var dataObject;
    dataObject, more := PullNext(it, s0, pulled);
    pulled' := pulled + 1;
    ok, listBatch', nCount' := UpdateStep(engine, table, ds, s0, c0, p0, pulled, listBatch, nCount, dataObject, more);
  }

  /** The rest of a turn of updateObjects' loop once object `o` is pulled. */
  method UpdateStep(engine: SearchEngine, table: IndexerActionTable, ds: DataSource,
                    ghost s0: seq<DataObject>, ghost c0: nat, ghost p0: seq<Request>,
                    ghost pulled: nat, listBatch: seq<DataObject>, nCount: nat, o: DataObject, more: bool)
    returns (ok: bool, listBatch': seq<DataObject>, nCount': nat)
    requires table.Valid()
    requires UpdateLoop(ds, s0, engine.fails, c0, p0, nCount, pulled, listBatch, engine.calls, engine.posted)
    requires pulled < |s0| && o == s0[pulled] && (more <==> pulled + 1 < |s0|)
    modifies engine, table, ds.indexingStatus
    ensures table.Valid() && table.rows == old(table.rows)
    ensures ds.indexingStatus.currentNbIndexedObj == if ok then nCount' else old(ds.indexingStatus.currentNbIndexedObj)
    ensures ds.indexingStatus.nbTotalObj == old(ds.indexingStatus.nbTotalObj)
    ensures ds.indexingStatus.sbLogs == old(ds.indexingStatus.sbLogs)
    ensures ds.indexingStatus.isRunning == old(ds.indexingStatus.isRunning)
    ensures ok ==> UpdateLoop(ds, s0, engine.fails, c0, p0, nCount', pulled + 1, listBatch', engine.calls, engine.posted)
    ensures ok ==> !more ==> nCount' == pulled + 1
    ensures !ok ==> var e := UpdatePlan(ds, s0, engine.fails, c0, table.rows);
      && Failure(UPDATE_ERROR) == e.outcome && engine.calls == c0 + e.calls && engine.posted == p0 + e.posted
  {
    listBatch' := listBatch + [o];
    nCount' := nCount;
    if |listBatch'| == ds.batchSize || !more {
      ok, nCount' := UpdateFlush(engine, table, ds, s0, c0, p0, pulled, listBatch, nCount, o);
      if !ok {
        return;
      }
      listBatch' := [];
    } else {
      UpdatePullStep(ds, s0, engine.fails, c0, p0, nCount, pulled, listBatch, engine.calls, engine.posted);
      ok := true;
    }
    UpdateIndexingStatus(ds, nCount');
  }

  /** The flush of updateObjects' buffer, extended by object number `pulled`. */
  method UpdateFlush(engine: SearchEngine, table: IndexerActionTable, ds: DataSource,
                     ghost s0: seq<DataObject>, ghost c0: nat, ghost p0: seq<Request>,
                     ghost pulled: nat, listBatch: seq<DataObject>, nCount: nat, o: DataObject)
    returns (ok: bool, nCount': nat)
    requires table.Valid()
    requires UpdateLoop(ds, s0, engine.fails, c0, p0, nCount, pulled, listBatch, engine.calls, engine.posted)
    requires pulled < |s0| && o == s0[pulled]
    modifies engine, table
    ensures table.Valid() && table.rows == old(table.rows)
    ensures ok ==>
      && nCount' == pulled + 1
      && UpdateLoop(ds, s0, engine.fails, c0, p0, nCount', pulled + 1, [], engine.calls, engine.posted)
    ensures !ok ==> var e := UpdatePlan(ds, s0, engine.fails, c0, table.rows);
      && Failure(UPDATE_ERROR) == e.outcome && engine.calls == c0 + e.calls && engine.posted == p0 + e.posted
  {
    ghost var calls, posted := engine.calls, engine.posted;
    var listIdResource: seq<string> := [];
    ok, nCount' := PostUpdates(engine, table, ds, listBatch + [o], listIdResource, nCount);
    RemoveByIdResourceListEmpty(old(table.rows), ds.id);
    if !ok {
      UpdateFailStep(ds, s0, engine.fails, c0, p0, nCount, pulled, listBatch, calls, posted, table.rows);
      return;
    }
    UpdateFlushStep(ds, s0, engine.fails, c0, p0, nCount, pulled, listBatch, calls, posted);
  }

  /**
   * The try block of updateObjects: the batch's partial updates in order,
   * counting each one sent, inside a transaction that, when they all go
   * through, deletes the queue rows of `listIdResource` and commits, and
   * otherwise rolls back at the first refused update.
   */
  method PostUpdates(engine: SearchEngine, table: IndexerActionTable, ds: DataSource, listBatch: seq<DataObject>,
                     listIdResource: seq<string>, nCount: nat)
    returns (ok: bool, nCount': nat)
    requires table.Valid()
    modifies engine, table
    ensures table.Valid()
    ensures var k := FirstFailure(engine.fails, old(engine.calls), |listBatch|);
      && (ok <==> k == |listBatch|)
      && nCount' == nCount + k
      && engine.calls == old(engine.calls) + (if ok then k else k + 1)
      && engine.posted == old(engine.posted) + PartialUpdates(ds.targetIndexName, listBatch[..k])
    ensures table.rows == if ok then RemoveByIdResourceList(old(table.rows), listIdResource, ds.id) else old(table.rows)
  {
    table.BeginTransaction();
    ghost var c := engine.calls;
    var i := 0;
    nCount' := nCount;
    while i < |listBatch|
      invariant i <= |listBatch| && table.Valid()
      invariant table.rows == old(table.rows) && table.snapshot == old(table.rows)
      invariant nCount' == nCount + i && engine.calls == c + i && Succeeds(engine.fails, c, i)
      invariant engine.posted == old(engine.posted) + PartialUpdates(ds.targetIndexName, listBatch[..i])
    {
      var batchObject := listBatch[i];
      var sent := engine.PartialUpdateDoc(ds.targetIndexName, batchObject.id, batchObject);
      if !sent {
        table.RollBack();
        FirstFailureAt(engine.fails, c, |listBatch|, i);
        ok := false;
        return;
      }
      UpdatesSnoc(ds.targetIndexName, listBatch, i, old(engine.posted));
      SucceedsSnoc(engine.fails, c, i);
      nCount' := nCount' + 1;
      i := i + 1;
    }
    NoFailure(engine.fails, c, |listBatch|);
    table.RemoveByIdResourceListRows(listIdResource, ds.id);
    table.CommitTransaction();
    ok := true;
  }

  /**
   * The state of updateObjects between two objects: `pulled` objects
   * pulled, the first `nCount` of them updated by successful calls, the
   * rest buffered.
   */
  ghost predicate UpdateLoop(ds: DataSource, s0: seq<DataObject>, fails: nat -> bool, c0: nat, p0: seq<Request>,
                             nCount: nat, pulled: nat, listBatch: seq<DataObject>, calls: nat, posted: seq<Request>)
  {
    && nCount <= pulled <= |s0|
    && listBatch == s0[nCount..pulled]
    && (ds.batchSize >= 1 ==> |listBatch| < ds.batchSize)
    && Succeeds(fails, c0, nCount)
    && calls == c0 + nCount
    && posted == p0 + PartialUpdates(ds.targetIndexName, s0[..nCount])
  }

  lemma {:induction false} UpdateStart(ds: DataSource, s0: seq<DataObject>, fails: nat -> bool, c0: nat, p0: seq<Request>)
    ensures UpdateLoop(ds, s0, fails, c0, p0, 0, 0, [], c0, p0)
  {
    assert s0[..0] == [] && s0[0..0] == [];
    assert p0 + PartialUpdates(ds.targetIndexName, []) == p0;
  }

  /** The updates of a prefix extended by one object. */
  lemma {:induction false} UpdatesSnoc(index: string, s: seq<DataObject>, i: nat, p: seq<Request>)
    requires i < |s|
    ensures p + PartialUpdates(index, s[..i + 1]) == p + PartialUpdates(index, s[..i]) + [PartialUpdate(index, s[i].id, s[i])]
  {
    assert |PartialUpdates(index, s[..i + 1])| == i + 1;
    assert PartialUpdates(index, s[..i + 1]) == PartialUpdates(index, s[..i]) + [PartialUpdate(index, s[i].id, s[i])];
  }

  /** An object pulled that does not complete a batch is buffered. */
  lemma {:induction false} UpdatePullStep(ds: DataSource, s0: seq<DataObject>, fails: nat -> bool, c0: nat, p0: seq<Request>,
                       nCount: nat, pulled: nat, lb: seq<DataObject>, calls: nat, posted: seq<Request>)
    requires UpdateLoop(ds, s0, fails, c0, p0, nCount, pulled, lb, calls, posted)
    requires pulled + 1 < |s0| && |lb| + 1 != ds.batchSize
    ensures UpdateLoop(ds, s0, fails, c0, p0, nCount, pulled + 1, lb + [s0[pulled]], calls, posted)
  {
    SliceSnoc(s0, nCount, pulled, lb);
  }

  /** A batch whose updates all went through: the objects updated now reach the end of the batch. */
  lemma {:induction false} UpdateFlushStep(ds: DataSource, s0: seq<DataObject>, fails: nat -> bool, c0: nat, p0: seq<Request>,
                        nCount: nat, pulled: nat, lb: seq<DataObject>, calls: nat, posted: seq<Request>)
    requires UpdateLoop(ds, s0, fails, c0, p0, nCount, pulled, lb, calls, posted)
    requires pulled < |s0| && FirstFailure(fails, calls, |lb| + 1) == |lb| + 1
    ensures var b := lb + [s0[pulled]];
      UpdateLoop(ds, s0, fails, c0, p0, nCount + |b|, pulled + 1, [], calls + |b|,
                 posted + PartialUpdates(ds.targetIndexName, b[..|b|]))
  {
    var b := lb + [s0[pulled]];
    SliceSnoc(s0, nCount, pulled, lb);
    SliceTake(s0, nCount, pulled + 1, b, |b|);
    UpdatesAppend(ds.targetIndexName, s0, nCount, pulled + 1, p0);
    SucceedsAppend(fails, c0, nCount, |b|);
    EmptySlice(s0, pulled + 1);
  }

  /**
   * A batch whose update number k is refused: the run's first failing call
   * is the k-th of the batch, and everything sent before it stays sent.
   */
  lemma {:induction false} UpdateFailStep(ds: DataSource, s0: seq<DataObject>, fails: nat -> bool, c0: nat, p0: seq<Request>,
                       nCount: nat, pulled: nat, lb: seq<DataObject>, calls: nat, posted: seq<Request>,
                       rows: seq<IndexerAction>)
    requires UpdateLoop(ds, s0, fails, c0, p0, nCount, pulled, lb, calls, posted)
    requires pulled < |s0| && FirstFailure(fails, calls, |lb| + 1) < |lb| + 1
    ensures var b := lb + [s0[pulled]];
      var k := FirstFailure(fails, calls, |b|);
      var e := UpdatePlan(ds, s0, fails, c0, rows);
      && Failure(UPDATE_ERROR) == e.outcome
      && calls + k + 1 == c0 + e.calls
      && posted + PartialUpdates(ds.targetIndexName, b[..k]) == p0 + e.posted
  {
    var b := lb + [s0[pulled]];
    var k := FirstFailure(fails, calls, |b|);
    SliceSnoc(s0, nCount, pulled, lb);
    SliceTake(s0, nCount, pulled + 1, b, k);
    SucceedsAppend(fails, c0, nCount, k);
    FirstFailureAt(fails, c0, |s0|, nCount + k);
    UpdatesAppend(ds.targetIndexName, s0, nCount, nCount + k, p0);
  }

  /** The stream consumed with every object updated. */
  lemma {:induction false} UpdateEndStep(ds: DataSource, s0: seq<DataObject>, fails: nat -> bool, c0: nat, p0: seq<Request>,
                      nCount: nat, lb: seq<DataObject>, calls: nat, posted: seq<Request>, rows: seq<IndexerAction>)
    requires UpdateLoop(ds, s0, fails, c0, p0, nCount, nCount, lb, calls, posted) && nCount == |s0|
    ensures var e := UpdatePlan(ds, s0, fails, c0, rows);
      && Success(nCount) == e.outcome
      && calls == c0 + e.calls && posted == p0 + e.posted && rows == e.rows
  {
    NoFailure(fails, c0, |s0|);
    assert s0[..nCount] == s0;
  }

  /** The updates of s[..j] are those of s[..i] followed by those of s[i..j]. */
  lemma {:induction false} UpdatesAppend(index: string, s: seq<DataObject>, i: nat, j: nat, p: seq<Request>)
    requires i <= j <= |s|
    ensures p + PartialUpdates(index, s[..j]) == p + PartialUpdates(index, s[..i]) + PartialUpdates(index, s[i..j])
  {
    assert |PartialUpdates(index, s[..j])| == j;
    assert PartialUpdates(index, s[..j]) == PartialUpdates(index, s[..i]) + PartialUpdates(index, s[i..j]);
  }

  lemma {:induction false} SucceedsAppend(fails: nat -> bool, start: nat, a: nat, b: nat)
    requires Succeeds(fails, start, a) && FirstFailure(fails, start + a, b) >= b
    ensures Succeeds(fails, start, a + b)
  {
  }

  // ---------------------------------------------------------------------
  // deleteByQuery and the per-task dispatch
  // ---------------------------------------------------------------------

  /**
   * Deletes the documents of the resource ids `listIdResource` with one
   * delete-by-query call on their document ids, and their queue rows, in
   * one transaction; then reports the number of document ids. A refused
   * call rolls back and fails with the insert's error message.
   */
  method DeleteByQuery(engine: SearchEngine, table: IndexerActionTable, ds: DataSource, listIdResource: seq<string>,
                       getIdDocument: (string, string) -> string)
    returns (r: Outcome)
    requires table.Valid()
    modifies engine, table, ds.indexingStatus
    ensures table.Valid()
    ensures var e := DeletePlan(ds, listIdResource, getIdDocument, engine.fails, old(engine.calls), old(table.rows));
      && r == e.outcome
      && engine.calls == old(engine.calls) + e.calls
      && engine.posted == old(engine.posted) + e.posted
      && table.rows == e.rows
    ensures ds.indexingStatus.currentNbIndexedObj == if r.Success? then r.count else old(ds.indexingStatus.currentNbIndexedObj)
    ensures ds.indexingStatus.nbTotalObj == old(ds.indexingStatus.nbTotalObj)
    ensures ds.indexingStatus.sbLogs == old(ds.indexingStatus.sbLogs)
    ensures ds.indexingStatus.isRunning == old(ds.indexingStatus.isRunning)
  {
    table.BeginTransaction();
    var idDocumentList := DocIds(ds.id, listIdResource, getIdDocument);
    var ok := engine.DeleteByQueryDocs(ds.targetIndexName, idDocumentList);
    if !ok {
      table.RollBack();
      return Failure(DELETE_ERROR);
    }
    table.RemoveByIdResourceListRows(listIdResource, ds.id);
    table.CommitTransaction();
    var nSize := |idDocumentList|;
    UpdateIndexingStatus(ds, nSize);
    r := Success(nSize);
  }

  /**
   * The per-task step of a run: nothing without a search-engine client or
   * without ids; otherwise insert, update or delete the objects of the ids
   * according to its task code, and nothing for an unknown task.
   */
  method ProcessTask(engine: SearchEngine?, table: IndexerActionTable, ds: DataSource, listIdResource: seq<string>,
                     nIdTask: int, getIdDocument: (string, string) -> string)
    returns (r: Outcome)
    requires table.Valid()
    modifies engine, table, ds.indexingStatus
    ensures table.Valid()
    ensures engine == null ==> r == Success(0) && table.rows == old(table.rows)
    ensures engine != null ==>
      var e := TaskPlan(ds, listIdResource, nIdTask, getIdDocument, engine.fails, old(engine.calls), old(table.rows));
      && r == e.outcome
      && engine.calls == old(engine.calls) + e.calls
      && engine.posted == old(engine.posted) + e.posted
      && table.rows == e.rows
    ensures ds.indexingStatus.nbTotalObj == old(ds.indexingStatus.nbTotalObj)
    ensures ds.indexingStatus.sbLogs == old(ds.indexingStatus.sbLogs)
    ensures ds.indexingStatus.isRunning == old(ds.indexingStatus.isRunning)
  {
    if engine == null || listIdResource == [] {
      return Success(0);
    }
    if nIdTask == TASK_CREATE {
      var it := new BatchDataObjectsIterator(ds, listIdResource);
      ghost var reports;
      r, reports := InsertObjects(engine, table, ds, it);
    } else if nIdTask == TASK_MODIFY {
      var it := new BatchDataObjectsIterator(ds, listIdResource);
      r := UpdateObjects(engine, table, ds, it);
    } else if nIdTask == TASK_DELETE {
      r := DeleteByQuery(engine, table, ds, listIdResource, getIdDocument);
    } else {
      r := Success(0);
    }
  }

  // ---------------------------------------------------------------------
  // The per-data-source run, its asynchronous entry and the sweep
  // ---------------------------------------------------------------------

  /**
   * A run for one data source: reset its status, drain the CREATE, MODIFY
   * and DELETE rows in that order, each list read from the queue the
   * previous task left, and log the total with the run's duration
   * `durationMs`. A failing task ends the run before the log line.
   */
  method ProcessDataSource(engine: SearchEngine?, table: IndexerActionTable, ds: DataSource,
                           getIdDocument: (string, string) -> string, durationMs: int)
    returns (r: Outcome)
    requires table.Valid()
    modifies engine, table, ds.indexingStatus
    ensures table.Valid()
    ensures engine == null ==> r == Success(0) && table.rows == old(table.rows)
    ensures engine != null ==>
      var e := DataSourcePlan(ds, true, getIdDocument, engine.fails, old(engine.calls), old(table.rows));
      && r == e.outcome
      && engine.calls == old(engine.calls) + e.calls
      && engine.posted == old(engine.posted) + e.posted
      && table.rows == e.rows
    ensures ds.indexingStatus.sbLogs == if r.Success? then LogLine(ds.name, r.count, durationMs) else ""
    ensures ds.indexingStatus.nbTotalObj == 0
    ensures ds.indexingStatus.isRunning == old(ds.indexingStatus.isRunning)
  {
    ds.indexingStatus.Reset();
    r := RunTaskList(engine, table, ds, TASKS, getIdDocument);
    if r.Success? {
      LogRun(ds, r.count, durationMs);
    }
  }

  /** Task codes `taskList` of a per-data-source run, in order; the first failure ends the run. */
  method RunTaskList(engine: SearchEngine?, table: IndexerActionTable, ds: DataSource, taskList: seq<int>,
                     getIdDocument: (string, string) -> string)
    returns (r: Outcome)
    requires table.Valid()
    modifies engine, table, ds.indexingStatus
    ensures table.Valid()
    ensures engine == null ==> r == Success(0) && table.rows == old(table.rows)
    ensures engine != null ==>
      var e := RunTasks(ds, taskList, getIdDocument, engine.fails, old(engine.calls), old(table.rows));
      && r == e.outcome
      && engine.calls == old(engine.calls) + e.calls
      && engine.posted == old(engine.posted) + e.posted
      && table.rows == e.rows
    ensures ds.indexingStatus.sbLogs == old(ds.indexingStatus.sbLogs)
    ensures ds.indexingStatus.nbTotalObj == old(ds.indexingStatus.nbTotalObj)
    ensures ds.indexingStatus.isRunning == old(ds.indexingStatus.isRunning)
  {
    ghost var c0 := if engine != null then engine.calls else 0;
    ghost var p0 := if engine != null then engine.posted else [];
    ghost var rows0 := table.rows;
    ghost var run := Effect(Success(0), 0, [], rows0);
    r := Success(0);
    var i := 0;
    while i < |taskList| && r.Success?
      invariant i <= |taskList| && table.Valid()
      invariant run.outcome == r && table.rows == run.rows
      invariant engine == null ==> run == Effect(Success(0), 0, [], rows0)
      invariant engine != null ==> engine.calls == c0 + run.calls && engine.posted == p0 + run.posted
      invariant engine != null && r.Success? ==> run == RunTasks(ds, taskList[..i], getIdDocument, engine.fails, c0, rows0)
      invariant engine != null && r.Failure? ==> run == RunTasks(ds, taskList, getIdDocument, engine.fails, c0, rows0)
      invariant ds.indexingStatus.sbLogs == old(ds.indexingStatus.sbLogs)
      invariant ds.indexingStatus.nbTotalObj == old(ds.indexingStatus.nbTotalObj)
      invariant ds.indexingStatus.isRunning == old(ds.indexingStatus.isRunning)
    {
      r, run := RunTask(engine, table, ds, taskList, i, getIdDocument, r, c0, p0, rows0, run);
      i := i + 1;
    }
    if r.Success? {
      TakeAll(taskList);
    }
  }

  /**
   * Task `tasks[i]` of the run: read its list from the queue, then process
   * it after the run of `tasks[..i]` so far, `run`, whose outcome is `r`.
   * A failure is the outcome of the whole run, since it skips the remaining
   * tasks; otherwise that task's count is added to the run's.
   */
  method RunTask(engine: SearchEngine?, table: IndexerActionTable, ds: DataSource, tasks: seq<int>, i: nat,
                 getIdDocument: (string, string) -> string, r: Outcome, ghost c0: nat, ghost p0: seq<Request>,
                 ghost rows0: seq<IndexerAction>, ghost run: Effect)
    returns (r': Outcome, ghost next: Effect)
    requires table.Valid() && i < |tasks| && r.Success?
    requires run.outcome == r && table.rows == run.rows
    requires engine == null ==> run == Effect(Success(0), 0, [], rows0)
    requires engine != null ==>
      && run == RunTasks(ds, tasks[..i], getIdDocument, engine.fails, c0, rows0)
      && engine.calls == c0 + run.calls && engine.posted == p0 + run.posted
    modifies engine, table, ds.indexingStatus
    ensures table.Valid()
    ensures next.outcome == r' && table.rows == next.rows
    ensures engine == null ==> next == run
    ensures engine != null ==> engine.calls == c0 + next.calls && engine.posted == p0 + next.posted
    ensures engine != null && r'.Success? ==> next == RunTasks(ds, tasks[..i + 1], getIdDocument, engine.fails, c0, rows0)
    ensures engine != null && r'.Failure? ==> next == RunTasks(ds, tasks, getIdDocument, engine.fails, c0, rows0)
    ensures ds.indexingStatus.sbLogs == old(ds.indexingStatus.sbLogs)
    ensures ds.indexingStatus.nbTotalObj == old(ds.indexingStatus.nbTotalObj)
    ensures ds.indexingStatus.isRunning == old(ds.indexingStatus.isRunning)
  {
    ghost var rows := table.rows;
    ghost var calls := if engine != null then engine.calls else 0;
    var listIdResource := table.GetIdResourceList(ds.id, tasks[i]);
    var n := ProcessTask(engine, table, ds, listIdResource, tasks[i], getIdDocument);
    r' := if n.Failure? then n else Success(r.count + n.count);
    next := run;
    if engine != null {
      ghost var e := TaskPlan(ds, listIdResource, tasks[i], getIdDocument, engine.fails, calls, rows);
      RunTasksNext(ds, tasks, i, getIdDocument, engine.fails, c0, rows0, run, listIdResource, calls, rows, e);
      AppendAssoc(p0, run.posted, e.posted);
      next := Then(run, e);
    }
  }

  /** Append a run's log line, with its count `nCount` and its duration `durationMs`, to the data source's log. */
  method LogRun(ds: DataSource, nCount: int, durationMs: int)
    modifies ds.indexingStatus
    ensures ds.indexingStatus.sbLogs == old(ds.indexingStatus.sbLogs) + LogLine(ds.name, nCount, durationMs)
    ensures ds.indexingStatus.nbTotalObj == old(ds.indexingStatus.nbTotalObj)
    ensures ds.indexingStatus.currentNbIndexedObj == old(ds.indexingStatus.currentNbIndexedObj)
    ensures ds.indexingStatus.isRunning == old(ds.indexingStatus.isRunning)
  {
    ghost var logs := ds.indexingStatus.sbLogs;
    ds.indexingStatus.AppendLog(LogHead(ds.name, nCount));
    ds.indexingStatus.AppendLog(LogTail(durationMs));
    AppendAssoc(logs, LogHead(ds.name, nCount), LogTail(durationMs));
  }

  /** What the asynchronous entry leaves in a data source's log after a run with `outcome`. */
  function AsyncLog(ds: DataSource, outcome: Outcome, durationMs: int): string
  {
    match outcome
    case Success(count) => LogLine(ds.name, count, durationMs)
    case Failure(error) => Message(error) + ExceptionText(error)
  }

  /**
   * The single-flight entry: when the data source's flag is down, raise it,
   * run the data source, append the exception to its log if the run
   * failed, and lower the flag; when the flag is up, do nothing.
   */
  method ProcessAsynchronously(engine: SearchEngine?, table: IndexerActionTable, ds: DataSource,
                               getIdDocument: (string, string) -> string, durationMs: int)
    requires table.Valid()
    modifies engine, table, ds.indexingStatus
    ensures table.Valid()
    ensures old(ds.indexingStatus.isRunning) ==>
      && table.rows == old(table.rows)
      && (engine != null ==> engine.calls == old(engine.calls) && engine.posted == old(engine.posted))
      && ds.indexingStatus.isRunning
      && ds.indexingStatus.sbLogs == old(ds.indexingStatus.sbLogs)
      && ds.indexingStatus.nbTotalObj == old(ds.indexingStatus.nbTotalObj)
      && ds.indexingStatus.currentNbIndexedObj == old(ds.indexingStatus.currentNbIndexedObj)
    ensures !old(ds.indexingStatus.isRunning) ==> !ds.indexingStatus.isRunning
    ensures !old(ds.indexingStatus.isRunning) && engine == null ==>
      table.rows == old(table.rows) && ds.indexingStatus.sbLogs == LogLine(ds.name, 0, durationMs)
    ensures !old(ds.indexingStatus.isRunning) && engine != null ==>
      var e := DataSourcePlan(ds, true, getIdDocument, engine.fails, old(engine.calls), old(table.rows));
      && engine.calls == old(engine.calls) + e.calls
      && engine.posted == old(engine.posted) + e.posted
      && table.rows == e.rows
      && ds.indexingStatus.sbLogs == AsyncLog(ds, e.outcome, durationMs)
  {
    var swapped := ds.indexingStatus.CompareAndSetRunning(false, true);
    if swapped {
      var r := ProcessDataSource(engine, table, ds, getIdDocument, durationMs);
      if r.Failure? {
        ds.indexingStatus.AppendLog(Message(r.error) + ExceptionText(r.error));
      }
      ds.indexingStatus.SetRunning(false);
    }
  }

  /**
   * The sweep: run every data source of `dss` in order, with durations
   * `durations`, and collect for each one the error message, if its run
   * failed, then its log and a line break.
   */
  method ProcessAll(engine: SearchEngine?, table: IndexerActionTable, dss: seq<DataSource>,
                    getIdDocument: (string, string) -> string, durations: seq<int>)
    returns (text: string)
    requires table.Valid() && |durations| == |dss|
    modifies engine, table, set i | 0 <= i < |dss| :: dss[i].indexingStatus
    ensures table.Valid()
    ensures engine == null ==>
      var sw := SweepPlan(dss, false, getIdDocument, durations, NeverFails, 0, old(table.rows));
      text == SweepText(dss, sw.outcomes, durations) && table.rows == sw.rows
    ensures engine != null ==>
      var sw := SweepPlan(dss, true, getIdDocument, durations, engine.fails, old(engine.calls), old(table.rows));
      && text == SweepText(dss, sw.outcomes, durations)
      && engine.calls == old(engine.calls) + sw.calls
      && engine.posted == old(engine.posted) + sw.posted
      && table.rows == sw.rows
  {
    ghost var fails := if engine != null then engine.fails else NeverFails;
    ghost var c0 := if engine != null then engine.calls else 0;
    ghost var p0 := if engine != null then engine.posted else [];
    ghost var rows0 := table.rows;
    ghost var sw := SweepEffect([], 0, [], rows0);
    text := "";
    var i := 0;
    while i < |dss|
      invariant i <= |dss| && table.Valid() && |sw.outcomes| == i
      invariant sw == SweepPlan(dss[..i], engine != null, getIdDocument, durations[..i], fails, c0, rows0)
      invariant text == SweepText(dss[..i], sw.outcomes, durations[..i])
      invariant table.rows == sw.rows
      invariant engine != null ==> engine.calls == c0 + sw.calls && engine.posted == p0 + sw.posted
    {
      text, sw := SweepTurn(engine, table, dss, getIdDocument, durations, i, text, fails, c0, p0, rows0, sw);
      i := i + 1;
    }
    TakeAll(dss);
    TakeAll(durations);
  }

  /** The sweep's loop body over the data source `dss[i]`, stated as the step from the sweep of `dss[..i]` to that of `dss[..i + 1]`. */
  method SweepTurn(engine: SearchEngine?, table: IndexerActionTable, dss: seq<DataSource>,
                   getIdDocument: (string, string) -> string, durations: seq<int>, i: nat, text: string,
                   ghost fails: nat -> bool, ghost c0: nat, ghost p0: seq<Request>, ghost rows0: seq<IndexerAction>,
                   ghost sw: SweepEffect)
    returns (text': string, ghost sw': SweepEffect)
    requires i < |dss| && |durations| == |dss| && |sw.outcomes| == i && table.Valid()
    requires fails == if engine != null then engine.fails else NeverFails
    requires sw == SweepPlan(dss[..i], engine != null, getIdDocument, durations[..i], fails, c0, rows0)
    requires text == SweepText(dss[..i], sw.outcomes, durations[..i])
    requires table.rows == sw.rows
    requires engine != null ==> engine.calls == c0 + sw.calls && engine.posted == p0 + sw.posted
    modifies engine, table, dss[i].indexingStatus
    ensures table.Valid() && |sw'.outcomes| == i + 1
    ensures sw' == SweepPlan(dss[..i + 1], engine != null, getIdDocument, durations[..i + 1], fails, c0, rows0)
    ensures text' == SweepText(dss[..i + 1], sw'.outcomes, durations[..i + 1])
    ensures table.rows == sw'.rows
    ensures engine != null ==> engine.calls == c0 + sw'.calls && engine.posted == p0 + sw'.posted
  {
    var r;
    ghost var e;
    r, text', e := SweepDataSource(engine, table, dss[i], getIdDocument, durations[i], text, fails, c0, p0, sw);
    SweepStep(dss, engine != null, getIdDocument, durations, fails, c0, rows0, i, sw, e);
    SweepTextSnoc(dss, sw.outcomes, r, durations, i);
    sw' := SweepEffect(sw.outcomes + [e.outcome], sw.calls + e.calls, sw.posted + e.posted, e.rows);
  }

  /**
   * One turn of the sweep: run the data source `ds` after the sweep so far,
   * `sw`, then append the error message, if the run failed, and the data
   * source's log with a line break to the report `text`.
   */
  method SweepDataSource(engine: SearchEngine?, table: IndexerActionTable, ds: DataSource,
                         getIdDocument: (string, string) -> string, durationMs: int, text: string,
                         ghost fails: nat -> bool, ghost c0: nat, ghost p0: seq<Request>, ghost sw: SweepEffect)
    returns (r: Outcome, text': string, ghost e: Effect)
    requires table.Valid() && table.rows == sw.rows
    requires fails == if engine != null then engine.fails else NeverFails
    requires engine != null ==> engine.calls == c0 + sw.calls && engine.posted == p0 + sw.posted
    modifies engine, table, ds.indexingStatus
    ensures table.Valid()
    ensures e == DataSourcePlan(ds, engine != null, getIdDocument, fails, c0 + sw.calls, sw.rows)
    ensures r == e.outcome && table.rows == e.rows
    ensures engine != null ==> engine.calls == c0 + (sw.calls + e.calls) && engine.posted == p0 + (sw.posted + e.posted)
    ensures text' == text + SweepEntry(ds, r, durationMs)
  {
    e := DataSourcePlan(ds, engine != null, getIdDocument, fails, c0 + sw.calls, sw.rows);
    r := ProcessDataSource(engine, table, ds, getIdDocument, durationMs);
    AppendAssoc(p0, sw.posted, e.posted);
    text' := text;
    if r.Failure? {
      text' := text' + Message(r.error);
    }
    text' := text' + ds.indexingStatus.sbLogs + "\n";
    SweepEntryOf(text, ds, r, durationMs, ds.indexingStatus.sbLogs);
  }

  /** An unfolding step for the solver: the pieces the sweep appends for one data source make up its SweepEntry. */
  lemma {:induction false} SweepEntryOf(text: string, ds: DataSource, r: Outcome, durationMs: int, logs: string)
    requires logs == if r.Success? then LogLine(ds.name, r.count, durationMs) else ""
    ensures (if r.Failure? then text + Message(r.error) else text) + logs + "\n" == text + SweepEntry(ds, r, durationMs)
  {
  }
}
