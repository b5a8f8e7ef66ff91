# Incremental indexing of the ElasticData plugin, in Dafny

This project models the incremental-indexing engine of the Lutece ElasticData
plugin and proves what it does.

The engine has four parts:

- **A queue of change notifications.** One row `(id, idResource, idTask, idDataSource)`
  per pending change, with task codes CREATE = 1, MODIFY = 2 and DELETE = 3.
  `addTask` merges a new notification into this queue.
- **The incremental service.** It drains the queue of one data source in the
  fixed order CREATE, MODIFY, DELETE:
  - the CREATE worker `insertObjects` posts the objects in bulks of
    `batchSize`;
  - the MODIFY worker `updateObjects` sends one partial update per object;
  - the DELETE worker `deleteByQuery` removes documents by id.
  
  After each successful post the worker deletes the queue rows it has
  handled, inside a transaction that a failure rolls back. The service also
  has a single-flight asynchronous entry guarded by the data source's
  running flag, and a sweep over all data sources that collects their logs.
- **The batch iterator.** It pulls a data source's objects through a cursor
  over a list of ids. Its buffer is an insertion-ordered map keyed by object
  id, and it is refilled one slice of ids at a time.
- **The indexing-status registry.** A map from data-source id to a status
  record. Its getters return 0 for an unknown id, and its setters do nothing
  for an unknown id.

## Modules

- `Common` holds the data objects, the exception messages (`ClientError`,
  `Message`), the outcome of a call that may throw (`Outcome`), and sequence
  helpers.
- `Batching` holds the cutting of a stream into batches (`Chunks`) and the
  first failing call of the search engine (`FirstFailure`).
- `IndexerActions` holds the queue rows, the queries on them, and the queue
  table `IndexerActionTable`.
  - Its `snapshot` field models the transaction manager: begin takes a
    snapshot, commit keeps the edits, rollback restores the snapshot.
- `SearchEngines` holds the search-engine client.
  - Call number `c` fails exactly when `fails(c)` holds.
  - The client counts its calls and records every request that succeeded.
- `IndexingStatusRegistry` holds the `IndexingStatus` record and the
  `IndexingStatusService` map.
- `BatchIterator` holds the data source value and the `BatchDataObjectsIterator`
  class. The ghost function `Stream()` is the list of objects the iterator
  still has to yield.
- `IncrementalPlans` holds the specification functions: `AddTaskRows` for the
  merge rule, and `InsertPlan`, `UpdatePlan`, `DeletePlan`, `TaskPlan`,
  `RunTasks`, `DataSourcePlan` and `SweepPlan`.
  - Each plan states the effect of a run as a function of the starting state.
    The effect is an `Effect`: the outcome, the number of engine calls, the
    requests posted, and the rows left in the queue.
  - The properties of the service are lemmas about these functions.
- `IncrementalService` holds the service's methods.
  - The workers are `while` loops over the iterator, with mutable buffers.
  - Each method is proved to leave exactly the state its plan function
    describes.

The model follows two quirks of the code.

- `updateObjects` never fills its `listIdResource`. Its removal of queue rows
  therefore removes nothing, and MODIFY rows stay pending after a successful
  update (`UpdateKeepsQueue`).
- `insertObjects` removes the rows of the ids of the objects the iterator
  returned, not of the ids requested.

## Model

| member | source | states |
|---|---|---|
| IncrementalService.AddTask | src/java/fr/paris/lutece/plugins/elasticdata/service/DataSourceIncrementalService.java:355-380 | the queue after the call is the merge rule applied to the queue before; the table's key invariant is kept and the transaction snapshot is untouched |
| IncrementalPlans.AddTaskCreates | src/java/fr/paris/lutece/plugins/elasticdata/service/DataSourceIncrementalService.java:358-379 | with no pending row for the pair, exactly one row is appended, carrying the next key, the resource, its task code and the data source, and it is then the only row for the pair |
| IncrementalPlans.AddTaskCancels | src/java/fr/paris/lutece/plugins/elasticdata/service/DataSourceIncrementalService.java:362-365 | a DELETE on a pending CREATE removes that row: no row is left for the pair and every other row stays |
| IncrementalPlans.AddTaskOverrides | src/java/fr/paris/lutece/plugins/elasticdata/service/DataSourceIncrementalService.java:366-371 | a DELETE on a pending MODIFY changes only that row's task to DELETE, in place; every other row is unchanged |
| IncrementalPlans.AddTaskKeeps | src/java/fr/paris/lutece/plugins/elasticdata/service/DataSourceIncrementalService.java:360-373 | any other notification for a pair with a pending row leaves the queue unchanged |
| IncrementalPlans.AddTaskUnique | src/java/fr/paris/lutece/plugins/elasticdata/service/DataSourceIncrementalService.java:355-380 | starting from at most one row per (data source, resource) pair, addTask keeps at most one row per pair |
| IncrementalPlans.DeleteKeyUnique | src/java/fr/paris/lutece/plugins/elasticdata/business/IndexerActionHome.java:87-90 | removing a row by key keeps at most one row per pair |
| IncrementalPlans.SamePairSameRow | src/java/fr/paris/lutece/plugins/elasticdata/service/DataSourceIncrementalService.java:358 | with one row per pair, the row findByIdResource returns for a pair is the only one |
| IndexerActions.Find | src/java/fr/paris/lutece/plugins/elasticdata/service/DataSourceIncrementalService.java:358 | the lookup for a (resource, data source) pair returns a row of that pair, the first one, and returns nothing exactly when the pair has no row |
| IndexerActions.Select | src/java/fr/paris/lutece/plugins/elasticdata/business/IndexerActionDAO.java:57 | the ids listed for a data source and a task are exactly the resource ids of that data source's rows with that task |
| IndexerActions.RemoveByIdResourceList | src/java/fr/paris/lutece/plugins/elasticdata/service/DataSourceIncrementalService.java:235 | the rows left are exactly those not belonging to the data source with a resource id in the list |
| IndexerActions.RemoveByIdResourceListTwice | src/java/fr/paris/lutece/plugins/elasticdata/service/DataSourceIncrementalService.java:235 | two removals in a row remove what one removal of the concatenated lists removes |
| IndexerActions.DeleteKey | src/java/fr/paris/lutece/plugins/elasticdata/business/IndexerActionDAO.java:115-123 | the rows left are exactly those whose key differs from the one deleted |
| IndexerActions.Store | src/java/fr/paris/lutece/plugins/elasticdata/business/IndexerActionDAO.java:129-144 | the row with the stored key is replaced and every other row is kept at its position |
| IndexerActions.IndexerActionTable.Create | src/java/fr/paris/lutece/plugins/elasticdata/business/IndexerActionDAO.java:65-81 | the row is appended with the next generated key, which then moves on; keys stay distinct and below the next key |
| IndexerActions.IndexerActionTable.Update | src/java/fr/paris/lutece/plugins/elasticdata/business/IndexerActionDAO.java:129-144 | the queue becomes Store of the old queue and the row; keys and snapshot are kept |
| IndexerActions.IndexerActionTable.Remove | src/java/fr/paris/lutece/plugins/elasticdata/business/IndexerActionDAO.java:115-123 | the queue becomes DeleteKey of the old queue; keys and snapshot are kept |
| IndexerActions.IndexerActionTable.FindByIdResource | src/java/fr/paris/lutece/plugins/elasticdata/service/DataSourceIncrementalService.java:358 | the lookup is Find on the current queue |
| IndexerActions.IndexerActionTable.GetIdResourceList | src/java/fr/paris/lutece/plugins/elasticdata/business/IndexerActionHome.java:133-136 | the list is Select on the current queue |
| IndexerActions.IndexerActionTable.RemoveByIdResourceListRows | src/java/fr/paris/lutece/plugins/elasticdata/service/DataSourceIncrementalService.java:235 | the queue becomes RemoveByIdResourceList of the old queue, with its key invariant kept |
| IndexerActions.IndexerActionTable.BeginTransaction | src/java/fr/paris/lutece/plugins/elasticdata/service/DataSourceIncrementalService.java:231 | the snapshot becomes the current queue, which is unchanged |
| IndexerActions.IndexerActionTable.CommitTransaction | src/java/fr/paris/lutece/plugins/elasticdata/service/DataSourceIncrementalService.java:239 | the edits made since the snapshot are kept |
| IndexerActions.IndexerActionTable.RollBack | src/java/fr/paris/lutece/plugins/elasticdata/service/DataSourceIncrementalService.java:243 | the queue is restored to the snapshot |
| SearchEngines.SearchEngine.CreateByBulk | src/java/fr/paris/lutece/plugins/elasticdata/service/DataSourceIncrementalService.java:232 | the call is counted, fails as the failure pattern says, and records the bulk only when it succeeds |
| SearchEngines.SearchEngine.PartialUpdateDoc | src/java/fr/paris/lutece/plugins/elasticdata/service/DataSourceIncrementalService.java:290 | the same, for one partial update addressed by the object's id |
| SearchEngines.SearchEngine.DeleteByQueryDocs | src/java/fr/paris/lutece/plugins/elasticdata/service/DataSourceIncrementalService.java:329 | the same, for one delete of a list of document ids |
| IncrementalService.InsertObjects | src/java/fr/paris/lutece/plugins/elasticdata/service/DataSourceIncrementalService.java:204-253 | the outcome, the engine calls, the requests posted and the queue are those of InsertPlan on the iterator's stream; the progress reported is InsertReports and the status counter ends at its last value |
| IncrementalService.InsertRun | src/java/fr/paris/lutece/plugins/elasticdata/service/DataSourceIncrementalService.java:210-249 | the loop either consumes the whole stream with every object posted, or stops at the refused bulk with the state before that bulk restored |
| IncrementalService.InsertTurn | src/java/fr/paris/lutece/plugins/elasticdata/service/DataSourceIncrementalService.java:210-248 | one turn pulls exactly one object, moves the stream past it, and keeps the loop invariant or reports the failed bulk |
| IncrementalService.InsertStep | src/java/fr/paris/lutece/plugins/elasticdata/service/DataSourceIncrementalService.java:213-248 | the object joins the buffers; a bulk is flushed exactly when the batch reaches batchSize or the stream is exhausted; the progress is reported after the turn |
| IncrementalService.PostBulk | src/java/fr/paris/lutece/plugins/elasticdata/service/DataSourceIncrementalService.java:229-246 | a successful bulk removes the rows of the buffered ids and commits; a failed one leaves the queue as it was before the transaction |
| IncrementalService.InsertFlushStep | src/java/fr/paris/lutece/plugins/elasticdata/service/DataSourceIncrementalService.java:216-240 | a successful flush posts the next batch of Chunks, removes the rows of exactly that batch's ids, and empties both buffers |
| IncrementalService.FlushBuffer | src/java/fr/paris/lutece/plugins/elasticdata/service/DataSourceIncrementalService.java:213-216 | the buffer flushed is the next batch of Chunks, and the buffered ids are the ids of the objects pulled since the last flush |
| IncrementalService.InsertFailStep | src/java/fr/paris/lutece/plugins/elasticdata/service/DataSourceIncrementalService.java:241-245 | a refused bulk ends the insert with the createByBulk error; earlier bulks stay posted and their rows stay removed |
| IncrementalService.InsertEndStep | src/java/fr/paris/lutece/plugins/elasticdata/service/DataSourceIncrementalService.java:250-252 | a consumed stream with everything flushed is the successful InsertPlan, counting every object pulled |
| IncrementalService.InsertStopped | src/java/fr/paris/lutece/plugins/elasticdata/service/DataSourceIncrementalService.java:229-246 | when bulk k fails after k successful ones, the insert fails after k + 1 calls, with the first k batches posted and their ids' rows removed |
| IncrementalService.InsertCompleted | src/java/fr/paris/lutece/plugins/elasticdata/service/DataSourceIncrementalService.java:210-252 | when every batch was posted, the insert succeeds with one call per batch and removes the rows of every id pulled |
| IncrementalPlans.InsertSuccess | src/java/fr/paris/lutece/plugins/elasticdata/service/DataSourceIncrementalService.java:210-252 | an insert succeeds exactly when none of its bulk calls fails; it then counts the stream, posts it whole and in order, and removes the rows of all its ids |
| IncrementalPlans.InsertFailure | src/java/fr/paris/lutece/plugins/elasticdata/service/DataSourceIncrementalService.java:241-246 | a failing bulk k gives the createByBulk error, k + 1 calls, the first k batches posted and only their rows removed |
| IncrementalPlans.InsertBulksBounded | src/java/fr/paris/lutece/plugins/elasticdata/service/DataSourceIncrementalService.java:216 | with a positive batchSize, every bulk posted holds between 1 and batchSize objects |
| IncrementalPlans.InsertReportsProgress | src/java/fr/paris/lutece/plugins/elasticdata/service/DataSourceIncrementalService.java:248 | the progress reported never decreases, stays between 1 and the stream length, and counts 1, 2, ... up to the whole stream when no bulk fails |
| IncrementalPlans.BulkDocsOf | src/java/fr/paris/lutece/plugins/elasticdata/service/DataSourceIncrementalService.java:219-223 | the documents of the bulks are the concatenation of the batches, in order |
| Batching.ChunksFlatten | src/java/fr/paris/lutece/plugins/elasticdata/service/DataSourceIncrementalService.java:214-216 | the batches concatenate back to the stream |
| Batching.ChunksBounded | src/java/fr/paris/lutece/plugins/elasticdata/service/DataSourceIncrementalService.java:216 | with a positive batch size every batch holds between 1 and batchSize objects |
| Batching.ChunksCount | src/java/fr/paris/lutece/plugins/elasticdata/service/DataSourceIncrementalService.java:216 | the number of batches is the stream length divided by batchSize, rounded up |
| Batching.SingleChunkWhenUnbounded | src/java/fr/paris/lutece/plugins/elasticdata/service/DataSourceIncrementalService.java:216 | a batchSize below 1 is never reached, so the whole stream is one bulk flushed when the iterator is exhausted |
| Batching.FirstFailure | src/java/fr/paris/lutece/plugins/elasticdata/service/DataSourceIncrementalService.java:229-246 | the number of calls that succeed before the first one that fails, bounded by the calls attempted |
| IncrementalService.UpdateObjects | src/java/fr/paris/lutece/plugins/elasticdata/service/DataSourceIncrementalService.java:268-309 | the outcome, the engine calls, the requests posted and the queue are those of UpdatePlan; on success the status counter holds the count |
| IncrementalService.UpdateTurn | src/java/fr/paris/lutece/plugins/elasticdata/service/DataSourceIncrementalService.java:278-306 | one turn pulls exactly one object and keeps the loop invariant, or ends with the partialUpdate error of UpdatePlan |
| IncrementalService.UpdateStep | src/java/fr/paris/lutece/plugins/elasticdata/service/DataSourceIncrementalService.java:280-305 | the object joins the batch, which is flushed exactly when it reaches batchSize or the stream is exhausted |
| IncrementalService.UpdateFlush | src/java/fr/paris/lutece/plugins/elasticdata/service/DataSourceIncrementalService.java:283-303 | a flush sends the whole batch and empties it, or ends with the failure UpdatePlan describes |
| IncrementalService.PostUpdates | src/java/fr/paris/lutece/plugins/elasticdata/service/DataSourceIncrementalService.java:285-303 | the batch's updates are sent in order until the first failure, each success counted; the empty removal list leaves the queue unchanged |
| IncrementalService.UpdateFlushStep | src/java/fr/paris/lutece/plugins/elasticdata/service/DataSourceIncrementalService.java:288-296 | a flush with no failing call posts one partial update per buffered object and adds them to the count |
| IncrementalService.UpdateFailStep | src/java/fr/paris/lutece/plugins/elasticdata/service/DataSourceIncrementalService.java:298-303 | a failing partial update is the failure of the whole update, with the updates before it posted |
| IncrementalService.UpdateEndStep | src/java/fr/paris/lutece/plugins/elasticdata/service/DataSourceIncrementalService.java:306-308 | a consumed stream with every update sent is the successful UpdatePlan, counting every object |
| IncrementalPlans.UpdateKeepsQueue | src/java/fr/paris/lutece/plugins/elasticdata/service/DataSourceIncrementalService.java:271-294 | an update never changes the queue; it succeeds exactly when none of its calls fails, and then counts the stream and posts one partial update per object, in stream order |
| IncrementalService.DeleteByQuery | src/java/fr/paris/lutece/plugins/elasticdata/service/DataSourceIncrementalService.java:321-342 | the outcome, the call, the request posted and the queue are those of DeletePlan; on success the status counter holds the count |
| IncrementalPlans.DeleteSpec | src/java/fr/paris/lutece/plugins/elasticdata/service/DataSourceIncrementalService.java:325-341 | one call; on success one delete of one document id per resource id, the count of ids, and exactly the rows of those ids removed; on failure the createByBulk error, nothing posted and the queue as it was |
| IncrementalPlans.DocIds | src/java/fr/paris/lutece/plugins/elasticdata/service/DataSourceIncrementalService.java:327-328 | one document id per resource id, in order, each the data source's document id of that resource |
| IncrementalService.ProcessTask | src/java/fr/paris/lutece/plugins/elasticdata/service/DataSourceIncrementalService.java:166-189 | without a client nothing happens and the count is 0; otherwise the effect is TaskPlan of the list and its task code |
| IncrementalPlans.TaskPlanNoop | src/java/fr/paris/lutece/plugins/elasticdata/service/DataSourceIncrementalService.java:172-188 | an empty list or an unknown task code counts 0, calls nothing and leaves the queue unchanged |
| IncrementalService.ProcessDataSource | src/java/fr/paris/lutece/plugins/elasticdata/service/DataSourceIncrementalService.java:134-150 | the status is reset; the effect is DataSourcePlan; the log is the count line only when the run succeeds |
| IncrementalService.RunTaskList | src/java/fr/paris/lutece/plugins/elasticdata/service/DataSourceIncrementalService.java:138-146 | the loop over a list of task codes has the effect of RunTasks on that list; without a client nothing happens |
| IncrementalService.RunTask | src/java/fr/paris/lutece/plugins/elasticdata/service/DataSourceIncrementalService.java:144 | one task reads its list from the queue its predecessors left; the run so far becomes RunTasks of one more task, or of the whole list when this task fails |
| IncrementalPlans.RunTasksUnfold | src/java/fr/paris/lutece/plugins/elasticdata/service/DataSourceIncrementalService.java:138-146 | a run is the CREATE step, then the MODIFY step, then the DELETE step, each on the queue the previous one left |
| IncrementalPlans.RunTasksStops | src/java/fr/paris/lutece/plugins/elasticdata/service/DataSourceIncrementalService.java:142-146 | once a task fails, the later tasks add nothing: no call, no request, no queue change |
| IncrementalPlans.RunTasksNext | src/java/fr/paris/lutece/plugins/elasticdata/service/DataSourceIncrementalService.java:142-146 | the run of one more task is the run so far followed by that task's effect, which adds its count to the sum |
| IncrementalPlans.CreateDrains | src/java/fr/paris/lutece/plugins/elasticdata/service/DataSourceIncrementalService.java:144-177 | with an exact fetch, a successful CREATE task leaves no CREATE row of the data source |
| IncrementalPlans.DeleteDrains | src/java/fr/paris/lutece/plugins/elasticdata/service/DataSourceIncrementalService.java:144-183 | a successful DELETE task leaves no DELETE row of the data source |
| IncrementalPlans.SelectDistinct | src/java/fr/paris/lutece/plugins/elasticdata/business/IndexerActionDAO.java:57 | with one row per pair, the ids listed for a task are distinct |
| IncrementalService.LogRun | src/java/fr/paris/lutece/plugins/elasticdata/service/DataSourceIncrementalService.java:147-149 | the log gains the count line followed by the duration part, and nothing else in the status changes |
| IncrementalService.ProcessAsynchronously | src/java/fr/paris/lutece/plugins/elasticdata/service/DataSourceIncrementalService.java:97-122 | with the flag up nothing changes at all; with the flag down the run happens, the log holds its line or its exception, and the flag is down again on every path |
| IncrementalService.ProcessAll | src/java/fr/paris/lutece/plugins/elasticdata/service/DataSourceIncrementalService.java:70-89 | every data source is run in order on the queue and calls the previous ones left, and the text is SweepText of their outcomes |
| IncrementalService.SweepTurn | src/java/fr/paris/lutece/plugins/elasticdata/service/DataSourceIncrementalService.java:73-86 | one more data source extends the sweep plan and the text by exactly that data source's entry |
| IncrementalService.SweepDataSource | src/java/fr/paris/lutece/plugins/elasticdata/service/DataSourceIncrementalService.java:75-85 | the data source's run is DataSourcePlan and its entry is appended to the text |
| IncrementalService.SweepEntryOf | src/java/fr/paris/lutece/plugins/elasticdata/service/DataSourceIncrementalService.java:79-85 | the message of a failure, then the run's log and a line break, is the sweep entry of that outcome |
| IncrementalPlans.SweepSnoc | src/java/fr/paris/lutece/plugins/elasticdata/service/DataSourceIncrementalService.java:73-87 | the plan of one more data source is the plan so far followed by its run on the state the others left |
| IncrementalPlans.SweepTextSnoc | src/java/fr/paris/lutece/plugins/elasticdata/service/DataSourceIncrementalService.java:85 | the report of one more data source is the report so far followed by its entry |
| IncrementalService.UpdateIndexingStatus | src/java/fr/paris/lutece/plugins/elasticdata/service/DataSourceIncrementalService.java:248 | the status counter records the progress and nothing else in the status changes |
| IncrementalService.PullNext | src/java/fr/paris/lutece/plugins/elasticdata/service/DataSourceIncrementalService.java:212-216 | the object pulled is the stream's next one, the stream moves past it, and more is reported exactly when objects remain, as `hasNext` in the flush test |
| IncrementalService.Pull | src/java/fr/paris/lutece/plugins/elasticdata/service/DataSourceIncrementalService.java:212 | the object pulled is the head of the stream and the stream moves past it |
| BatchIterator.EffectiveBatchSize | src/java/fr/paris/lutece/plugins/elasticdata/business/BatchDataObjectsIterator.java:61 | the data source's batch size when it is at least 1, else the configured default; always at least 1 |
| BatchIterator.LoadNextAsWritten | src/java/fr/paris/lutece/plugins/elasticdata/business/BatchDataObjectsIterator.java:120-136 | the slice with the source's 32-bit cursor sums; when subList does not throw, the result is ids[n..] position by position |
| BatchIterator.LoadNextAgrees | src/java/fr/paris/lutece/plugins/elasticdata/business/BatchDataObjectsIterator.java:120-136 | while n + B stays below 2^31, the source's slice is exactly LoadNextDataObjectsId |
| BatchIterator.LoadNextOverflows | src/java/fr/paris/lutece/plugins/elasticdata/business/BatchDataObjectsIterator.java:123-133 | at B = n = 2^31 - 1 and any non-empty list, the source's slice throws where LoadNextDataObjectsId is empty |
| BatchIterator.LoadNextDataObjectsId | src/java/fr/paris/lutece/plugins/elasticdata/business/BatchDataObjectsIterator.java:120-136 | empty from |ids| on; otherwise between 1 and B ids, min(B, |ids| - n) of them, equal to ids[n..] position by position |
| BatchIterator.SliceConcat | src/java/fr/paris/lutece/plugins/elasticdata/business/BatchDataObjectsIterator.java:120-136 | a slice followed by the ids after it is the whole suffix from the slice's start |
| BatchIterator.SliceDistinct | src/java/fr/paris/lutece/plugins/elasticdata/business/BatchDataObjectsIterator.java:134 | a slice of distinct ids has distinct ids |
| BatchIterator.BatchDataObjectsIterator.constructor | src/java/fr/paris/lutece/plugins/elasticdata/business/BatchDataObjectsIterator.java:57-73 | over a given id list (the list `getDataObjectsIterator(List)` receives), the iterator fetches the first slice into the buffer and sets the cursor to B; its stream is Yield of the ids |
| BatchIterator.BatchDataObjectsIterator.PutObjects | src/java/fr/paris/lutece/plugins/elasticdata/business/BatchDataObjectsIterator.java:68-71 | the buffer becomes the fetched objects put in turn, keyed by id; cursor and slices are unchanged |
| BatchIterator.BatchDataObjectsIterator.HasNext | src/java/fr/paris/lutece/plugins/elasticdata/business/BatchDataObjectsIterator.java:79-82 | true exactly when the buffer is non-empty, which is exactly when objects remain to be yielded |
| BatchIterator.BatchDataObjectsIterator.Next | src/java/fr/paris/lutece/plugins/elasticdata/business/BatchDataObjectsIterator.java:88-113 | on an empty buffer it returns nothing and changes nothing; otherwise it returns the earliest buffered object, removes it, refills only when the buffer became empty, and moves the cursor only when the slice is non-empty |
| BatchIterator.NextStep | src/java/fr/paris/lutece/plugins/elasticdata/business/BatchDataObjectsIterator.java:93-110 | every way next can go keeps the iterator invariant and yields the head of the stream |
| BatchIterator.RefillStep | src/java/fr/paris/lutece/plugins/elasticdata/business/BatchDataObjectsIterator.java:99-108 | a refill requests the slice at the cursor, which is the next multiple of B, and moves the cursor by B |
| BatchIterator.EndStep | src/java/fr/paris/lutece/plugins/elasticdata/business/BatchDataObjectsIterator.java:99-110 | with no slice left the buffer stays empty and iteration ends |
| BatchIterator.SlicesDisjoint | src/java/fr/paris/lutece/plugins/elasticdata/business/BatchDataObjectsIterator.java:65-66 | the slices requested start at 0, B, 2B, ... and never overlap |
| BatchIterator.InitStep | src/java/fr/paris/lutece/plugins/elasticdata/business/BatchDataObjectsIterator.java:57-73 | the first state satisfies the invariant, and its stream is Yield of the ids |
| BatchIterator.YieldExact | src/java/fr/paris/lutece/plugins/elasticdata/business/BatchDataObjectsIterator.java:57-136 | with distinct ids and a fetch that returns exactly the requested objects, the iterator yields the objects of all the ids, in order |
| BatchIterator.TailExact | src/java/fr/paris/lutece/plugins/elasticdata/business/BatchDataObjectsIterator.java:99-110 | under the same conditions, what remains from a cursor is the objects of the ids from that cursor on |
| BatchIterator.PutSpec | src/java/fr/paris/lutece/plugins/elasticdata/business/BatchDataObjectsIterator.java:70 | a put stores the object, adds its id only when the id is new, and keeps the ids distinct |
| BatchIterator.PutAllIds | src/java/fr/paris/lutece/plugins/elasticdata/business/BatchDataObjectsIterator.java:105-108 | the buffer's ids after the puts are those it held and those put |
| BatchIterator.FillSize | src/java/fr/paris/lutece/plugins/elasticdata/business/BatchDataObjectsIterator.java:68-71 | a fetch fills one buffer slot per distinct id, so objects sharing an id take one slot |
| BatchIterator.FillBound | src/java/fr/paris/lutece/plugins/elasticdata/business/BatchDataObjectsIterator.java:68-71 | when the fetch returns only objects of the requested ids, the buffer holds at most as many objects as the slice has ids |
| BatchIterator.RemoveFirstKey | src/java/fr/paris/lutece/plugins/elasticdata/business/BatchDataObjectsIterator.java:97 | removing the first object's key from a buffer keyed by id removes exactly that object |
| IndexingStatusRegistry.IndexingStatusService.GetIndexingStatus | src/java/fr/paris/lutece/plugins/elasticdata/service/IndexingStatusService.java:74-77 | the registered status of the id, or null when the id is not registered |
| IndexingStatusRegistry.IndexingStatusService.RegisterIndexingStatus | src/java/fr/paris/lutece/plugins/elasticdata/service/IndexingStatusService.java:88-91 | the id then maps to the status, replacing any earlier one; other ids keep theirs |
| IndexingStatusRegistry.IndexingStatusService.RemoveIndexingStatus | src/java/fr/paris/lutece/plugins/elasticdata/service/IndexingStatusService.java:101-104 | the entry of the id goes, whatever status is passed; other ids keep theirs |
| IndexingStatusRegistry.IndexingStatusService.GetNbTotalObj | src/java/fr/paris/lutece/plugins/elasticdata/service/IndexingStatusService.java:114-122 | the registered status's total, or 0 for an unregistered id |
| IndexingStatusRegistry.IndexingStatusService.SetnNbTotalObj | src/java/fr/paris/lutece/plugins/elasticdata/service/IndexingStatusService.java:132-139 | the map is unchanged; a registered id's total becomes the value; every current count and every other status's total are unchanged |
| IndexingStatusRegistry.IndexingStatusService.GetCurrentNbIndexedObj | src/java/fr/paris/lutece/plugins/elasticdata/service/IndexingStatusService.java:148-156 | the registered status's current count, or 0 for an unregistered id |
| IndexingStatusRegistry.IndexingStatusService.SetCurrentNbIndexedObj | src/java/fr/paris/lutece/plugins/elasticdata/service/IndexingStatusService.java:167-174 | the map is unchanged; a registered id's current count becomes the value; every total and every other status's count are unchanged |
| IndexingStatusRegistry.IndexingStatus.SetnNbTotalObj | src/java/fr/paris/lutece/plugins/elasticdata/service/IndexingStatus.java:72-75 | the total becomes the value and no other field changes |
| IndexingStatusRegistry.IndexingStatus.SetCurrentNbIndexedObj | src/java/fr/paris/lutece/plugins/elasticdata/service/IndexingStatus.java:92-95 | the current count becomes the value and no other field changes |
| IndexingStatusRegistry.IndexingStatus.CompareAndSetRunning | src/java/fr/paris/lutece/plugins/elasticdata/service/DataSourceIncrementalService.java:99 | the flag is swapped exactly when it held the expected value, and the swap is reported |
| IndexingStatusRegistry.IndexingStatus.AppendLog | src/java/fr/paris/lutece/plugins/elasticdata/service/DataSourceIncrementalService.java:147-149 | the text is appended to the log, as the count line is and as the exception text is on an asynchronous failure (line 110), and no other field changes |
| IndexingStatusRegistry.IndexingStatus.SetRunning | src/java/fr/paris/lutece/plugins/elasticdata/service/DataSourceIncrementalService.java:116 | the running flag takes the value, as the `finally` lowers it, and no other field changes |
| IndexingStatusRegistry.IndexingStatus.Reset | src/java/fr/paris/lutece/plugins/elasticdata/service/DataSourceIncrementalService.java:136 | both counters go to 0 and the log is emptied; the running flag is kept |

The method `IndexingStatusRegistry.RegistryUsage` runs a registry through the
sequence a caller would use: register, re-register, set, get and remove. Its
assertions verify that a registration is read back, that a second one wins,
that an absent id reads 0 and ignores setters, and that a removal forgets an
id while the others keep theirs.

## Left out

- Concurrency. The thread that `processAsynchronouslyIncrementalIndexing`
  starts through the managed thread factory is modelled as running its body
  inline. Only the comparison on the running flag, the run itself, the
  error logging and the `finally` that lowers the flag are kept.
- Clocks, logging and the network. The durations taken from
  `System.currentTimeMillis` are parameters. `AppLogService` calls are left
  out. The search engine is an abstract client whose calls fail according
  to a failure pattern given as a parameter.
- The exception objects. An `ElasticClientException` appears as its message
  (`Message`) and as the text it prints as (`ExceptionText`), which is its
  class name followed by its message. The cause chain is not modelled.
- The JSON of the delete-by-query request. The request records the index
  and the list of document ids, not the query string.
- `DataSourceService.completeDataObjectWithFullData` is left out: the objects
  are posted as the iterator returns them.
- `DataSourceService.getIdDocument` is a function parameter.
- `getElastic` is a nullable client parameter.
- InsertObjects and UpdateObjects take a non-null client. The source
  re-fetches the client when it is null, but the only caller passes a
  non-null one, so that branch is not modelled.
- The property `elasticdata.bulk_batch_size` is not read. The default of
  10000 is the configured batch size.
- `listIdResource != null` in the per-task overload is not modelled, since
  the queue's list is never null.
- The `dataObj != null` test in `next` is not modelled. The buffer holds
  objects, never nulls.
- `IndexerActionHome.findByIdResource` and `removeByIdResourceList` are
  called by the service but are not defined in IndexerActionHome.java. They are
  stated on the in-memory queue as `Find` and `RemoveByIdResourceList`.
- The service calls `getIdResourceIndexerActionsList`. `IndexerActionHome`
  defines `getIdRessourceIndexerActionsList`, which runs the DAO's
  select by data source and task. The model takes the two to be the same
  (`Select`).
- The select has no ORDER BY, so the order of the drained ids is not
  specified. The model drains them in table order.
- `DataSourceService.updateIndexingStatus` is not defined in DataSourceService.java.
  It is modelled as setting the status's current count
  (`UpdateIndexingStatus`).
- `IndexingStatus.reset`, `getSbLogs` and `getIsRunning` are not defined in
  IndexingStatus.java. `reset` is modelled as
  clearing the counters and the log and keeping the running flag.
- `getPercent` is left out, since it is floating-point division that may
  divide by zero.
- `getIndexerAction`, the admin bean, the DAO's SQL and the daemon wrapper
  are left out.
- Integers are unbounded. Java's 32-bit `int` would wrap the counts past
  2^31 - 1.
- LoadNextDataObjectsId: this is the corrected slice, which the iterator
  uses. The source's 32-bit cursor sums can overflow; `LoadNextAsWritten`
  states that, and see "## Findings".
- Next: at batch size 2^31 - 1 the source's first refill throws an unchecked
  exception out of `next()`: IllegalArgumentException from
  `ArrayList.subList`, since the id list is the DAO's `ArrayList`. This
  happens while the last buffered object
  is being pulled. The insert worker has flushed nothing by then, since a
  bulk that large is sent only at exhaustion. So the source posts nothing,
  where the model ends the iteration cleanly and posts the whole stream.
- BatchDataObjectsIterator.constructor: it takes the id list as a parameter.
  It stands for `getDataObjectsIterator(List)`, which the service calls at
  DataSourceIncrementalService.java:177 and :180. Its body is in neither
  DataSource.java nor AbstractDataSource.java, which defines only the form
  without arguments, at AbstractDataSource.java:225. The constructor at
  BatchDataObjectsIterator.java:57-73 reads all of the data source's ids
  from `getIdDataObjects()` instead.
- The fetch `getDataObjects`, `getIdDocument` and the transaction manager
  never fail in the model. In the source they can throw unchecked
  exceptions, and the next lines say what follows from that.
- BatchDataObjectsIterator.constructor: it does not model an exception
  from the first fetch (BatchDataObjectsIterator.java:68). In the source it
  escapes before the worker starts.
- Next: it does not model an exception from the refill fetch
  (BatchDataObjectsIterator.java:105). In the source it escapes from the
  pull at line 212 of the insert worker, or 280 of the update worker,
  outside their `try`. No rollback runs then, and the buffered batch is
  neither posted nor removed from the queue.
- InsertObjects: an unchecked exception from the fetch is not modelled. It
  ends the worker without a rollback and without a status update.
- UpdateObjects: the same holds for an unchecked exception from the fetch.
- DeleteByQuery: an exception from `getIdDocument` (line 327) is not
  modelled. In the source it is raised after `beginTransaction`, passes the
  `catch (ElasticClientException)`, and skips the rollback.
- ProcessAll: the contract runs every data source. In the source an
  unchecked exception passes the `catch (ElasticClientException)` at line 79
  and ends the whole sweep. The remaining data sources are then not run,
  and no report is returned.
- ProcessAsynchronously: the contract covers only the paths of the model,
  where every failure is an ElasticClientException, which is logged and
  lowers the flag. On an unchecked exception only the `finally` at lines
  113-116 runs in the source: the flag is lowered and nothing is logged.
  That path is not modelled.
- The per-data-source loop is split for the proof.
  - RunTaskList is the loop over the list of task codes, and it takes that list as a
    parameter. ProcessDataSource passes CREATE, MODIFY, DELETE.
  - RunTask is one iteration of the loop.
  - The `throw` that leaves the loop is a loop exit on the first failure.
- UpdateObjects: on failure the contract does not state the status's current
  count. In the source it is the last count reported before the failing
  turn, or the earlier value when none was reported.
- ProcessDataSource: the status's current count after the run is not stated.
- ProcessAll: the statuses of the data sources after the sweep are not
  stated, only the report text, the engine and the queue.
- CreateDrains: it is proved for an exact fetch only. With a fetch that
  drops objects, their CREATE rows stay pending, which is faithful to the
  source.

## Findings

| source | as written | input that shows it | evidently intended | confidence | as-written member | corrected member |
|---|---|---|---|---|---|---|
| src/java/fr/paris/lutece/plugins/elasticdata/business/BatchDataObjectsIterator.java:123-133 | `nFirstId + 1` and `nFirstId + _nBatchSize` are 32-bit sums. At the refill from 2^31 - 1 they wrap to -2^31 and -2. The emptiness test passes, and `subList(2147483647, -2)` throws | batch size 2147483647 and any non-empty id list; the refill after the last buffered object | an empty slice, ending the iteration | not executed | BatchIterator.LoadNextOverflows | BatchIterator.LoadNextDataObjectsId |
