/**
 * Per-data-source run state (IndexingStatus) and the registry that maps a
 * data-source id to its status (IndexingStatusService).
 */
module IndexingStatusRegistry {

  /**
   * The run state of one data source: the index id, the progress counters,
   * the single-flight flag and the run log.
   */
  class IndexingStatus {
    var indexId: string
    var nbTotalObj: int
    var currentNbIndexedObj: int
    var isRunning: bool
    var sbLogs: string

    constructor ()
      ensures indexId == "" && nbTotalObj == 0 && currentNbIndexedObj == 0
      ensures !isRunning && sbLogs == ""
    {
      indexId, nbTotalObj, currentNbIndexedObj := "", 0, 0;
      isRunning, sbLogs := false, "";
    }

    method SetnNbTotalObj(n: int)
      modifies this
      ensures nbTotalObj == n
      ensures indexId == old(indexId) && currentNbIndexedObj == old(currentNbIndexedObj)
      ensures isRunning == old(isRunning) && sbLogs == old(sbLogs)
    {
      nbTotalObj := n;
    }

    method SetCurrentNbIndexedObj(n: int)
      modifies this
      ensures currentNbIndexedObj == n
      ensures indexId == old(indexId) && nbTotalObj == old(nbTotalObj)
      ensures isRunning == old(isRunning) && sbLogs == old(sbLogs)
    {
      currentNbIndexedObj := n;
    }

    /**
     * Starts a new run: both counters back to 0 and an empty log. The
     * single-flight flag is left alone, since a guarded run resets the
     * status after it has raised the flag.
     */
    method Reset()
      modifies this
      ensures nbTotalObj == 0 && currentNbIndexedObj == 0 && sbLogs == ""
      ensures indexId == old(indexId) && isRunning == old(isRunning)
    {
      nbTotalObj, currentNbIndexedObj, sbLogs := 0, 0, "";
    }

    /** Appends to the run log. */
    method AppendLog(text: string)
      modifies this
      ensures sbLogs == old(sbLogs) + text
      ensures indexId == old(indexId) && nbTotalObj == old(nbTotalObj)
      ensures currentNbIndexedObj == old(currentNbIndexedObj) && isRunning == old(isRunning)
    {
      sbLogs := sbLogs + text;
    }

    /** The running flag's compareAndSet(expected, update). */
    method CompareAndSetRunning(expected: bool, update: bool) returns (swapped: bool)
      modifies this
      ensures swapped == (old(isRunning) == expected)
      ensures isRunning == if swapped then update else old(isRunning)
      ensures indexId == old(indexId) && nbTotalObj == old(nbTotalObj)
      ensures currentNbIndexedObj == old(currentNbIndexedObj) && sbLogs == old(sbLogs)
    {
      swapped := isRunning == expected;
      if swapped {
        isRunning := update;
      }
    }

    /** The running flag's set(value). */
    method SetRunning(value: bool)
      modifies this
      ensures isRunning == value
      ensures indexId == old(indexId) && nbTotalObj == old(nbTotalObj)
      ensures currentNbIndexedObj == old(currentNbIndexedObj) && sbLogs == old(sbLogs)
    {
      isRunning := value;
    }
  }

  /**
   * The registry of indexing statuses, keyed by data-source id. Its getters
   * answer a default for an unregistered id and its setters then do nothing;
   * for a registered id the setters change the stored status object itself.
   */
  class IndexingStatusService {
    var mapIndexingStatus: map<string, IndexingStatus>

    constructor ()
      ensures mapIndexingStatus == map[]
    {
      mapIndexingStatus := map[];
    }

    /** The registered status, or null for an unregistered id. */
    method GetIndexingStatus(id: string) returns (status: IndexingStatus?)
      ensures id in mapIndexingStatus ==> status == mapIndexingStatus[id]
      ensures id !in mapIndexingStatus ==> status == null
    {
      status := if id in mapIndexingStatus then mapIndexingStatus[id] else null;
    }

    /** Registers `status` for `id`, replacing any earlier registration of that id. */
    method RegisterIndexingStatus(id: string, status: IndexingStatus)
      modifies this
      ensures mapIndexingStatus == old(mapIndexingStatus)[id := status]
    {
      mapIndexingStatus := mapIndexingStatus[id := status];
    }

    /** Forgets the status of `id`, whatever status object is passed. */
    method RemoveIndexingStatus(id: string, status: IndexingStatus?)
      modifies this
      ensures mapIndexingStatus == old(mapIndexingStatus) - {id}
    {
      mapIndexingStatus := mapIndexingStatus - {id};
    }

    method GetNbTotalObj(id: string) returns (n: int)
      ensures id in mapIndexingStatus ==> n == mapIndexingStatus[id].nbTotalObj
      ensures id !in mapIndexingStatus ==> n == 0
    {
      n := if id in mapIndexingStatus then mapIndexingStatus[id].nbTotalObj else 0;
    }

    method GetCurrentNbIndexedObj(id: string) returns (n: int)
      ensures id in mapIndexingStatus ==> n == mapIndexingStatus[id].currentNbIndexedObj
      ensures id !in mapIndexingStatus ==> n == 0
    {
      n := if id in mapIndexingStatus then mapIndexingStatus[id].currentNbIndexedObj else 0;
    }

    /**
     * Sets the total of the status registered for `id`. Nothing happens for
     * an unregistered id. Another id sees the change only when it is
     * registered with the very same status object.
     */
    method SetnNbTotalObj(n: int, id: string)
      modifies if id in mapIndexingStatus then {mapIndexingStatus[id]} else {}
      ensures mapIndexingStatus == old(mapIndexingStatus)
      ensures id in mapIndexingStatus ==> mapIndexingStatus[id].nbTotalObj == n
      ensures forall k :: k in mapIndexingStatus ==>
        mapIndexingStatus[k].currentNbIndexedObj == old(mapIndexingStatus[k].currentNbIndexedObj)
      ensures forall k :: k in mapIndexingStatus && (id !in mapIndexingStatus || mapIndexingStatus[k] != mapIndexingStatus[id]) ==>
        mapIndexingStatus[k].nbTotalObj == old(mapIndexingStatus[k].nbTotalObj)
    {
      if id in mapIndexingStatus {
        mapIndexingStatus[id].SetnNbTotalObj(n);
      }
    }

    /**
     * Sets the progress counter of the status registered for `id`; the same
     * rules as SetnNbTotalObj apply.
     */
    method SetCurrentNbIndexedObj(n: int, id: string)
      modifies if id in mapIndexingStatus then {mapIndexingStatus[id]} else {}
      ensures mapIndexingStatus == old(mapIndexingStatus)
      ensures id in mapIndexingStatus ==> mapIndexingStatus[id].currentNbIndexedObj == n
      ensures forall k :: k in mapIndexingStatus ==>
        mapIndexingStatus[k].nbTotalObj == old(mapIndexingStatus[k].nbTotalObj)
      ensures forall k :: k in mapIndexingStatus && (id !in mapIndexingStatus || mapIndexingStatus[k] != mapIndexingStatus[id]) ==>
        mapIndexingStatus[k].currentNbIndexedObj == old(mapIndexingStatus[k].currentNbIndexedObj)
    {
      if id in mapIndexingStatus {
        mapIndexingStatus[id].SetCurrentNbIndexedObj(n);
      }
    }
  }

  /**
   * What a caller of the registry can rely on: a registration is read back,
   * a second registration wins, a removal forgets the id, absent ids read 0
   * and ignore setters, and a setter is read back by its getter.
   */
  method RegistryUsage(s1: IndexingStatus, s2: IndexingStatus)
    requires s1 != s2
    modifies s1, s2
  {
    var registry := new IndexingStatusService();
    var n := registry.GetNbTotalObj("a");
    assert n == 0;
    registry.SetnNbTotalObj(7, "a");
    var got := registry.GetIndexingStatus("a");
    assert got == null;

    registry.RegisterIndexingStatus("a", s1);
    registry.RegisterIndexingStatus("b", s2);
    got := registry.GetIndexingStatus("a");
    assert got == s1;
    registry.RegisterIndexingStatus("a", s2);
    got := registry.GetIndexingStatus("a");
    assert got == s2;
    registry.RegisterIndexingStatus("a", s1);

    var before := registry.GetCurrentNbIndexedObj("b");
    registry.SetnNbTotalObj(42, "a");
    registry.SetCurrentNbIndexedObj(5, "a");
    n := registry.GetNbTotalObj("a");
    assert n == 42;
    n := registry.GetCurrentNbIndexedObj("a");
    assert n == 5;
    n := registry.GetCurrentNbIndexedObj("b");
    assert n == before;

    registry.RemoveIndexingStatus("a", s2);
    got := registry.GetIndexingStatus("a");
    assert got == null;
    got := registry.GetIndexingStatus("b");
    assert got == s2;
  }
}
