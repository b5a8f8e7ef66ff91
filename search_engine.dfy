/**
 * The search-engine client the incremental workers post to. Its network
 * behaviour is abstract: call number c of the client fails, with an
 * ElasticClientException, exactly when `fails(c)`; a successful call is
 * recorded in `posted`.
 */
module SearchEngines {
  import opened Common

  /** The requests the workers send. */
  datatype Request =
    | Bulk(index: string, docs: seq<DataObject>)
    | PartialUpdate(index: string, docId: string, doc: DataObject)
    | DeleteByQuery(index: string, docIds: seq<string>)

  class SearchEngine {
    const fails: nat -> bool
    var calls: nat
    var posted: seq<Request>

    constructor (fails: nat -> bool)
      ensures this.fails == fails && calls == 0 && posted == []
    {
      this.fails := fails;
      calls, posted := 0, [];
    }

    /** One call: it fails or it is recorded, and either way it is counted. */
    method Send(r: Request) returns (ok: bool)
      modifies this
      ensures ok == !fails(old(calls))
      ensures calls == old(calls) + 1
      ensures posted == if ok then old(posted) + [r] else old(posted)
    {
      ok := !fails(calls);
      if ok {
        posted := posted + [r];
      }
      calls := calls + 1;
    }

    /** createByBulk(index, bulk request) */
    method CreateByBulk(index: string, docs: seq<DataObject>) returns (ok: bool)
      modifies this
      ensures ok == !fails(old(calls))
      ensures calls == old(calls) + 1
      ensures posted == if ok then old(posted) + [Bulk(index, docs)] else old(posted)
    {
      ok := Send(Bulk(index, docs));
    }

    /** partialUpdate(index, document id, object) */
    method PartialUpdateDoc(index: string, docId: string, doc: DataObject) returns (ok: bool)
      modifies this
      ensures ok == !fails(old(calls))
      ensures calls == old(calls) + 1
      ensures posted == if ok then old(posted) + [PartialUpdate(index, docId, doc)] else old(posted)
    {
      ok := Send(PartialUpdate(index, docId, doc));
    }

    /** deleteByQuery(index, terms query on the document ids) */
    method DeleteByQueryDocs(index: string, docIds: seq<string>) returns (ok: bool)
      modifies this
      ensures ok == !fails(old(calls))
      ensures calls == old(calls) + 1
      ensures posted == if ok then old(posted) + [DeleteByQuery(index, docIds)] else old(posted)
    {
      ok := Send(DeleteByQuery(index, docIds));
    }
  }
}
