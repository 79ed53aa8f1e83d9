/** The `PostmanCollection` object of `lib/index.js`: its document `this.doc`
    is an object whose fields are assigned once and whose two arrays grow. */
module Builder {
  import opened JsValues
  import opened Records

  /** The mutable document object `this.doc`. */
  class Doc {
    var id: Id
    var name: Value
    var description: Value
    var order: seq<Id>
    var folders: seq<Value>
    var timestamp: Value
    var synced: Value
    var requests: seq<Request>

    /** The document's current content as a value. */
    function Snapshot(): Document
      reads this
    {
      Document(id, name, description, order, folders, timestamp, synced, requests)
    }

    /** The object literal: a new object holding the given content. */
    constructor (d: Document)
      ensures Snapshot() == d
    {
      id := d.id;
      name := d.name;
      description := d.description;
      order := d.order;
      folders := d.folders;
      timestamp := d.timestamp;
      synced := d.synced;
      requests := d.requests;
    }
  }

  class PostmanCollection {
    const doc: Doc

    /** `order` lists the ids of `requests`, every request points back at the
        document, and no id is used twice. */
    ghost predicate Valid()
      reads this, doc
    {
      Consistent(doc.Snapshot()) && UniqueIds(doc.Snapshot())
    }

    /** `new PostmanCollection(data)`; `id` and `now` stand for the fresh
        unique id and the current time the constructor obtains. */
    constructor (data: CollectionInput, id: Id, now: int)
      ensures fresh(doc) && Valid()
      ensures doc.Snapshot() == NewDocument(data, id, now)
      ensures doc.id == id && doc.order == [] && doc.folders == [] && doc.requests == []
    {
      NewDocumentValid(data, id, now);
      doc := new Doc(NewDocument(data, id, now));
    }

    /** `addRequest(data)`; `id` and `now` stand for the fresh unique id and
        the current time it obtains, so `id` is new to the document. */
    method AddRequest(data: RequestInput, id: Id, now: int)
      requires Valid()
      requires id != doc.id && id !in doc.order
      modifies doc`requests, doc`order
      ensures Valid()
      ensures doc.Snapshot() == AddRequestTo(old(doc.Snapshot()), data, id, now)
      ensures doc.requests == old(doc.requests) + [BuildRequest(data, id, doc.id, now)]
      ensures doc.order == old(doc.order) + [id]
      ensures unchanged(doc`id, doc`name, doc`description, doc`folders, doc`timestamp, doc`synced)
    {
      var tmp := BuildRequest(data, id, doc.id, now);
      AddRequestConsistent(doc.Snapshot(), data, id, now);
      AddRequestUnique(doc.Snapshot(), data, id, now);
      doc.requests := doc.requests + [tmp];
      doc.order := doc.order + [tmp.id];
    }
  }
}

/** What a caller can conclude from the contracts alone: two requests added to
    a fresh collection, one of them with a method the code does not validate. */
module BuilderClient {
  import opened JsValues
  import opened Records
  import opened Builder

  method TwoRequests(docId: Id, id1: Id, id2: Id, now: int)
    requires docId != id1 && docId != id2 && id1 != id2
  {
    var none := CollectionInput(Undefined, Undefined, Undefined, Undefined);
    var pc := new PostmanCollection(none, docId, now);
    assert pc.doc.name == Str(DefaultCollectionName) && pc.doc.synced == Bool(false);

    var first := RequestInput(Str("my-request"), Undefined, Str("GET"), Undefined, Undefined,
      Undefined, Undefined, Undefined, Undefined, Str("7"), Undefined, Undefined, Undefined, Undefined);
    pc.AddRequest(first, id1, now);
    var r1 := pc.doc.requests[0];
    assert r1.name == Str("my-request") && r1.version == RequestVersion;

    var second := first.(name := Undefined, httpMethod := Str("FOO"));
    pc.AddRequest(second, id2, now);
    var r2 := pc.doc.requests[1];
    assert pc.doc.requests[0] == r1;
    assert pc.doc.order == [id1, id2];
    assert r2.httpMethod == Str("FOO") && r2.name == Str(DefaultRequestName);
    assert r2.collectionId == docId && pc.doc.folders == [];
  }
}
