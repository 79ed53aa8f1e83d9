/** The records that `lib/index.js` builds — the collection document and the
    request record — as values, together with the pure operations that build
    and extend them and the facts proved about those operations. */
module Records {
  import opened JsValues

  /** An identifier returned by the time-based unique-id generator. */
  type Id = string

  /** The fields of the constructor's argument that it reads; an absent key is `Undefined`. */
  datatype CollectionInput = CollectionInput(
    name: Value,
    description: Value,
    timestamp: Value,
    synced: Value)

  /** The fields of `addRequest`'s argument; `version` is read by nobody and is
      here so that the model can say the record ignores it. */
  datatype RequestInput = RequestInput(
    name: Value,
    description: Value,
    httpMethod: Value,
    url: Value,
    headers: Value,
    pathVariables: Value,
    preRequestScript: Value,
    data: Value,
    dataMode: Value,
    version: Value,
    tests: Value,
    responses: Value,
    synced: Value,
    time: Value)

  /** A request record as stored in the document's `requests`. */
  datatype Request = Request(
    id: Id,
    name: Value,
    description: Value,
    httpMethod: Value,
    url: Value,
    headers: Value,
    pathVariables: Value,
    preRequestScript: Value,
    data: Value,
    dataMode: Value,
    version: string,
    tests: Value,
    responses: Value,
    synced: Value,
    collectionId: Id,
    time: Value)

  /** The collection document (`this.doc`) as a value. */
  datatype Document = Document(
    id: Id,
    name: Value,
    description: Value,
    order: seq<Id>,
    folders: seq<Value>,
    timestamp: Value,
    synced: Value,
    requests: seq<Request>)

  const DefaultCollectionName := "postman-collection-generator"
  const DefaultCollectionDescription := "no description available"
  const DefaultRequestName := "unknown"
  const DefaultRequestDescription := "not available"
  const DefaultMethod := "get"
  /** The version stamped on every request, whatever the input says. */
  const RequestVersion := "2"

  /** The document the constructor allocates, given the fresh id and the
      current time (milliseconds) that it would obtain itself. */
  function NewDocument(data: CollectionInput, id: Id, now: int): (d: Document)
    ensures d.id == id
    ensures d.order == [] && d.folders == [] && d.requests == []
    ensures DefaultedFrom(data.name, d.name, Str(DefaultCollectionName))
    ensures DefaultedFrom(data.description, d.description, Str(DefaultCollectionDescription))
    ensures DefaultedFrom(data.timestamp, d.timestamp, Num(now))
    ensures DefaultedFrom(data.synced, d.synced, Bool(false))
    ensures Truthy(d.name) && Truthy(d.description)
  {
    Document(
      id,
      Or(data.name, Str(DefaultCollectionName)),
      Or(data.description, Str(DefaultCollectionDescription)),
      [],
      [],
      Or(data.timestamp, Num(now)),
      Or(data.synced, Bool(false)),
      [])
  }

  /** The record `addRequest` builds, given its fresh id, the owning
      document's id and the current time. */
  function BuildRequest(data: RequestInput, id: Id, collectionId: Id, now: int): (r: Request)
    ensures r.id == id && r.collectionId == collectionId
    ensures r.version == RequestVersion
    ensures DefaultedFrom(data.name, r.name, Str(DefaultRequestName))
    ensures DefaultedFrom(data.description, r.description, Str(DefaultRequestDescription))
    ensures DefaultedFrom(data.httpMethod, r.httpMethod, Str(DefaultMethod))
    ensures DefaultedFrom(data.url, r.url, Str(""))
    ensures DefaultedFrom(data.headers, r.headers, Str(""))
    ensures DefaultedFrom(data.pathVariables, r.pathVariables, Obj(map[]))
    ensures DefaultedFrom(data.preRequestScript, r.preRequestScript, Str(""))
    ensures DefaultedFrom(data.data, r.data, Arr([]))
    ensures DefaultedFrom(data.dataMode, r.dataMode, Str(""))
    ensures DefaultedFrom(data.tests, r.tests, Str(""))
    ensures DefaultedFrom(data.responses, r.responses, Arr([]))
    ensures DefaultedFrom(data.synced, r.synced, Bool(false))
    ensures DefaultedFrom(data.time, r.time, Num(now))
    ensures Truthy(r.name) && Truthy(r.description) && Truthy(r.httpMethod)
    ensures Truthy(r.pathVariables) && Truthy(r.data) && Truthy(r.responses)
  {
    Request(
      id,
      Or(data.name, Str(DefaultRequestName)),
      Or(data.description, Str(DefaultRequestDescription)),
      Or(data.httpMethod, Str(DefaultMethod)),
      Or(data.url, Str("")),
      Or(data.headers, Str("")),
      Or(data.pathVariables, Obj(map[])),
      Or(data.preRequestScript, Str("")),
      Or(data.data, Arr([])),
      Or(data.dataMode, Str("")),
      RequestVersion,
      Or(data.tests, Str("")),
      Or(data.responses, Arr([])),
      Or(data.synced, Bool(false)),
      collectionId,
      Or(data.time, Num(now)))
  }

  /** A stored record read back as an input (what re-importing it would pass). */
  function InputOf(r: Request): RequestInput {
    RequestInput(
      r.name, r.description, r.httpMethod, r.url, r.headers, r.pathVariables,
      r.preRequestScript, r.data, r.dataMode, Str(r.version), r.tests,
      r.responses, r.synced, r.time)
  }

  /** Every field `addRequest` fills by `||` is truthy in the input. */
  predicate AllTruthy(data: RequestInput) {
    Truthy(data.name) && Truthy(data.description) && Truthy(data.httpMethod) &&
    Truthy(data.url) && Truthy(data.headers) && Truthy(data.pathVariables) &&
    Truthy(data.preRequestScript) && Truthy(data.data) && Truthy(data.dataMode) &&
    Truthy(data.tests) && Truthy(data.responses) && Truthy(data.synced) &&
    Truthy(data.time)
  }

  /** The document after `addRequest`: the record appended to `requests` and
      its id appended to `order`; nothing else changes. */
  function AddRequestTo(d: Document, data: RequestInput, id: Id, now: int): (e: Document)
    ensures |e.requests| == |d.requests| + 1
    ensures e.requests[..|d.requests|] == d.requests
    ensures e.requests[|d.requests|] == BuildRequest(data, id, d.id, now)
    ensures e.order == d.order + [id]
    ensures e.id == d.id && e.name == d.name && e.description == d.description
    ensures e.folders == d.folders && e.timestamp == d.timestamp && e.synced == d.synced
  {
    var r := BuildRequest(data, id, d.id, now);
    d.(requests := d.requests + [r], order := d.order + [r.id])
  }

  /** The ids of a sequence of request records, in order. */
  function Ids(rs: seq<Request>): (ids: seq<Id>)
    ensures |ids| == |rs|
    ensures forall i :: 0 <= i < |rs| ==> ids[i] == rs[i].id
  {
    if rs == [] then [] else Ids(rs[..|rs| - 1]) + [rs[|rs| - 1].id]
  }

  predicate NoDuplicates(s: seq<Id>) {
    forall i, j :: 0 <= i < j < |s| ==> s[i] != s[j]
  }

  /** The document's indices agree with its storage: `order` lists exactly
      the ids of `requests` in the same order, and every request points back
      to this document. */
  predicate Consistent(d: Document) {
    d.order == Ids(d.requests) &&
    forall i :: 0 <= i < |d.requests| ==> d.requests[i].collectionId == d.id
  }

  /** No id is used twice: not within `order`, and not as the document's own id. */
  predicate UniqueIds(d: Document) {
    NoDuplicates(d.order) && d.id !in d.order
  }

  /** A fresh document is consistent and has no duplicate ids. */
  lemma NewDocumentValid(data: CollectionInput, id: Id, now: int)
    ensures Consistent(NewDocument(data, id, now)) && UniqueIds(NewDocument(data, id, now))
  {
  }

  /** Appending one request keeps `order` equal to the ids of `requests` and
      keeps every request pointing at the document. */
  lemma AddRequestConsistent(d: Document, data: RequestInput, id: Id, now: int)
    requires Consistent(d)
    ensures Consistent(AddRequestTo(d, data, id, now))
  {
  }

  /** With an id unused so far, appending keeps every id unique; with a used
      one it does not. */
  lemma AddRequestUnique(d: Document, data: RequestInput, id: Id, now: int)
    requires UniqueIds(d)
    ensures UniqueIds(AddRequestTo(d, data, id, now)) <==> id != d.id && id !in d.order
  {
    var e := AddRequestTo(d, data, id, now);
    if id in d.order {
      var k :| 0 <= k < |d.order| && d.order[k] == id;
      assert e.order[k] == e.order[|d.order|];
    }
  }

  /** One call of `addRequest`: its argument and the id and time it obtains. */
  datatype Call = Call(data: RequestInput, id: Id, now: int)

  /** The ids the calls obtain, in call order. */
  function CallIds(calls: seq<Call>): seq<Id> {
    seq(|calls|, i requires 0 <= i < |calls| => calls[i].id)
  }

  /** The document after the given `addRequest` calls, in order. */
  function AddRequests(d: Document, calls: seq<Call>): Document {
    if calls == [] then d
    else
      var c := calls[|calls| - 1];
      AddRequestTo(AddRequests(d, calls[..|calls| - 1]), c.data, c.id, c.now)
  }

  /** After any sequence of calls: the document's own fields and `folders` are
      as before, earlier requests are untouched, the k-th call's record sits
      right after them, and `order` grew by the calls' ids in call order. */
  lemma {:induction false} AddRequestsShape(d: Document, calls: seq<Call>)
    ensures AddRequests(d, calls).id == d.id
    ensures AddRequests(d, calls).name == d.name
    ensures AddRequests(d, calls).description == d.description
    ensures AddRequests(d, calls).timestamp == d.timestamp
    ensures AddRequests(d, calls).synced == d.synced
    ensures AddRequests(d, calls).folders == d.folders
    ensures AddRequests(d, calls).order == d.order + CallIds(calls)
    ensures |AddRequests(d, calls).requests| == |d.requests| + |calls|
    ensures AddRequests(d, calls).requests[..|d.requests|] == d.requests
    ensures forall k :: 0 <= k < |calls| ==>
      AddRequests(d, calls).requests[|d.requests| + k] ==
      BuildRequest(calls[k].data, calls[k].id, d.id, calls[k].now)
  {
    if calls != [] {
      var init := calls[..|calls| - 1];
      var c := calls[|calls| - 1];
      AddRequestsShape(d, init);
      AddRequestsOrder(d, calls);
      var p := AddRequests(d, init);
      var e := AddRequests(d, calls);
      assert e == AddRequestTo(p, c.data, c.id, c.now);
      assert e.requests[..|p.requests|] == p.requests;
      forall k | 0 <= k < |calls|
        ensures e.requests[|d.requests| + k] == BuildRequest(calls[k].data, calls[k].id, d.id, calls[k].now)
      {
        if k < |init| {
          assert e.requests[|d.requests| + k] == p.requests[|d.requests| + k];
          assert calls[k] == init[k];
        }
      }
    }
  }

  /** Consistency survives any sequence of `addRequest` calls. */
  lemma {:induction false} AddRequestsConsistent(d: Document, calls: seq<Call>)
    requires Consistent(d)
    ensures Consistent(AddRequests(d, calls))
  {
    if calls != [] {
      var c := calls[|calls| - 1];
      AddRequestsConsistent(d, calls[..|calls| - 1]);
      AddRequestConsistent(AddRequests(d, calls[..|calls| - 1]), c.data, c.id, c.now);
    }
  }

  /** After any sequence of calls `order` is the old `order` followed by the
      calls' ids, and the document's id is unchanged. */
  lemma {:induction false} AddRequestsOrder(d: Document, calls: seq<Call>)
    ensures AddRequests(d, calls).order == d.order + CallIds(calls)
    ensures AddRequests(d, calls).id == d.id
  {
    if calls != [] {
      var init := calls[..|calls| - 1];
      AddRequestsOrder(d, init);
      assert CallIds(calls) == CallIds(init) + [calls[|calls| - 1].id];
    }
  }

  /** Two duplicate-free sequences with no common element concatenate to a
      duplicate-free sequence. */
  lemma NoDuplicatesConcat(a: seq<Id>, b: seq<Id>)
    requires NoDuplicates(a) && NoDuplicates(b)
    requires forall k :: 0 <= k < |b| ==> b[k] !in a
    ensures NoDuplicates(a + b)
  {
  }

  /** If the id generator hands out ids distinct from each other and from every
      id already in the document, `order` never holds an id twice. */
  lemma AddRequestsUnique(d: Document, calls: seq<Call>)
    requires UniqueIds(d)
    requires NoDuplicates(CallIds(calls))
    requires forall k :: 0 <= k < |calls| ==> calls[k].id != d.id && calls[k].id !in d.order
    ensures UniqueIds(AddRequests(d, calls))
  {
    AddRequestsOrder(d, calls);
    var ids := CallIds(calls);
    NoDuplicatesConcat(d.order, ids);
  }

  /** Filling defaults is idempotent: a stored record, read back as input and
      built again with the same id, owner and time, is the same record. */
  lemma RebuildIsIdentity(data: RequestInput, id: Id, collectionId: Id, now: int)
    ensures var r := BuildRequest(data, id, collectionId, now);
      BuildRequest(InputOf(r), id, collectionId, now) == r
  {
  }

  /** An input whose fields are all truthy is stored unchanged, except that
      its version is replaced by the constant one; in particular an unknown
      method such as 'FOO' is kept as given. */
  lemma TruthyInputPassesThrough(data: RequestInput, id: Id, collectionId: Id, now: int)
    requires AllTruthy(data)
    ensures InputOf(BuildRequest(data, id, collectionId, now)) == data.(version := Str(RequestVersion))
  {
  }
}
