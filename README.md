# PostmanCollection document builder, modelled in Dafny

`lib/index.js` defines `PostmanCollection`, a builder for a Postman collection
document. The constructor allocates the document object `this.doc`: a fresh
unique id, a `name`, `description`, `timestamp` and `synced` flag, and empty
`order`, `folders` and `requests` arrays. Each field takes the caller's value
when that value is truthy and a fixed default otherwise, except `timestamp`,
which falls back to the current time. `addRequest(data)`
builds a request record in the same default-filling way. It stamps the record
with the constant version `'2'` and with the document's id as `collectionId`.
It then pushes the record onto `doc.requests` and its id onto `doc.order`.

The model has four modules:

- `JsValues` (`js_values.dfy`): the loosely typed JavaScript values that can
  arrive in an input field, JavaScript truthiness (`Truthy`) and the operator
  `a || b` (`Or`).
- `Records` (`records.dfy`): the inputs, the request record and the document
  as values. It holds the pure builders `NewDocument`, `BuildRequest` and
  `AddRequestTo`, the invariants `Consistent` and `UniqueIds`, and the lemmas
  about single calls and about any sequence of calls (`AddRequests`).
- `Builder` (`builder.dfy`): the objects. `Doc` is the mutable document
  object. `PostmanCollection`'s constructor allocates a new `Doc`, and
  `AddRequest` updates its `requests` and `order` fields in place.
- `BuilderClient` (`builder.dfy`): `TwoRequests` shows what a caller can
  conclude from the contracts alone.

The fresh id from `uuid.v1()` and the current time from `Date.now()` are
parameters (`id`, `now`). `AddRequest` requires its `id` to be new to the
document. That requirement stands for the uniqueness that the id generator
guarantees. The pure functions do not require it. The lemmas about unique ids
take it as a hypothesis instead.

The record field `method` is called `httpMethod` in the model, because
`method` is a Dafny keyword.

A missing or falsy method defaults to lower-case `'get'` (lib/index.js:32).

Where the repository's tests expect more than the code does, the model
follows the code:

- A truthy but unknown method such as `'FOO'` is stored as given. The test at
  test/test.index.js:147 expects `'GET'` for it.
- There is no `isMethodValid`, `folderExists` or `addFolder`. There is no
  second `addRequest` argument that routes a request into a folder. There is
  no seeding from `folders`/`requests` arrays in the constructor and no
  serialisation. So `folders` stays empty for the document's whole life.

## Model

| member | source | states |
|---|---|---|
| `Records.NewDocument` | lib/index.js:9-21 | The new document carries the given id and starts with empty `order`, `folders` and `requests`. Each of `name`, `description`, `timestamp` and `synced` is the input when that is truthy. Otherwise it is `'postman-collection-generator'`, `'no description available'`, the current time and `false` respectively. So the name and description are always truthy. |
| `Records.NewDocumentValid` | lib/index.js:11-20 | A freshly constructed document satisfies both invariants: `order` equals the ids of `requests`, and no id repeats. |
| `Records.BuildRequest` | lib/index.js:28-45 | The record has the given id and `collectionId`, and version `'2'` whatever the input's version. Every other field is the input when that is truthy. Otherwise: `name` 'unknown', `description` 'not available', `method` 'get'; `url`, `headers`, `preRequestScript`, `dataMode`, `tests` ''; `pathVariables` {}; `data`, `responses` []; `synced` false; `time` now. The method is not validated. |
| `Records.TruthyInputPassesThrough` | lib/index.js:30-44 | If every field of the input is truthy, the stored record reads back as exactly that input, except that the version becomes '2'. This covers an unknown method such as 'FOO'. |
| `Records.RebuildIsIdentity` | lib/index.js:28-45 | Filling defaults is idempotent. Take a stored record, feed it back as input with the same id, owner and time, and the result is the same record. |
| `Records.AddRequestTo` | lib/index.js:27-50 | After `addRequest`, `requests` is one longer. Its earlier entries are unchanged and its last entry is the built record, pointing at the document's id. The new id is appended to `order`. `id`, `name`, `description`, `folders`, `timestamp` and `synced` are unchanged. |
| `Records.AddRequestConsistent` | lib/index.js:47-49 | `addRequest` preserves two facts: `order` is exactly the ids of `requests`, in the same order; and every request's `collectionId` is the document's id. |
| `Records.AddRequestUnique` | lib/index.js:29-49 | Starting from a document without repeated ids, `addRequest` keeps ids unique if and only if the new id is neither the document's id nor already in `order`. |
| `Records.AddRequestsShape` | lib/index.js:27-50 | After any sequence of `addRequest` calls, the document's own fields and `folders` are unchanged. The earlier requests are untouched. The k-th call's record follows them at position k. `order` has grown by the calls' ids, in call order. |
| `Records.AddRequestsOrder` | lib/index.js:49 | A step of `AddRequestsShape`, proved first so that the uniqueness lemma can use it alone: after any sequence of `addRequest` calls, `order` is the old `order` followed by the calls' ids, in call order, and the document id is unchanged. |
| `Records.AddRequestsConsistent` | lib/index.js:47-49 | Any sequence of `addRequest` calls keeps `order` equal to the ids of `requests`, with every request pointing back at the document. |
| `Records.AddRequestsUnique` | lib/index.js:29-49 | Suppose the supplied ids differ from each other, from the document's id and from the ids already in `order`. Then after any sequence of `addRequest` calls, `order` holds no duplicates. |
| `Builder.Doc.constructor` | lib/index.js:11-20 | The object literal assigned to `this.doc`: a new object whose fields hold the given document. |
| `Builder.PostmanCollection.constructor` | lib/index.js:9-21 | `new PostmanCollection(data)` allocates a fresh `doc` holding `NewDocument(data, id, now)`, with empty `order`, `folders` and `requests`, and establishes the object invariant. |
| `Builder.PostmanCollection.AddRequest` | lib/index.js:27-50 | Changes only `doc.requests` and `doc.order`. It appends the record built from the input to `doc.requests` and its id to `doc.order`, which is `AddRequestTo` of the old document. `doc.id`, `name`, `description`, `folders`, `timestamp` and `synced` are unchanged, and the object invariant is kept. |

## Left out

- `uuid.v1()` from `node-uuid` is a call into a library: its result is the parameter `id`.
- `Builder.PostmanCollection.AddRequest`: requires `id` to be new to the document. This stands for the uniqueness `uuid.v1()` guarantees; the code itself checks nothing.
- `Date.now()` reads the clock: its result is the parameter `now`.
- JavaScript numbers are integers here. Floating point, `NaN`, `-0`, BigInts (`0n`), symbols and function values are not modelled. `NaN`, `-0` and `0n` are falsy, and `||` would replace them like `0`.
- Field values are copied into the model as immutable values. In JavaScript the stored record keeps the caller's own objects and arrays (`pathVariables`, `data`, `responses` and any other object-valued field), so a later change to them by the caller shows in `doc.requests`, and two calls with the same input object share them. Likewise anyone holding `doc.requests` or `doc.order` sees each push. This sharing is not modelled: "earlier entries are unchanged" means unchanged by the builder.
- Calling `new PostmanCollection()` or `addRequest()` without an argument throws in JavaScript, because the code reads `data.name`. The model always passes an argument. An absent key is `Undefined`, and keys the code does not read are dropped (except `version`, kept so the model can state that it is ignored).
- A primitive passed as `data`, property getters and prototype lookups on `data` are not modelled.
- `addRequest` returns `undefined`, so `AddRequest` has no result.
- Outside code can reassign fields of `doc` directly. The object invariant covers only changes made through `AddRequest`.
- Behaviour that the tests expect but `lib/index.js` does not implement is not modelled, because the code does not have it: `isMethodValid`, coercing methods to `'GET'`, folder routing, `folderExists`, `addFolder`, seeding from arrays, and serialisation.
