# Reference loader, modelled in Dafny

The project models the `referenceLoader` Mongoose plugin (`lib/referenceLoader.js`).
The plugin links a document of an owning model (a `Post`) to one document of a
related model (its `Author`). It keeps two pieces of per-document state consistent:

- the persisted foreign-key field `idKey` (`authorId`);
- the private, non-persisted cache slot `'_' + virtualKey` (`_author`).

It offers three operations:

- the virtual getter, which returns the cached document or throws "not loaded yet";
- the virtual setter, which checks the value's type, then checks it against the id already set, then writes the id and the cache;
- the callback loader `get<modelName>` (`getAuthor`), which answers from the cache without touching storage, or else makes one `findOne` lookup by id and caches a match.

Files:

- `wrappers.dfy` (module `Wrappers`): `Option`, `Result` and `Outcome`.
- `reference_loader.dfy` (module `ReferenceLoader`):
  - the option check `Configure`, a loop over the required keys as in the source;
  - the five error messages, built exactly as the source builds them;
  - the two slots as a value `Slots(id, cache)`, with one function per operation (`Read`, `SetStep`, `LoadStep`) stating what the operation promises;
  - the class `OwningDoc`, whose fields `id` and `cache` the methods `Get`, `Set` and `Load` update in place. Each method is proved against its function. A ghost log `Lookups` records every storage lookup the loader issues (criteria and answer), so contracts can say how many lookups happened and with what `_id`.
- `lifecycle.dfy` (module `Lifecycle`): runs an arbitrary sequence of setter and loader calls on one document (`Run`) and proves by induction:
  - the cache slot is never cleared;
  - the identity invariant survives when storage is honest;
  - every lookup asks for the document's initial id;
  - at most one lookup ever finds the document.
- `scenarios.dfy` (module `Scenarios`): one client method per case of `test/referenceLoader.test.js`, and three more for a missing option, the getter before loading and a retried load, each checked against the contracts alone; the two messages the tests compare verbatim (test lines 51 and 92), and the getter's message for the Author model.

Collaborators become parameters:

- `mongoose.model(modelName)` and `instanceof` become a model name carried by each `Document`, matched against the binding's `modelName` (`IsInstance`).
- `Model.findOne` becomes a function `findOne: Option<ObjectId> -> LookupResult` passed to `Load`. Its answer is an error, no match, or a match. "Storage honours the criteria" is the predicate `HonoursCriteria`. It also takes honest storage to answer a lookup with `_id: undefined` (criteria `None`) with no match or an error. Mongoose may instead treat `{ _id: undefined }` as `{}` and return any document; `UnsetIdMatchBreaksConsistency` shows what the loader then caches.
- A related document is a `class Document` with a constant model name and `_id`. Because it is a reference, "the getter returns the very object that was assigned", and the test's `_testCached` check in the same spirit, are both reference equality.

## Model

| member | source | states |
|---|---|---|
| `ReferenceLoader.Configure` | lib/referenceLoader.js:12-20 | The factory fails with "Missing required option: <key>" for the first of idKey, virtualKey, modelName that is undefined, in that order. Otherwise it yields the binding, with cache key `'_' + virtualKey`. |
| `ReferenceLoader.Read` | lib/referenceLoader.js:26-32 | The getter succeeds exactly when the cache slot is filled, and then returns the cached document. Otherwise it fails with "<modelName> has not been loaded yet. Use get<modelName>() instead." |
| `ReferenceLoader.ReadIgnoresId` | lib/referenceLoader.js:27-32 | The getter's answer does not depend on the id field. |
| `ReferenceLoader.SetStep` | lib/referenceLoader.js:34-51 | A non-instance is rejected with '"<virtualKey>" must be a <modelName> model'. This type check comes before the id check. An instance whose id conflicts with a set id field is rejected with '<modelName> must be the same as identified by the "<idKey>" attribute'. Success holds exactly when the value is an instance and the id is unset or equal. Failure leaves both slots unchanged. Success sets id to `val._id` and cache to `val`, so the getter then returns `val` and the identity invariant holds. |
| `ReferenceLoader.LoadStep` | lib/referenceLoader.js:55-71 | With a filled cache, the loader returns the cached document, issues no lookup and changes nothing. With an empty cache it issues exactly one lookup, with criteria equal to the id field. A storage error is passed through unchanged. No match gives "<modelName> not found". In both failure cases the state is unchanged and the cache still empty. A match is cached and returned. The id field is never changed. The identity invariant is preserved when storage honours the criteria. |
| `ReferenceLoader.LoadIsMemoized` | lib/referenceLoader.js:57-67 | After a successful load, a second load with any storage returns the same document with no lookup and no state change. |
| `ReferenceLoader.FailedLoadRetries` | lib/referenceLoader.js:62-64 | After a failed load, a retry issues one new lookup, with the same id. Failures are not cached. |
| `ReferenceLoader.UncheckedMatchBreaksConsistency` | lib/referenceLoader.js:62-67 | The loader does not check the returned document's `_id`. A storage answer with another `_id` leaves the cache naming a document other than the id field's. The invariant therefore rests on storage honouring the criteria. |
| `ReferenceLoader.HonestStorageFindsNothingForUnsetId` | lib/referenceLoader.js:62 | Storage that honours its criteria never finds a document for `_id: undefined`; the invariant lemmas rest on this for a document whose id is unset. |
| `ReferenceLoader.UnsetIdMatchBreaksConsistency` | lib/referenceLoader.js:57-67 | With the id field unset, the loader still issues the lookup with criteria `None` and caches whatever document comes back, so the cache then holds a document the id field does not name. |
| `ReferenceLoader.MissingOptionError` | lib/referenceLoader.js:14 | Builds "Missing required option: " followed by the key. |
| `ReferenceLoader.NotLoadedError` | lib/referenceLoader.js:28 | Builds "<modelName> has not been loaded yet. Use get<modelName>() instead." |
| `ReferenceLoader.NotAModelError` | lib/referenceLoader.js:39 | Builds '"<virtualKey>" must be a <modelName> model'. |
| `ReferenceLoader.IdMismatchError` | lib/referenceLoader.js:43 | Builds '<modelName> must be the same as identified by the "<idKey>" attribute'. |
| `ReferenceLoader.NotFoundError` | lib/referenceLoader.js:64 | Builds "<modelName> not found". |
| `ReferenceLoader.OptionValue` | lib/referenceLoader.js:13 | `options[key]` for the three option names; any other key is undefined. |
| `ReferenceLoader.IsInstance` | lib/referenceLoader.js:35-38 | `val instanceof mongoose.model(modelName)`: the value is a document of the binding's model. |
| `ReferenceLoader.OwningDoc.constructor` | lib/referenceLoader.js:27 | A new owning document has the given id field and an empty cache slot, and has issued no lookup. |
| `ReferenceLoader.OwningDoc.Get` | lib/referenceLoader.js:26-32 | Reading the virtual on a document returns what `Read` gives for its fields, and changes nothing. |
| `ReferenceLoader.OwningDoc.Set` | lib/referenceLoader.js:34-51 | Assigning the virtual writes the id and cache fields exactly as `SetStep` prescribes, and nothing else. |
| `ReferenceLoader.OwningDoc.Load` | lib/referenceLoader.js:55-71 | Calling the loader returns `LoadStep`'s result and leaves the fields as `LoadStep` prescribes. The lookup log grows by exactly the lookups `LoadStep` issues: none on the fast path, one on a miss. Given honest storage, a consistent document stays consistent. |
| `Lifecycle.CachedStaysCached` | lib/referenceLoader.js:47-67 | Once the cache slot is filled, no sequence of setter and loader calls empties it, and none issues a lookup. |
| `Lifecycle.ConsistentThroughout` | lib/referenceLoader.js:42-67 | From a consistent state, any sequence of calls whose lookups honour their criteria ends in a state where a cached document's `_id` equals the id field. |
| `Lifecycle.LookupsUseInitialId` | lib/referenceLoader.js:47-62 | Every lookup in any call sequence asks for the id the document started with. |
| `Lifecycle.OnlyLastLookupMatches` | lib/referenceLoader.js:57-69 | In any call sequence, no lookup except the last one finds the document. |
| `Lifecycle.FetchedAtMostOnce` | lib/referenceLoader.js:57-67 | In any call sequence, at most one lookup finds the related document. If the cache starts filled, none does. |
| `Scenarios.PostAuthorBinding` | test/referenceLoader.test.js:25-29 | The test suite's options give the binding (authorId, author, Author, _author). |
| `Scenarios.NotAModelMessage` | test/referenceLoader.test.js:44-51 | The type-mismatch message for the Post/Author binding is '"author" must be a Author model'. |
| `Scenarios.IdMismatchMessage` | test/referenceLoader.test.js:76-92 | The conflict message for the Post/Author binding is 'Author must be the same as identified by the "authorId" attribute'. |
| `Scenarios.NotLoadedMessage` | lib/referenceLoader.js:27-29 | The getter's message for the Author model is "Author has not been loaded yet. Use getAuthor() instead." |
| `Scenarios.MissingOptionIsReported` | lib/referenceLoader.js:12-15 | Options without virtualKey and modelName fail with "Missing required option: virtualKey", the first missing key. |
| `Scenarios.SetterRequiresAModelInstance` | test/referenceLoader.test.js:41-58 | Assigning a string to `author` fails with '"author" must be a Author model' and changes neither slot. |
| `Scenarios.SetterSetsTheIdWhenUnset` | test/referenceLoader.test.js:60-74 | Assigning an Author to a post without `authorId` sets `authorId` to the author's `_id`, and the getter returns that author. |
| `Scenarios.SetterRejectsADifferentId` | test/referenceLoader.test.js:76-99 | Assigning an Author whose `_id` differs from `authorId` fails with the conflict message and changes neither slot. |
| `Scenarios.SetterCachesWhenTheIdMatches` | test/referenceLoader.test.js:101-116 | Assigning an Author whose `_id` equals `authorId` succeeds, and the getter returns that very author. |
| `Scenarios.GetterReturnsTheSuppliedDocument` | test/referenceLoader.test.js:121-133 | For an Author with any generated `_id`, assigning it and reading the virtual returns the same author. |
| `Scenarios.GetterFailsBeforeLoading` | lib/referenceLoader.js:27-29 | Reading `author` on a post with `authorId` set but nothing loaded fails with the not-loaded message. |
| `Scenarios.LoaderFetchesTheReferencedDocument` | test/referenceLoader.test.js:179-202 | `getAuthor` on an unloaded post issues one lookup with `_id` 000000000000000000000005 and returns the stored author. |
| `Scenarios.LoaderCachesTheFetchedDocument` | test/referenceLoader.test.js:204-233 | A second `getAuthor` returns the same author object without a second lookup, and the getter returns it too. |
| `Scenarios.LoaderRetriesAfterNotFound` | lib/referenceLoader.js:62-64 | A load that finds nothing fails with "Author not found" and leaves the cache empty; the next load issues a second lookup and passes a storage error through unchanged. |

## Left out

- Schema registration (`schema.virtual(...).get/.set`, `schema.method('get' + modelName, ...)`) and the `mongoose.model` registry are replaced by the `Binding` value and the model name that each `Document` carries. A `mongoose.model` call that throws for an unregistered name is not modelled.
- The database behind `findOne` is not modelled. Its answer is the `findOne` parameter of `Load`. A storage answer that carries both an error and a document is not representable. In the source the error would win (line 63).
- Callback asynchrony is not modelled. `Load` is one atomic step, so two loads that overlap on a cache miss, each issuing its own lookup, are not modelled.
- ObjectId encoding is not modelled. An id is its hex string, and `toHexString()` returns it.
- JavaScript truthiness is reduced to present or absent. A falsy id (`null`, `""`) or a falsy cached value counts as `None`.
- A loader call with the id field unset sends `{ _id: undefined }`. The model sends criteria `None`. The invariant lemmas (`ConsistentThroughout`, `OwningDoc.Load`'s consistency clause) take honest storage to answer it with no match or an error. What Mongoose actually answers depends on its version, and may be an unrelated document (`UnsetIdMatchBreaksConsistency`).
- Mongoose applies the setter when a document is constructed with the virtual among its data (`new Post({ author: author })`). The model constructs `OwningDoc` with its id field only, then calls `Set`.
- An `options` argument that is `null` or `undefined`, which makes the factory throw a `TypeError` at line 13, is not modelled. A number, string or boolean `options` has every key undefined; it is `Options(None, None, None)` and fails with "Missing required option: idKey".
- `Options`: a defined option is held as its string conversion, so an option set to `null` is `Some("null")`. It passes the check, as in the source, where only `undefined` fails. For `null`, numbers, booleans and objects, each use of the option in the file (a property key, a string concatenation, the model name) sees only that string, but the model cannot tell such an option from the string it converts to. A Symbol option passes the check at line 13 and then makes `'_' + virtualKey` at line 20 throw a `TypeError`; that case is not modelled.
- The model takes `idKey` and the cache slot's name `'_' + virtualKey` to be different property names, and keeps the id field and the cache slot apart. In the source the cache slot is an ordinary document property, private by name only. With options such as idKey `"_author"` and virtualKey `"author"` the two are one property: the cache write at line 50 overwrites the id written at line 47, and with that property set and nothing loaded, the getter (line 27) and the loader's fast path (line 57) return the id instead of failing or issuing a lookup. `Configure` accepts such options, as the source does, but `Read`, `SetStep` and `LoadStep` do not capture this aliasing.
- The identity invariant covers only the plugin's own operations. `authorId` is also a plain field of the document, and writing it directly after the cache is filled makes the getter and the loader's fast path return a document the field no longer names. `OwningDoc.id` is a public field in the model too, and `Lifecycle.Call` has no such write.
