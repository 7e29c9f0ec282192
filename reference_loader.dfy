/**
  The reference loader plugin: a per-document binding between a persisted
  foreign-key field (`idKey`) and a private, non-persisted cache slot
  (`'_' + virtualKey`) holding the related `modelName` document.

  The plugin factory checks its options; the binding it produces supplies a
  synchronous virtual getter, a validating virtual setter and the callback
  loader `get<modelName>`. Each operation is defined once as a function on the
  two slots (`Read`, `SetStep`, `LoadStep`) and implemented by a method of
  `OwningDoc` that updates the document's fields in place.
*/
module ReferenceLoader {
  import opened Wrappers

  // ---------------------------------------------------------------------------
  // Identities, documents and errors
  // ---------------------------------------------------------------------------

  /** A document identity; two ids are compared through their hex strings. */
  datatype ObjectId = ObjectId(hex: string) {
    function ToHexString(): string { hex }
  }

  /** An instance of some registered model: its model name and its `_id`. */
  class Document {
    const modelName: string
    const id: ObjectId

    constructor (modelName: string, id: ObjectId)
      ensures this.modelName == modelName && this.id == id
    {
      this.modelName := modelName;
      this.id := id;
    }
  }

  /** A value assigned to the virtual: a model instance or anything else. */
  datatype Value = Model(doc: Document) | Primitive(text: string)

  /** A JavaScript `Error`, identified by its message. */
  datatype Error = Error(message: string)

  function MissingOptionError(key: string): Error {
    Error("Missing required option: " + key)
  }

  function NotLoadedError(modelName: string): Error {
    Error(modelName + " has not been loaded yet. Use get" + modelName + "() instead.")
  }

  function NotAModelError(virtualKey: string, modelName: string): Error {
    Error("\"" + virtualKey + "\" must be a " + modelName + " model")
  }

  function IdMismatchError(modelName: string, idKey: string): Error {
    Error(modelName + " must be the same as identified by the \"" + idKey + "\" attribute")
  }

  function NotFoundError(modelName: string): Error {
    Error(modelName + " not found")
  }

  // ---------------------------------------------------------------------------
  // The plugin factory and its options
  // ---------------------------------------------------------------------------

  /**
    The options object given to the factory. `None` is an undefined option; a
    defined option is given by its string conversion (`null` as "null"), which is
    all that its uses as a property key and in message concatenation see.
  */
  datatype Options = Options(idKey: Option<string>, virtualKey: Option<string>, modelName: Option<string>)

  /** The required options, in the order the factory checks them. */
  const RequiredOptions: seq<string> := ["idKey", "virtualKey", "modelName"]

  /** `options[key]`: any key other than the three options is undefined. */
  function OptionValue(options: Options, key: string): Option<string> {
    if key == "idKey" then options.idKey
    else if key == "virtualKey" then options.virtualKey
    else if key == "modelName" then options.modelName
    else None
  }

  /** The three required keys name the three fields of the options. */
  lemma RequiredOptionValues(options: Options)
    ensures OptionValue(options, RequiredOptions[0]) == options.idKey
    ensures OptionValue(options, RequiredOptions[1]) == options.virtualKey
    ensures OptionValue(options, RequiredOptions[2]) == options.modelName
  {
  }

  /** The configuration shared by every document of the owning model. */
  datatype Binding = Binding(idKey: string, virtualKey: string, modelName: string, cachedKey: string)

  /**
    The factory: it throws for the first required option, in the order
    idKey, virtualKey, modelName, that is undefined; otherwise it derives the
    cache slot's name from the virtual's.
  */
  method Configure(options: Options) returns (r: Result<Binding, Error>)
    ensures r == if options.idKey.None? then Failure(MissingOptionError("idKey"))
                 else if options.virtualKey.None? then Failure(MissingOptionError("virtualKey"))
                 else if options.modelName.None? then Failure(MissingOptionError("modelName"))
                 else Success(Binding(options.idKey.value, options.virtualKey.value,
                                      options.modelName.value, "_" + options.virtualKey.value))
  {
    RequiredOptionValues(options);
    for i := 0 to |RequiredOptions|
      invariant forall j :: 0 <= j < i ==> OptionValue(options, RequiredOptions[j]).Some?
    {
      var key := RequiredOptions[i];
      if OptionValue(options, key).None? {
        return Failure(MissingOptionError(key));
      }
    }
    var idKey, virtualKey, modelName := options.idKey.value, options.virtualKey.value, options.modelName.value;
    r := Success(Binding(idKey, virtualKey, modelName, "_" + virtualKey));
  }

  // ---------------------------------------------------------------------------
  // The two slots of an owning document and the three operations on them
  // ---------------------------------------------------------------------------

  /** The persisted id field and the private cache slot; `None` is empty. */
  datatype Slots = Slots(id: Option<ObjectId>, cache: Option<Document>)

  /** The identity invariant: a cached document is the one the id names. */
  predicate Consistent(s: Slots) {
    s.cache.Some? ==> s.id == Some(s.cache.value.id)
  }

  /** `val instanceof mongoose.model(modelName)`. */
  predicate IsInstance(b: Binding, v: Value) {
    v.Model? && v.doc.modelName == b.modelName
  }

  /** The virtual getter. */
  function Read(b: Binding, s: Slots): (r: Result<Document, Error>)
    ensures r.Success? <==> s.cache.Some?
    ensures r.Success? ==> r.value == s.cache.value
    ensures r.Failure? ==> r.error == NotLoadedError(b.modelName)
  {
    if s.cache.None? then Failure(NotLoadedError(b.modelName)) else Success(s.cache.value)
  }

  datatype SetOutcome = SetOutcome(result: Outcome<Error>, after: Slots)

  /** The virtual setter: type check, then id check, then both writes. */
  function SetStep(b: Binding, s: Slots, v: Value): (o: SetOutcome)
    ensures !IsInstance(b, v) ==> o == SetOutcome(Fail(NotAModelError(b.virtualKey, b.modelName)), s)
    ensures IsInstance(b, v) && s.id.Some? && s.id != Some(v.doc.id) ==>
              o == SetOutcome(Fail(IdMismatchError(b.modelName, b.idKey)), s)
    ensures o.result.Pass? <==> IsInstance(b, v) && (s.id.None? || s.id == Some(v.doc.id))
    ensures o.result.Fail? ==> o.after == s
    ensures o.result.Pass? ==> o.after == Slots(Some(v.doc.id), Some(v.doc))
    ensures o.result.Pass? ==> Read(b, o.after) == Success(v.doc) && Consistent(o.after)
  {
    if !IsInstance(b, v) then
      SetOutcome(Fail(NotAModelError(b.virtualKey, b.modelName)), s)
    else if s.id.Some? && s.id.value.ToHexString() != v.doc.id.ToHexString() then
      SetOutcome(Fail(IdMismatchError(b.modelName, b.idKey)), s)
    else
      SetOutcome(Pass, Slots(Some(v.doc.id), Some(v.doc)))
  }

  /** What `Model.findOne` reports to its callback. */
  datatype LookupResult = StorageError(error: Error) | NoMatch | Match(doc: Document)

  /** One storage lookup: the `_id` criteria sent and the answer received. */
  datatype Lookup = Lookup(criteria: Option<ObjectId>, answer: LookupResult)

  /**
    Storage that only ever answers with a document having the requested `_id`.
    In particular, honest storage answers a lookup with `_id: undefined`
    (criteria `None`, sent when the id field is unset) with no match or with
    an error, never with a document. The predicate constrains only the `_id`
    of an answer, not its model: the identity invariant needs no more.
  */
  ghost predicate HonoursCriteria(findOne: Option<ObjectId> -> LookupResult) {
    forall c :: findOne(c).Match? ==> c == Some(findOne(c).doc.id)
  }

  datatype LoadOutcome = LoadOutcome(result: Result<Document, Error>, after: Slots, issued: seq<Lookup>)

  /**
    The loader `get<modelName>`: the cached document without a lookup, or one
    lookup by the id field whose match, and only whose match, is cached.
  */
  function LoadStep(b: Binding, s: Slots, findOne: Option<ObjectId> -> LookupResult): (o: LoadOutcome)
    ensures s.cache.Some? ==> o == LoadOutcome(Success(s.cache.value), s, [])
    ensures s.cache.None? ==> o.issued == [Lookup(s.id, findOne(s.id))]
    ensures s.cache.None? && findOne(s.id).StorageError? ==> o.result == Failure(findOne(s.id).error)
    ensures s.cache.None? && findOne(s.id).NoMatch? ==> o.result == Failure(NotFoundError(b.modelName))
    ensures s.cache.None? && findOne(s.id).Match? ==>
              o.result == Success(findOne(s.id).doc) && o.after == s.(cache := Some(findOne(s.id).doc))
    ensures o.after.id == s.id
    ensures o.result.Failure? ==> o.after == s && s.cache.None?
    ensures o.result.Success? ==> Read(b, o.after) == o.result
    ensures Consistent(s) && HonoursCriteria(findOne) ==> Consistent(o.after)
  {
    if s.cache.Some? then
      LoadOutcome(Success(s.cache.value), s, [])
    else
      var answer := findOne(s.id);
      var issued := [Lookup(s.id, answer)];
      match answer
      case StorageError(e) => LoadOutcome(Failure(e), s, issued)
      case NoMatch => LoadOutcome(Failure(NotFoundError(b.modelName)), s, issued)
      case Match(d) => LoadOutcome(Success(d), s.(cache := Some(d)), issued)
  }

  // ---------------------------------------------------------------------------
  // Properties relating several operations
  // ---------------------------------------------------------------------------

  /** The getter's answer depends on the cache slot only, never on the id field. */
  lemma ReadIgnoresId(b: Binding, s: Slots, id: Option<ObjectId>)
    ensures Read(b, s.(id := id)) == Read(b, s)
  {
  }

  /** After a successful load, every further load is the fast path. */
  lemma LoadIsMemoized(b: Binding, s: Slots, first: Option<ObjectId> -> LookupResult,
                       second: Option<ObjectId> -> LookupResult)
    requires LoadStep(b, s, first).result.Success?
    ensures var o := LoadStep(b, s, first);
            LoadStep(b, o.after, second) == LoadOutcome(o.result, o.after, [])
  {
  }

  /** After a failed load, a retry issues a fresh lookup with the same criteria. */
  lemma FailedLoadRetries(b: Binding, s: Slots, first: Option<ObjectId> -> LookupResult,
                          second: Option<ObjectId> -> LookupResult)
    requires LoadStep(b, s, first).result.Failure?
    ensures LoadStep(b, LoadStep(b, s, first).after, second).issued == [Lookup(s.id, second(s.id))]
  {
  }

  /**
    The loader caches whatever the lookup returns: a storage answer with a
    different `_id` breaks the identity invariant.
  */
  lemma UncheckedMatchBreaksConsistency(b: Binding, id: ObjectId, d: Document)
    requires d.id != id
    ensures var findOne := (c: Option<ObjectId>) => Match(d);
            !Consistent(LoadStep(b, Slots(Some(id), None), findOne).after)
  {
  }

  /**
    Honest storage never finds a document for criteria `None`, so the
    identity invariant's preservation rests on that answer too.
  */
  lemma HonestStorageFindsNothingForUnsetId(findOne: Option<ObjectId> -> LookupResult)
    requires HonoursCriteria(findOne)
    ensures !findOne(None).Match?
  {
  }

  /**
    With the id field unset, the loader still looks up `{ _id: undefined }` and
    caches any document the storage returns, leaving a cached document that the
    id field does not name.
  */
  lemma UnsetIdMatchBreaksConsistency(b: Binding, d: Document)
    ensures var findOne := (c: Option<ObjectId>) => Match(d);
            var o := LoadStep(b, Slots(None, None), findOne);
            o.issued == [Lookup(None, Match(d))] && o.after == Slots(None, Some(d)) && !Consistent(o.after)
  {
  }

  // ---------------------------------------------------------------------------
  // An owning document
  // ---------------------------------------------------------------------------

  /**
    A document of the owning model, with the plugin attached: the id field
    `this[idKey]`, the cache slot `this[cachedKey]`, and a ghost log of the
    storage lookups its loader has issued.
  */
  class OwningDoc {
    const binding: Binding
    var id: Option<ObjectId>
    var cache: Option<Document>
    ghost var Lookups: seq<Lookup>

    function State(): Slots
      reads this
    {
      Slots(id, cache)
    }

    /** A fresh document: its id field as given, its cache slot empty. */
    constructor (binding: Binding, id: Option<ObjectId>)
      ensures this.binding == binding && State() == Slots(id, None) && Lookups == []
    {
      this.binding := binding;
      this.id := id;
      this.cache := None;
      this.Lookups := [];
    }

    /** Reading the virtual. */
    method Get() returns (r: Result<Document, Error>)
      ensures r == Read(binding, State())
    {
      if cache.None? {
        return Failure(NotLoadedError(binding.modelName));
      }
      r := Success(cache.value);
    }

    /** Assigning the virtual. */
    method Set(v: Value) returns (r: Outcome<Error>)
      modifies this`id, this`cache
      ensures SetOutcome(r, State()) == SetStep(binding, old(State()), v)
    {
      if !IsInstance(binding, v) {
        return Fail(NotAModelError(binding.virtualKey, binding.modelName));
      }
      if id.Some? && id.value.ToHexString() != v.doc.id.ToHexString() {
        return Fail(IdMismatchError(binding.modelName, binding.idKey));
      }
      id := Some(v.doc.id);
      cache := Some(v.doc);
      r := Pass;
    }

    /** Calling `get<modelName>`, with `findOne` standing for the model's storage. */
    method Load(findOne: Option<ObjectId> -> LookupResult) returns (r: Result<Document, Error>)
      modifies this`cache, this`Lookups
      ensures var o := LoadStep(binding, old(State()), findOne);
              r == o.result && State() == o.after && Lookups == old(Lookups) + o.issued
      ensures Consistent(old(State())) && HonoursCriteria(findOne) ==> Consistent(State())
    {
      if cache.Some? {
        return Success(cache.value);
      }
      var answer := findOne(id);
      Lookups := Lookups + [Lookup(id, answer)];
      match answer
      case StorageError(e) =>
        r := Failure(e);
      case NoMatch =>
        r := Failure(NotFoundError(binding.modelName));
      case Match(d) =>
        cache := Some(d);
        r := Success(d);
    }
  }
}
