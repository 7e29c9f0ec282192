/**
  Clients of the plugin on the test suite's `Post` model, whose `authorId`
  field references an `Author` through the virtual `author` and the loader
  `getAuthor`. There is one method per test case, and three more for paths
  the suite does not exercise: a missing option, the getter before loading,
  and failed loads being retried. Each follows from the contracts of
  `Configure` and of `OwningDoc` alone.
*/
module Scenarios {
  import opened Wrappers
  import opened ReferenceLoader

  /** The binding the test suite installs on its Post schema. */
  method PostAuthorBinding() returns (b: Binding)
    ensures b == Binding("authorId", "author", "Author", "_author")
  {
    var r := Configure(Options(Some("authorId"), Some("author"), Some("Author")));
    b := r.value;
  }

  // The two messages the test suite compares verbatim (test lines 51 and 92),
  // and the getter's message, as the Post/Author binding builds them.

  lemma NotAModelMessage()
    ensures NotAModelError("author", "Author") == Error("\"author\" must be a Author model")
  {
  }

  lemma IdMismatchMessage()
    ensures IdMismatchError("Author", "authorId")
         == Error("Author must be the same as identified by the \"authorId\" attribute")
  {
    var m := "Author" + " must be the same as identified by the \"";
    assert m == "Author must be the same as identified by the \"";
    var n := m + "authorId";
    assert n == "Author must be the same as identified by the \"authorId";
    assert n + "\" attribute" == "Author must be the same as identified by the \"authorId\" attribute";
  }

  lemma NotLoadedMessage()
    ensures NotLoadedError("Author") == Error("Author has not been loaded yet. Use getAuthor() instead.")
  {
    var m := "Author" + " has not been loaded yet. Use get";
    assert m == "Author has not been loaded yet. Use get";
    var n := m + "Author";
    assert n == "Author has not been loaded yet. Use getAuthor";
    assert n + "() instead." == "Author has not been loaded yet. Use getAuthor() instead.";
  }

  method MissingOptionIsReported()
  {
    var r := Configure(Options(Some("authorId"), None, None));
    assert "Missing required option: " + "virtualKey" == "Missing required option: virtualKey";
    assert r == Failure(Error("Missing required option: virtualKey"));
  }

  method SetterRequiresAModelInstance()
  {
    var b := PostAuthorBinding();
    var post := new OwningDoc(b, None);
    var r := post.Set(Primitive("000000000000000000000001"));
    NotAModelMessage();
    assert r == Fail(Error("\"author\" must be a Author model"));
    assert post.id == None && post.cache == None;
  }

  method SetterSetsTheIdWhenUnset()
  {
    var b := PostAuthorBinding();
    var author := new Document("Author", ObjectId("000000000000000000000001"));
    var post := new OwningDoc(b, None);
    var r := post.Set(Model(author));
    assert r == Pass && post.id == Some(author.id);
    var got := post.Get();
    assert got == Success(author);
  }

  method SetterRejectsADifferentId()
  {
    var b := PostAuthorBinding();
    var author := new Document("Author", ObjectId("000000000000000000000001"));
    var post := new OwningDoc(b, Some(ObjectId("000000000000000000000002")));
    var r := post.Set(Model(author));
    IdMismatchMessage();
    assert r == Fail(Error("Author must be the same as identified by the \"authorId\" attribute"));
    assert post.id == Some(ObjectId("000000000000000000000002")) && post.cache == None;
  }

  method SetterCachesWhenTheIdMatches()
  {
    var b := PostAuthorBinding();
    var author := new Document("Author", ObjectId("000000000000000000000001"));
    var post := new OwningDoc(b, Some(ObjectId("000000000000000000000001")));
    var r := post.Set(Model(author));
    var got := post.Get();
    assert r == Pass && got == Success(author);
  }

  /** The Author is built without an `_id`, so Mongoose generates one: any `generated` id. */
  method GetterReturnsTheSuppliedDocument(generated: ObjectId)
  {
    var b := PostAuthorBinding();
    var author := new Document("Author", generated);
    var post := new OwningDoc(b, None);
    var r := post.Set(Model(author));
    var got := post.Get();
    assert r == Pass && got == Success(author);
  }

  method GetterFailsBeforeLoading()
  {
    var b := PostAuthorBinding();
    var post := new OwningDoc(b, Some(ObjectId("000000000000000000000001")));
    var before := post.Get();
    NotLoadedMessage();
    assert before == Failure(Error("Author has not been loaded yet. Use getAuthor() instead."));
  }

  /** Storage holding one Author, found by its `_id`. */
  function AuthorStore(author: Document): Option<ObjectId> -> LookupResult {
    (c: Option<ObjectId>) => if c == Some(author.id) then Match(author) else NoMatch
  }

  method LoaderFetchesTheReferencedDocument()
  {
    var b := PostAuthorBinding();
    var author := new Document("Author", ObjectId("000000000000000000000005"));
    var post := new OwningDoc(b, Some(ObjectId("000000000000000000000005")));
    var fetched := post.Load(AuthorStore(author));
    assert post.Lookups == [Lookup(Some(ObjectId("000000000000000000000005")), Match(author))];
    assert fetched == Success(author);
  }

  method LoaderCachesTheFetchedDocument()
  {
    var b := PostAuthorBinding();
    var author := new Document("Author", ObjectId("000000000000000000000005"));
    var post := new OwningDoc(b, Some(ObjectId("000000000000000000000005")));
    var first := post.Load(AuthorStore(author));
    assert first == Success(author) && |post.Lookups| == 1;
    var second := post.Load(AuthorStore(author));
    assert second == Success(author) && |post.Lookups| == 1;
    var after := post.Get();
    assert after == Success(author);
  }

  method LoaderRetriesAfterNotFound()
  {
    var b := PostAuthorBinding();
    var post := new OwningDoc(b, Some(ObjectId("000000000000000000000005")));
    var empty := (c: Option<ObjectId>) => NoMatch;
    var first := post.Load(empty);
    assert "Author" + " not found" == "Author not found";
    assert first == Failure(Error("Author not found")) && post.cache == None;
    var failing := (c: Option<ObjectId>) => StorageError(Error("connection lost"));
    var second := post.Load(failing);
    assert second == Failure(Error("connection lost")) && |post.Lookups| == 2;
  }
}
