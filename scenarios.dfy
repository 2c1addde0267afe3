/**
 * Request sequences against one `Service`, proved from the handlers'
 * contracts alone: what a client observes when it issues them one after the
 * other with no other client in between.
 */
module Scenarios {
  import opened Wrappers
  import opened ObjectIds
  import opened Models
  import opened UpdateDto
  import opened Strconv
  import opened Store
  import opened Query
  import opened CacheKeys
  import opened Cache
  import opened BookService

  /** A list read that filled the cache is answered again from the cache,
      even while the store is unavailable. */
  method ListReadTwice(s: Service, pageQuery: string, limitQuery: string) returns (first: Response, second: Response)
    requires s.Valid() && s.Offset(NormalizedPage(pageQuery), NormalizedLimit(limitQuery)) >= 0
    modifies s
    ensures first.status == 200 && first.body.Books?
    ensures second == Response(200, Books(first.body.books, None))
    ensures s.store == old(s.store) && s.order == old(s.order)
  {
    first := s.GetBooks(pageQuery, limitQuery, true, true, {}, true);
    second := s.GetBooks(pageQuery, limitQuery, true, false, {}, false);
  }

  /** After a delete the document is gone: a read answers 404 and leaves no
      entry for it, whatever the cache and store calls do. */
  method DeleteThenGet(s: Service, id: string, cacheGetOk: bool, storeOk: bool, cacheSetOk: bool)
    returns (r: Response)
    requires s.Valid() && ParseObjectId(id).Some?
    modifies s
    ensures r == Response(404, Failure("book not found"))
    ensures ParseObjectId(id).value !in s.store
    ensures s.EntryKey(id) !in s.cache
  {
    var d := s.DeleteBook(id, true);
    r := s.GetBook(id, cacheGetOk, storeOk, cacheSetOk);
  }

  /** A read right after a successful update shows the merged document,
      whether the sweep failed, the refresh was skipped or the cache hit. */
  method UpdateThenGet(s: Service, id: string, dto: UpdateBookDto, scanFault: Option<nat>,
                       rereadOk: bool, cacheSetOk: bool, cacheGetOk: bool) returns (r: Response)
    requires s.Valid() && ParseObjectId(id).Some? && ParseObjectId(id).value in s.store
    modifies s
    ensures r == Response(200, OneBook(Merge(old(s.store)[ParseObjectId(id).value], dto)))
  {
    var u := s.UpdateBook(Some(dto), id, true, scanFault, rereadOk, cacheSetOk);
    r := s.GetBook(id, cacheGetOk, true, false);
  }

  /** A created book read back from the store carries the draft's three fields. */
  method CreateThenGet(s: Service, dto: CreateBookDto, freshId: ObjectId, cacheSetOk: bool) returns (r: Response)
    requires s.Valid() && freshId !in s.store
    modifies s
    ensures r.status == 200 && r.body.OneBook?
    ensures r.body.book.id == freshId
    ensures r.body.book.title == dto.title && r.body.book.author == dto.author && r.body.book.year == dto.year
  {
    var c := s.CreateBook(Some(dto), freshId, true);
    ParseCanonical(freshId);
    r := s.GetBook(freshId, false, true, cacheSetOk);
  }

  /** An id that is not 24 hex digits is a 400, not a 404 or a 500. */
  method MalformedIdIsBadRequest(s: Service, cacheGetOk: bool, storeOk: bool, cacheSetOk: bool)
    returns (r: Response)
    requires s.Valid()
    modifies s
    ensures r.status == 400
  {
    r := s.GetBook("not-a-valid-id", cacheGetOk, storeOk, cacheSetOk);
  }

  /** Creating a book leaves every cached list page in place: such pages
      stay stale until they expire or an update sweeps them. */
  method CreateLeavesListPages(s: Service, dto: CreateBookDto, freshId: ObjectId, key: string)
    returns (r: Response)
    requires s.Valid() && IsListKey(key) && key in s.cache
    modifies s
    ensures key in s.cache && s.cache[key] == old(s.cache[key])
  {
    r := s.CreateBook(Some(dto), freshId, true);
  }

  /** Deleting a book leaves every cached list page in place as well. */
  method DeleteLeavesListPages(s: Service, id: string, storeOk: bool, key: string) returns (r: Response)
    requires s.Valid() && IsListKey(key) && key in s.cache
    modifies s
    ensures key in s.cache && s.cache[key] == old(s.cache[key])
  {
    r := s.DeleteBook(id, storeOk);
  }

  /** As written, a document cached through one spelling of its id stays
      stale after an update through another: the second read of
      `book:A00…0` answers the document as it was before the update. */
  method StaleReadThroughOtherSpelling(s: Service, dto: UpdateBookDto) returns (before: Response, after: Response)
    requires s.Valid() && !s.corrected
    requires ParseObjectId("A00000000000000000000000").Some?
    requires var oid := ParseObjectId("A00000000000000000000000").value;
             oid in s.store && RawItemKey("A00000000000000000000000") !in s.cache
    modifies s
    ensures var oid := ParseObjectId("A00000000000000000000000").value;
            && before == Response(200, OneBook(old(s.store)[oid]))
            && after == before
            && oid in s.store
            && s.store[oid] == Merge(old(s.store)[oid], dto)
            && (Merge(old(s.store)[oid], dto) != old(s.store)[oid] ==> after.body.book != s.store[oid])
  {
    var upper, lower := "A00000000000000000000000", "a00000000000000000000000";
    RawItemKeyAliases();
    before := s.GetBook(upper, true, true, true);
    var u := s.UpdateBook(Some(dto), lower, true, None, true, true);
    after := s.GetBook(upper, true, true, true);
  }

  /** With the corrected key the same requests read the updated document. */
  method FreshReadThroughOtherSpelling(s: Service, dto: UpdateBookDto, cacheGetOk: bool, rereadOk: bool)
    returns (before: Response, after: Response)
    requires s.Valid() && s.corrected
    requires ParseObjectId("A00000000000000000000000").Some?
    requires ParseObjectId("A00000000000000000000000").value in s.store
    modifies s
    ensures after == Response(200, OneBook(Merge(old(s.store)[ParseObjectId("A00000000000000000000000").value], dto)))
  {
    var upper, lower := "A00000000000000000000000", "a00000000000000000000000";
    RawItemKeyAliases();
    before := s.GetBook(upper, cacheGetOk, true, true);
    var u := s.UpdateBook(Some(dto), lower, true, None, rereadOk, true);
    after := s.GetBook(upper, cacheGetOk, true, false);
  }

  /** As written, `?page=4611686018427387905&limit=4` with nothing cached
      serves the first four documents. */
  method FarPageServesFirstPage(s: Service, pageQuery: string, limitQuery: string) returns (r: Response)
    requires s.Valid() && !s.corrected
    requires NormalizedPage(pageQuery) == 0x4000_0000_0000_0001 && NormalizedLimit(limitQuery) == 4
    modifies s
    ensures s.Valid() && s.store == old(s.store) && s.order == old(s.order)
    ensures r.status == 200 && r.body.Books? && |r.body.books| == Min(4, |s.order|)
    ensures forall i :: 0 <= i < |r.body.books| ==> r.body.books[i] == s.store[s.order[i]]
  {
    WrapOfTwoTo64();
    assert s.Offset(0x4000_0000_0000_0001, 4) == 0;
    r := s.GetBooks(pageQuery, limitQuery, false, true, {}, true);
  }

  /** As written, `?page=4611686018427387905&limit=2` wraps the skip to
      -2^63, which the store rejects: the answer is 500. */
  method NegativeSkipIsServerError(s: Service, pageQuery: string, limitQuery: string) returns (r: Response)
    requires s.Valid() && !s.corrected
    requires NormalizedPage(pageQuery) == 0x4000_0000_0000_0001 && NormalizedLimit(limitQuery) == 2
    modifies s
    ensures r == Response(500, DriverError)
    ensures s.cache == old(s.cache)
  {
    WrappedSkipNegative();
    r := s.GetBooks(pageQuery, limitQuery, false, true, {}, true);
  }

  /** With the exact skip the same page is empty. */
  method FarPageIsEmptyWhenCorrected(s: Service, pageQuery: string, limitQuery: string) returns (r: Response)
    requires s.Valid() && s.corrected && |s.order| <= 0x1_0000_0000_0000_0000
    requires NormalizedPage(pageQuery) == 0x4000_0000_0000_0001 && NormalizedLimit(limitQuery) == 4
    modifies s
    ensures r == Response(200, Books([], Some(0)))
  {
    r := s.GetBooks(pageQuery, limitQuery, false, true, {}, true);
  }
}
