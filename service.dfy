/**
 * The five handlers of the `/books` group with MongoDB's `books` collection
 * and Redis as two maps. Each handler is one sequential step. What the
 * outside world decides (whether a Redis or MongoDB call fails, which
 * identifier `InsertOne` assigns, which stored documents fail to decode) is
 * a parameter of the handler.
 */
module BookService {
  import opened Wrappers
  import opened ObjectIds
  import opened Models
  import opened Store
  import opened UpdateDto
  import opened Query
  import opened CacheKeys
  import opened Cache

  /** The JSON body of a response. A driver error's text is not modelled. */
  datatype Body =
    | Books(books: seq<Book>, numberOfBooks: Option<nat>)
    | OneBook(book: Book)
    | InsertResult(insertedId: ObjectId)
    | UpdateResult(matchedCount: nat, modifiedCount: nat)
    | DeleteResult(deletedCount: nat)
    | Failure(message: string)
    | DriverError

  datatype Response = Response(status: int, body: Body)

  /** A Redis GET that succeeds and whose text unmarshals into a list. */
  predicate ListHit(cache: map<string, Entry>, key: string, cacheGetOk: bool) {
    cacheGetOk && key in cache && DecodeList(cache[key]).Some?
  }

  /** A Redis GET that succeeds and whose text unmarshals into one book. */
  predicate ItemHit(cache: map<string, Entry>, key: string, cacheGetOk: bool) {
    cacheGetOk && key in cache && DecodeBook(cache[key]).Some?
  }

  /** The `res.Next` loop: decode each visited document and append it; the
      first one that fails to decode ends the read. */
  method ReadCursor(store: map<ObjectId, Book>, ids: seq<ObjectId>, undecodable: set<ObjectId>)
    returns (books: Option<seq<Book>>)
    requires forall i :: 0 <= i < |ids| ==> ids[i] in store
    ensures books.None? <==> !AllDecodable(ids, undecodable)
    ensures books.Some? ==> books.value == BooksOf(store, ids)
  {
    var acc: seq<Book> := [];
    var i := 0;
    while i < |ids|
      invariant 0 <= i <= |ids|
      invariant forall j :: 0 <= j < i ==> ids[j] !in undecodable
      invariant acc == BooksOf(store, ids[..i])
    {
      if ids[i] in undecodable {
        return None;
      }
      assert ids[..i + 1][..i] == ids[..i];
      acc := acc + [store[ids[i]]];
      i := i + 1;
    }
    assert ids[..i] == ids;
    books := Some(acc);
  }

  /**
   * The service's collection and cache. `corrected` chooses between the
   * handlers as written (`false`: the single-document key is `"book:"` plus
   * the id as the request spells it, and the skip is computed in Go's
   * wrapping 64-bit `int`) and the corrected handlers (`true`: the key of the
   * parsed identifier, and the exact skip).
   */
  class Service {
    const corrected: bool
    var store: map<ObjectId, Book>
    var order: seq<ObjectId>
    var cache: map<string, Entry>

    ghost predicate Valid()
      reads this
    {
      StoreConsistent(store, order)
    }

    /** Every single-document entry under a parsed identifier's key that
        decodes shows the stored document. */
    ghost predicate ItemCoherent()
      reads this
    {
      forall oid: ObjectId {:trigger ItemKey(oid)} ::
        ItemKey(oid) in cache && DecodeBook(cache[ItemKey(oid)]).Some? ==>
          oid in store && store[oid] == DecodeBook(cache[ItemKey(oid)]).value
    }

    /** The key under which a handler reads, writes or deletes the document
        a request id names. */
    function EntryKey(id: string): (k: string)
      requires ParseObjectId(id).Some?
      ensures !IsListKey(k) && k != CreateKey
      ensures corrected ==> k == ItemKey(ParseObjectId(id).value)
      ensures !corrected ==> k == RawItemKey(id)
    {
      if corrected then ItemKey(ParseObjectId(id).value) else RawItemKey(id)
    }

    /** The number of documents `GetBooks` skips for a page and limit. */
    function Offset(page: int, limit: int): (r: int)
      requires page >= 1 && limit >= 1
      ensures corrected ==> r == Skip(page, limit)
      ensures !corrected ==> r == WrappedSkip(page, limit)
    {
      if corrected then Skip(page, limit) else WrappedSkip(page, limit)
    }

    constructor (corrected0: bool, store0: map<ObjectId, Book>, order0: seq<ObjectId>, cache0: map<string, Entry>)
      requires StoreConsistent(store0, order0)
      ensures Valid()
      ensures corrected == corrected0 && store == store0 && order == order0 && cache == cache0
    {
      corrected := corrected0;
      store, order, cache := store0, order0, cache0;
    }

    /** The 10-minute TTL running out for one key. */
    method Expire(key: string)
      requires Valid()
      modifies this
      ensures Valid()
      ensures old(ItemCoherent()) ==> ItemCoherent()
      ensures store == old(store) && order == old(order) && cache == old(cache) - {key}
    {
      cache := cache - {key};
    }

    /** GET /books?page=&limit= */
    method GetBooks(pageQuery: string, limitQuery: string, cacheGetOk: bool, storeOk: bool,
                    undecodable: set<ObjectId>, cacheSetOk: bool) returns (resp: Response)
      requires Valid()
      modifies this
      ensures Valid() && store == old(store) && order == old(order)
      ensures old(ItemCoherent()) ==> ItemCoherent()
      ensures var page, limit := NormalizedPage(pageQuery), NormalizedLimit(limitQuery);
              var key := ListKey(page, limit);
              var skip := Offset(page, limit);
              if ListHit(old(cache), key, cacheGetOk) then
                && resp == Response(200, Books(DecodeList(old(cache)[key]).value, None))
                && cache == old(cache)
              else if !storeOk || skip < 0 || !AllDecodable(PageIds(order, skip, limit), undecodable) then
                resp == Response(500, DriverError) && cache == old(cache)
              else
                var books := BooksOf(store, PageIds(order, skip, limit));
                && resp == Response(200, Books(books, Some(|books|)))
                && cache == if cacheSetOk then old(cache)[key := EncodeList(books)] else old(cache)
    {
      var page := NormalizedPage(pageQuery);
      var limit := NormalizedLimit(limitQuery);
      var skip := Offset(page, limit);
      var key := ListKey(page, limit);
      if cacheGetOk && key in cache {
        var cached := DecodeList(cache[key]);
        if cached.Some? {
          return Response(200, Books(cached.value, None));
        }
      }
      // A failing Find and a cursor that ends in an error (res.Err()) both
      // answer 500 and write nothing, so `storeOk` stands for both. The
      // server rejects a negative skip, which fails the Find as well.
      if !storeOk || skip < 0 {
        return Response(500, DriverError);
      }
      var books := ReadCursor(store, PageIds(order, skip, limit), undecodable);
      if books.None? {
        return Response(500, DriverError);
      }
      if cacheSetOk {
        cache := cache[key := EncodeList(books.value)];
      }
      resp := Response(200, Books(books.value, Some(|books.value|)));
    }

    /** GET /books/:id */
    method GetBook(id: string, cacheGetOk: bool, storeOk: bool, cacheSetOk: bool) returns (resp: Response)
      requires Valid()
      modifies this
      ensures Valid() && store == old(store) && order == old(order)
      ensures old(ItemCoherent()) ==> ItemCoherent()
      ensures id == "" ==> resp == Response(400, Failure("id is required.")) && cache == old(cache)
      ensures id != "" && ParseObjectId(id).None? ==>
                resp == Response(400, Failure("id is invalid")) && cache == old(cache)
      ensures ParseObjectId(id).Some? ==>
                var oid := ParseObjectId(id).value;
                var key := EntryKey(id);
                if ItemHit(old(cache), key, cacheGetOk) then
                  resp == Response(200, OneBook(DecodeBook(old(cache)[key]).value)) && cache == old(cache)
                else if !storeOk || oid !in store then
                  resp == Response(404, Failure("book not found")) && cache == old(cache)
                else
                  && resp == Response(200, OneBook(store[oid]))
                  && cache == if cacheSetOk then old(cache)[key := EncodeBook(store[oid])] else old(cache)
      ensures corrected && old(ItemCoherent()) && resp.body.OneBook? ==>
                && ParseObjectId(id).Some?
                && ParseObjectId(id).value in store
                && resp.body.book == store[ParseObjectId(id).value]
    {
      if id == "" {
        return Response(400, Failure("id is required."));
      }
      var parsed := ParseObjectId(id);
      if parsed.None? {
        return Response(400, Failure("id is invalid"));
      }
      var oid := parsed.value;
      var key := EntryKey(id);
      if cacheGetOk && key in cache {
        var cached := DecodeBook(cache[key]);
        if cached.Some? {
          return Response(200, OneBook(cached.value));
        }
      }
      // FindOne(...).Decode: any error, not only a missing document, is a 404.
      if !storeOk || oid !in store {
        return Response(404, Failure("book not found"));
      }
      var book := store[oid];
      if cacheSetOk {
        // Only a canonical spelling's key is a parsed identifier's key, and
        // then it is this document's.
        forall o: ObjectId | ItemKey(o) == key
          ensures o == oid
        {
          if corrected {
            assert o == ItemKey(o)[5..] == key[5..] == oid;
          } else {
            assert o == ItemKey(o)[5..] == RawItemKey(id)[5..] == id;
            ParseCanonical(o);
          }
        }
        cache := cache[key := EncodeBook(book)];
      }
      resp := Response(200, OneBook(book));
    }

    /** POST /books */
    method CreateBook(body: Option<CreateBookDto>, freshId: ObjectId, storeOk: bool) returns (resp: Response)
      requires Valid()
      modifies this
      ensures Valid()
      ensures old(ItemCoherent()) ==> ItemCoherent()
      ensures body.None? ==> resp == Response(400, Failure("Invalid body struct.")) && unchanged(this)
      ensures body.Some? && (!storeOk || freshId in old(store)) ==>
                resp == Response(500, Failure("failed to create book")) && unchanged(this)
      ensures body.Some? && storeOk && freshId !in old(store) ==>
                && resp == Response(201, InsertResult(freshId))
                && store == old(store)[freshId := Inserted(freshId, body.value)]
                && order == old(order) + [freshId]
                && cache == old(cache) - {CreateKey}
    {
      if body.None? {
        return Response(400, Failure("Invalid body struct."));
      }
      // InsertOne fails on a connection error or on a duplicate _id.
      if !storeOk || freshId in store {
        return Response(500, Failure("failed to create book"));
      }
      var book := Inserted(freshId, body.value);
      InsertKeepsConsistent(store, order, book);
      store := store[freshId := book];
      order := order + [freshId];
      cache := cache - {CreateKey};
      resp := Response(201, InsertResult(freshId));
    }

    /**
     * The `books:*` SCAN with a DEL per key it yields. `scanFault == Some(n)`
     * means the scan reports an error once it has yielded `n` keys.
     */
    method SweepListKeys(scanFault: Option<nat>) returns (ok: bool)
      modifies this
      ensures store == old(store) && order == old(order)
      ensures ok <==> scanFault.None?
      ensures ok ==> cache == WithoutListKeys(old(cache))
      ensures forall k :: k in cache ==> k in old(cache) && cache[k] == old(cache)[k]
      ensures forall k :: k in old(cache) && !IsListKey(k) ==> k in cache
    {
      var pending := ListKeysOf(cache);
      var yielded := 0;
      while pending != {} && (scanFault.None? || yielded < scanFault.value)
        invariant store == old(store) && order == old(order)
        invariant pending <= ListKeysOf(old(cache))
        invariant cache == old(cache) - (ListKeysOf(old(cache)) - pending)
        decreases pending
      {
        var k :| k in pending;
        cache := cache - {k};
        pending := pending - {k};
        yielded := yielded + 1;
      }
      ok := scanFault.None?;
    }

    /** PUT /books/:id */
    method UpdateBook(body: Option<UpdateBookDto>, id: string, storeOk: bool, scanFault: Option<nat>,
                      rereadOk: bool, cacheSetOk: bool) returns (resp: Response)
      requires Valid()
      modifies this
      ensures Valid()
      ensures corrected && old(ItemCoherent()) ==> ItemCoherent()
      ensures body.None? ==> resp == Response(400, Failure("book body is invalid")) && unchanged(this)
      ensures body.Some? && id == "" ==> resp == Response(400, Failure("id is required.")) && unchanged(this)
      ensures body.Some? && id != "" && ParseObjectId(id).None? ==>
                resp == Response(500, Failure("invalid id.")) && unchanged(this)
      ensures body.Some? && ParseObjectId(id).Some? && !storeOk ==>
                resp == Response(400, Failure("error while update book")) && unchanged(this)
      ensures body.Some? && ParseObjectId(id).Some? && storeOk ==>
                var oid := ParseObjectId(id).value;
                && order == old(order)
                && store == if oid in old(store) then old(store)[oid := Merge(old(store)[oid], body.value)]
                            else old(store)
      ensures body.Some? && ParseObjectId(id).Some? && storeOk && scanFault.Some? ==>
                var oid := ParseObjectId(id).value;
                && resp == Response(500, Failure("error while invalidating cache"))
                && EntryKey(id) !in cache
                && (forall k :: k in cache ==> k in old(cache) && cache[k] == old(cache)[k])
                && (forall k :: k in old(cache) && !IsListKey(k) && k != EntryKey(id) ==> k in cache)
      ensures body.Some? && ParseObjectId(id).Some? && storeOk && scanFault.None? ==>
                var oid := ParseObjectId(id).value;
                var swept := WithoutListKeys(old(cache) - {EntryKey(id)});
                var matched := oid in old(store);
                && resp == Response(200, UpdateResult(
                     if matched then 1 else 0,
                     if matched && Merge(old(store)[oid], body.value) != old(store)[oid] then 1 else 0))
                && cache == if rereadOk && cacheSetOk && matched
                            then swept[EntryKey(id) := EncodeBook(store[oid])] else swept
    {
      if body.None? {
        return Response(400, Failure("book body is invalid"));
      }
      if id == "" {
        return Response(400, Failure("id is required."));
      }
      var parsed := ParseObjectId(id);
      if parsed.None? {
        return Response(500, Failure("invalid id."));
      }
      var oid := parsed.value;
      if !storeOk {
        return Response(400, Failure("error while update book"));
      }
      var matched, modified := 0, 0;
      if oid in store {
        var updated := Merge(store[oid], body.value);
        matched := 1;
        modified := if updated != store[oid] then 1 else 0;
        ReplaceKeepsConsistent(store, order, updated);
        store := store[oid := updated];
      }
      var key := EntryKey(id);
      cache := cache - {key};
      var swept := SweepListKeys(scanFault);
      if !swept {
        return Response(500, Failure("error while invalidating cache"));
      }
      // The re-read after the sweep; a failed FindOne or Set only skips the refresh.
      if rereadOk && cacheSetOk && oid in store {
        cache := cache[key := EncodeBook(store[oid])];
      }
      resp := Response(200, UpdateResult(matched, modified));
    }

    /** DELETE /books/:id */
    method DeleteBook(id: string, storeOk: bool) returns (resp: Response)
      requires Valid()
      modifies this
      ensures Valid()
      ensures corrected && old(ItemCoherent()) ==> ItemCoherent()
      ensures id == "" ==> resp == Response(400, Failure("id is required.")) && unchanged(this)
      ensures id != "" && ParseObjectId(id).None? ==>
                resp == Response(400, Failure("id is invalid.")) && unchanged(this)
      ensures ParseObjectId(id).Some? && !storeOk ==>
                resp == Response(500, Failure("error while deleting book")) && unchanged(this)
      ensures ParseObjectId(id).Some? && storeOk ==>
                var oid := ParseObjectId(id).value;
                && resp == Response(200, DeleteResult(if oid in old(store) then 1 else 0))
                && store == old(store) - {oid}
                && order == RemoveId(old(order), oid)
                && cache == old(cache) - {EntryKey(id)}
    {
      if id == "" {
        return Response(400, Failure("id is required."));
      }
      var parsed := ParseObjectId(id);
      if parsed.None? {
        return Response(400, Failure("id is invalid."));
      }
      var oid := parsed.value;
      if !storeOk {
        return Response(500, Failure("error while deleting book"));
      }
      var deleted := if oid in store then 1 else 0;
      DeleteKeepsConsistent(store, order, oid);
      store := store - {oid};
      order := RemoveId(order, oid);
      cache := cache - {EntryKey(id)};
      resp := Response(200, DeleteResult(deleted));
    }
  }
}
