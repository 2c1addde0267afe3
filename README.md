# Book service cache-consistency model

This project models the `/books` CRUD service of `Go_crud_caching`: five
Fiber handlers that keep a MongoDB collection of books and a Redis cache in
step. The collection is a map from identifier to document plus the order in
which `Find` visits documents. Redis is a map from key to cached value. Each
handler is a method of the class `BookService.Service` that updates those
maps. Everything the outside world decides is a parameter of the handler:
whether a Redis or MongoDB call fails, which identifier `InsertOne` assigns,
and which stored documents fail to decode.

The class has two modes, fixed when it is constructed by the constant
`corrected`. With `corrected == false` the handlers behave as the code is
written: the single-document key is `"book:"` followed by the id exactly as
the request spells it, and the skip is `(page-1)*limit` in Go's wrapping
64-bit `int`. With `corrected == true` the key is built from the parsed
identifier and the skip is exact (see "## Findings").

The pure parts are functions with their own lemmas:

- reading `page` and `limit` (`strconv.Atoi` on a 64-bit `int`, Fiber's query
  default, the fall-back to 1 and 10);
- the skip arithmetic;
- the three cache-key families `books:<page>:<limit>`, `book:<id>` and the
  literal `books`, which are pairwise disjoint;
- `ObjectIDFromHex`;
- the `$set` merge that the `omitempty` tags of `UpdateBookDto` define.

The policy the model proves:

- A cache hit answers without reading the store.
- A corrupt or undecodable entry, or a failed GET, falls through to the store.
- Every error path before a store write changes nothing.
- `CreateBook` deletes only the key `books`, which no read ever writes.
- `UpdateBook` deletes `book:<id>` and every `books:` key, then refreshes `book:<id>`.
- A failed sweep still leaves the store updated and answers 500.
- `DeleteBook` removes only `book:<id>` and leaves list pages stale.
- The invariant `Service.ItemCoherent` says that every entry under a parsed
  identifier's key that decodes equals the stored document. Every handler of
  the corrected service preserves it. The code as written does not keep it:
  `UpdateBook` and `DeleteBook` remove only the key of the spelling they were
  given, so an entry cached through another spelling of the same id stays
  stale (`Scenarios.StaleReadThroughOtherSpelling` shows such a stale read).
- As written, a page far past the end can wrap the skip to 0, which serves
  the first page, or to a negative number, which the store rejects with a 500.

Behaviour of the code worth noting, all of it modelled as written:

- `GetBook` answers 404 for every `FindOne` error, a store outage included.
- `UpdateBook` answers 500 for a malformed id.
- `UpdateBook` answers 400 for a store error.
- `UpdateBook` answers 500 when the sweep fails, and reports no success for the store write it has already made.
- `CreateBook` invalidates only the literal key `books`.

Files: `wrappers.dfy` (Option), `strconv.dfy`, `objectid.dfy`, `models.dfy`,
`store.dfy`, `updatedto.dfy`, `query.dfy`, `keys.dfy`, `cache.dfy`,
`service.dfy` (the handlers), `scenarios.dfy` (client request sequences proved
from the handlers' contracts).

## Model

| member | source | states |
|---|---|---|
| Strconv.Atoi | controllers/book.go:20 | a result is in the 64-bit range; only an optional `+` or `-` followed by one or more digits can parse; plain and `+`-signed digits read as their value when at most 2^63-1, `-`-signed ones as the negated value when at least -2^63, and otherwise fail |
| Strconv.Decimal | controllers/book.go:33 | `%d` prints non-empty digits with no leading zero whose decimal value is the number |
| Strconv.AtoiDecimal | controllers/book.go:20-33 | reading back a printed number in range gives the number |
| Strconv.DecimalInjective | controllers/book.go:33 | two numbers print the same exactly when they are equal |
| ObjectIds.ParseObjectId | controllers/book.go:111-117 | an id parses exactly when it is 24 hex digits; the identifier is its lower-case spelling |
| ObjectIds.EmptyIsNotAnId | controllers/book.go:104-117 | the empty id never parses, so the separate empty check only picks the message |
| ObjectIds.ParseCanonical | controllers/book.go:111 | the canonical spelling of an identifier parses back to it |
| Store.PageIds | controllers/book.go:56-60 | a Find with skip and limit visits at most `limit` ids: those at positions `skip`, `skip+1`, … of the store order, and nothing past its end |
| Store.BooksOf | controllers/book.go:69-79 | the documents of a run of ids, position by position |
| Store.RemoveId | controllers/book.go:289 | after a delete the order holds every other id and no duplicates |
| Store.InsertKeepsConsistent | controllers/book.go:174 | inserting a document under a fresh id keeps every document under its own id, visited once |
| Store.DeleteKeepsConsistent | controllers/book.go:289 | deleting an id, present or not, keeps the store consistent |
| Store.ReplaceKeepsConsistent | controllers/book.go:227 | replacing a document by one with the same id keeps the store consistent |
| UpdateDto.SetDocument | dtos/updatebook.go:4-6 | the `$set` document names a field exactly when the DTO's value is non-empty, with that value |
| UpdateDto.Merge | controllers/book.go:227 | a non-empty title, author or year replaces the stored one, an empty one keeps it, and the id never changes |
| UpdateDto.MergeNeverClears | dtos/updatebook.go:4-6 | no update can clear a field to the empty string |
| UpdateDto.MergeEmpty | dtos/updatebook.go:3-7 | an all-empty DTO gives an empty `$set` and changes nothing |
| UpdateDto.MergeIdempotent | controllers/book.go:227 | applying a DTO twice equals applying it once |
| UpdateDto.MergeTitleOnly | dtos/updatebook.go:4 | `{"title":"New"}` on Old/X/2000 gives New/X/2000 |
| Query.Positive | controllers/book.go:20-28 | page and limit are at least 1 and at most the 64-bit maximum; a value that parses to at least 1 is kept, whatever its spelling (`+5`, `007`); otherwise the fallback is used |
| Query.PositiveOfDecimal | controllers/book.go:20-28 | any number from 1 to the 64-bit maximum is taken as written; the limit has no smaller cap |
| Query.PositiveFallback | controllers/book.go:21-27 | a parameter that does not parse or is below 1 gives the fallback |
| Query.Defaults | controllers/book.go:20-28 | missing parameters give page 1 and limit 10 |
| Query.Skip | controllers/book.go:30 | the skip is never negative and is 0 exactly for page 1 |
| Query.Int64Wrap | controllers/book.go:30 | Go's 64-bit result lies in the signed range, is congruent to the exact value modulo 2^64, and equals it when that fits |
| Query.WrappedSkip | controllers/book.go:30 | the handler's skip lies in the signed 64-bit range and is congruent to the exact `(page-1)*limit` modulo 2^64 |
| Query.WrappedSkipAgrees | controllers/book.go:30 | while `(page-1)*limit` fits in 64 bits the handler's skip is the exact one |
| Query.WrappedSkipNegative | controllers/book.go:30 | page 2^62+1 with limit 2 wraps the skip to -2^63 |
| Query.WrappedSkipDiverges | controllers/book.go:30-58 | page 2^62+1 with limit 4 wraps the skip to 0, so the first page is served instead of an empty one |
| Query.PagesTile | controllers/book.go:30-60 | pages 1 to k together are exactly the first k·limit documents of the order, with no gap or overlap |
| Query.ThreeBooksTwoPages | controllers/book.go:20-60 | with A, B, C stored, `page=1&limit=2` visits A, B and `page=2&limit=2` visits C |
| CacheKeys.ListKey | controllers/book.go:33 | a list key matches `books:*`, differs from `books`, and after the prefix is `<page>:<limit>` |
| CacheKeys.RawItemKey | controllers/book.go:120 | `"book:"+id` never matches `books:*`, differs from `books`, and carries the id after the prefix |
| CacheKeys.ItemKey | controllers/book.go:238 | the key from the parsed identifier has the same disjointness and carries the canonical id |
| CacheKeys.ListKeyInjective | controllers/book.go:33 | two list keys are equal exactly when their page and limit are |
| CacheKeys.KeyFamiliesDisjoint | controllers/book.go:184 | list keys, item keys and `books` are pairwise distinct, and `books` does not match `books:*` |
| CacheKeys.RawItemKeyAliases | controllers/book.go:120 | two spellings of one identifier give two raw cache keys |
| CacheKeys.ItemKeyPerDocument | controllers/book.go:111-120 | with keys from parsed identifiers, two ids share a key exactly when they name one document |
| Cache.EncodeList | controllers/book.go:89-91 | a cached list reads back as that list and never as a single book |
| Cache.EncodeBook | controllers/book.go:148-150 | a cached book reads back as that book and never as a list |
| Cache.WithoutListKeys | controllers/book.go:241-244 | the sweep removes exactly the keys matching `books:*` and keeps every other value |
| Cache.SweepIdempotent | controllers/book.go:241-244 | sweeping twice equals sweeping once |
| BookService.Service.Expire | controllers/book.go:91 | a TTL expiry removes one key and keeps every invariant |
| BookService.ReadCursor | controllers/book.go:69-86 | the cursor read fails exactly when a visited document does not decode, and otherwise gives the visited documents in order |
| BookService.Service.GetBooks | controllers/book.go:19-99 | a hit returns the cached list and changes nothing; a store or decode error, or a negative skip, is 500 with nothing cached; otherwise the page at the skip (`WrappedSkip` as written, `Skip` corrected) is returned with its count and, if SET succeeds, cached under its list key; the store never changes |
| BookService.Service.GetBook | controllers/book.go:101-157 | an empty or malformed id is 400 and touches nothing; a hit on the entry key (`"book:"+id` as written, the parsed identifier's key corrected) is served from the cache; a store miss or error is 404; a found book is returned and cached under the entry key; `ItemCoherent` is preserved, and in the corrected service every book served is the stored one |
| BookService.Service.CreateBook | controllers/book.go:159-190 | a bad body is 400 and an insert error is 500, both touching nothing; on success exactly one document is added under the new id, appended to the order, and only the key `books` is deleted |
| BookService.Service.SweepListKeys | controllers/book.go:241-251 | a completed scan removes exactly the `books:` keys; a failed one removes some of them and nothing else; it reports the failure |
| BookService.Service.UpdateBook | controllers/book.go:192-266 | the body is checked before the id; bad body 400, empty id 400, malformed id 500, store error 400, all touching nothing; otherwise the store applies the merge; on a sweep failure the answer is 500 with the entry key (`"book:"+id` as written) gone and only `books:` keys removed; on success the answer is 200 with matched and modified counts, every `books:` key is gone, and the entry key holds the updated book when re-read and SET succeed; the corrected service preserves `ItemCoherent` |
| BookService.Service.DeleteBook | controllers/book.go:268-306 | an empty or malformed id is 400 and a store error 500, touching nothing; otherwise the document leaves the store and the order, only the entry key (`"book:"+id` as written) leaves the cache, and the answer is 200 with the delete count; the corrected service preserves `ItemCoherent` |
| Scenarios.ListReadTwice | controllers/book.go:38-47 | a list read with a non-negative skip that filled the cache is answered again from it, store down or not |
| Scenarios.DeleteThenGet | controllers/book.go:289-300 | after a delete, a read through the same spelling is 404 and no entry remains under that spelling's key |
| Scenarios.UpdateThenGet | controllers/book.go:237-259 | a read right after a successful update shows the merged document |
| Scenarios.CreateThenGet | controllers/book.go:174-184 | a created book read back from the store carries the draft's fields |
| Scenarios.MalformedIdIsBadRequest | controllers/book.go:111-117 | `GET /books/not-a-valid-id` is 400 |
| Scenarios.StaleReadThroughOtherSpelling | controllers/book.go:120-130 | as written: GET `A00…0` fills `book:A00…0`; PUT `a00…0` then leaves it in place, so the next GET `A00…0` answers the book as it was before the update |
| Scenarios.FreshReadThroughOtherSpelling | controllers/book.go:237-259 | in the corrected service the same requests answer the merged document |
| Scenarios.FarPageServesFirstPage | controllers/book.go:30-60 | as written, page 2^62+1 with limit 4 and nothing cached answers the first four stored documents |
| Scenarios.NegativeSkipIsServerError | controllers/book.go:30-67 | as written, page 2^62+1 with limit 2 and nothing cached is 500 and caches nothing |
| Scenarios.FarPageIsEmptyWhenCorrected | controllers/book.go:30-60 | with the exact skip the same far page is an empty list |
| Scenarios.CreateLeavesListPages | controllers/book.go:184 | a create leaves every cached list page in place |
| Scenarios.DeleteLeavesListPages | controllers/book.go:298-300 | a delete leaves every cached list page in place |

## Findings

| source | as written | input that shows it | evidently intended | confidence | as-written member | corrected member |
|---|---|---|---|---|---|---|
| controllers/book.go:30 | `skip := (page - 1) * limit` in Go's 64-bit `int`, which wraps | `?page=4611686018427387905&limit=4`: both values parse, the product 2^64 wraps to skip 0, and the first four books are returned (and cached) for a page far past the end | the exact, non-negative offset, which gives an empty page | high that it wraps, not executed | Query.WrappedSkipDiverges | Query.Skip |
| controllers/book.go:120 | the single-book key is `"book:" + id` on the id as the client spelled it, while `ObjectIDFromHex` accepts either letter case | `A00000000000000000000000` and `a00000000000000000000000` name one document but get two keys; an update or delete through one spelling leaves the other key stale | one key per document, built from the parsed identifier (`objectId.Hex()`) | medium, not executed | CacheKeys.RawItemKeyAliases | CacheKeys.ItemKey |

A `BookService.Service` built with `corrected == false` runs both rows as
written: `GetBooks` skips `Query.WrappedSkip` documents, and `GetBook`,
`UpdateBook` and `DeleteBook` use `CacheKeys.RawItemKey` of the request id.
With `corrected == true` the service uses the corrected members `Query.Skip`
and `CacheKeys.ItemKey`. Only the corrected service preserves
`Service.ItemCoherent` across every handler.
With `limit == 2` the far page of the first row wraps the skip to -2^63 instead
(`Query.WrappedSkipNegative`). MongoDB rejects a negative skip, so the code
answers 500 (`Scenarios.NegativeSkipIsServerError`).

## Left out

- config/db.go, main.go and routes/book.go are not part of this model. They hold connection setup, environment loading, the listening port and the route table.
- Time: the 10-minute TTL is modelled only as `Service.Expire` removing one key. The 10-second store timeouts appear only as the failure parameters.
- Concurrency: each handler is one atomic step, so interleavings of concurrent requests are not modelled.
- Redis DEL can fail, and the handlers ignore its error. The model treats every DEL as succeeding, which keeps the postconditions exact.
- `json.Marshal` of books made of strings cannot fail, so the model always encodes. JSON text is abstracted to the value it encodes, and text that does not unmarshal is `Corrupt`.
- Response bodies keep the status, the data and the literal messages. They leave out the driver's error text and the exact JSON key names (`message` or `error`).
- `GetBooks` folds a failed `Find` and a cursor ending in an error (`res.Err()`) into one `storeOk` parameter. Both give 500 and write nothing.
- The order in which `Find` visits documents is unspecified in MongoDB. The model fixes one order, extends it on insert and keeps it across updates.
- `models.Book` and `dtos.CreateBookDto` are not part of this model. A book is its id plus title, author and year.
- An ObjectID is represented by its 24-digit lower-case hex spelling, not its 12 bytes. The driver is not part of this model, and `ParseObjectId` follows its documented rule.
- MongoDB servers before 5.0 reject an empty `$set`, and the server version is unknown. Such an error falls under `UpdateBook`'s `storeOk = false`.
- BookService.Service.UpdateBook: a SCAN failure is modelled as an error after some number of keys were handed out. Which keys were deleted by then is left unspecified.
