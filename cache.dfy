/**
 * What Redis holds. A value is the JSON text the handlers wrote, abstracted
 * to the payload it encodes, or `Corrupt` for text that does not unmarshal.
 */
module Cache {
  import opened Wrappers
  import opened Models
  import opened CacheKeys

  datatype Payload = BookList(books: seq<Book>) | SingleBook(book: Book)

  datatype Entry = Cached(payload: Payload) | Corrupt

  /** `json.Unmarshal` into `[]models.Book`: an object or corrupt text fails. */
  function DecodeList(e: Entry): Option<seq<Book>> {
    if e.Cached? && e.payload.BookList? then Some(e.payload.books) else None
  }

  /** `json.Unmarshal` into `models.Book`: an array or corrupt text fails. */
  function DecodeBook(e: Entry): Option<Book> {
    if e.Cached? && e.payload.SingleBook? then Some(e.payload.book) else None
  }

  /** `json.Marshal` of a list; it reads back as that list and never as a single book. */
  function EncodeList(books: seq<Book>): (e: Entry)
    ensures DecodeList(e) == Some(books)
    ensures DecodeBook(e).None?
  {
    Cached(BookList(books))
  }

  /** `json.Marshal` of one book; it reads back as that book and never as a list. */
  function EncodeBook(b: Book): (e: Entry)
    ensures DecodeBook(e) == Some(b)
    ensures DecodeList(e).None?
  {
    Cached(SingleBook(b))
  }

  function ListKeysOf(cache: map<string, Entry>): set<string> {
    set k | k in cache && IsListKey(k)
  }

  /** The cache once every key matching `books:*` is deleted. */
  function WithoutListKeys(cache: map<string, Entry>): (r: map<string, Entry>)
    ensures forall k :: k in r <==> k in cache && !IsListKey(k)
    ensures forall k :: k in r ==> r[k] == cache[k]
  {
    cache - ListKeysOf(cache)
  }

  /** Sweeping twice leaves the same cache as sweeping once. */
  lemma SweepIdempotent(cache: map<string, Entry>)
    ensures WithoutListKeys(WithoutListKeys(cache)) == WithoutListKeys(cache)
  {
  }
}
