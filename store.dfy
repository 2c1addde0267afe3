/**
 * The `books` collection seen as a map from identifier to document together
 * with the order in which `Find` visits the documents. MongoDB leaves that
 * order unspecified; the model fixes one and keeps it across updates.
 */
module Store {
  import opened ObjectIds
  import opened Models

  function Min(a: int, b: int): int { if a <= b then a else b }

  predicate Distinct<T(==)>(s: seq<T>) {
    forall i, j :: 0 <= i < j < |s| ==> s[i] != s[j]
  }

  /** Every document is stored under its own identifier and visited exactly once. */
  predicate StoreConsistent(store: map<ObjectId, Book>, order: seq<ObjectId>) {
    && Distinct(order)
    && (forall i :: 0 <= i < |order| ==> order[i] in store)
    && (forall id :: id in store ==> id in order && store[id].id == id)
  }

  /** The identifiers a `Find` with `SetSkip(skip)` and `SetLimit(limit)` visits. */
  function PageIds<T>(order: seq<T>, skip: nat, limit: nat): (r: seq<T>)
    ensures |r| <= limit
    ensures skip <= |order| ==> |r| == Min(limit, |order| - skip)
    ensures skip >= |order| ==> r == []
    ensures forall i :: 0 <= i < |r| ==> skip + i < |order| && r[i] == order[skip + i]
  {
    order[Min(skip, |order|)..Min(skip + limit, |order|)]
  }

  /** No identifier of the run names a document that fails to decode. */
  predicate AllDecodable(ids: seq<ObjectId>, undecodable: set<ObjectId>) {
    forall i :: 0 <= i < |ids| ==> ids[i] !in undecodable
  }

  /** The documents for a run of identifiers, in that order. */
  function BooksOf(store: map<ObjectId, Book>, ids: seq<ObjectId>): (r: seq<Book>)
    requires forall i :: 0 <= i < |ids| ==> ids[i] in store
    ensures |r| == |ids|
    ensures forall i :: 0 <= i < |ids| ==> r[i] == store[ids[i]]
  {
    if ids == [] then [] else BooksOf(store, ids[..|ids| - 1]) + [store[ids[|ids| - 1]]]
  }

  /** The visiting order once `DeleteOne` has removed a document. */
  function RemoveId(order: seq<ObjectId>, id: ObjectId): (r: seq<ObjectId>)
    ensures forall x :: x in r <==> x in order && x != id
    ensures Distinct(order) ==> Distinct(r)
    ensures |r| <= |order|
  {
    if order == [] then []
    else if order[0] == id then RemoveId(order[1..], id)
    else
      var rest := RemoveId(order[1..], id);
      assert Distinct(order) ==> order[0] !in order[1..];
      [order[0]] + rest
  }

  /** `InsertOne` of a fresh document keeps the store consistent. */
  lemma InsertKeepsConsistent(store: map<ObjectId, Book>, order: seq<ObjectId>, b: Book)
    requires StoreConsistent(store, order)
    requires b.id !in store
    ensures StoreConsistent(store[b.id := b], order + [b.id])
  {
    var order' := order + [b.id];
    assert b.id !in order;
    forall i, j | 0 <= i < j < |order'| ensures order'[i] != order'[j] {
      if j == |order| { assert order'[i] == order[i]; }
    }
  }

  /** `DeleteOne` keeps the store consistent, whether or not the document existed. */
  lemma DeleteKeepsConsistent(store: map<ObjectId, Book>, order: seq<ObjectId>, id: ObjectId)
    requires StoreConsistent(store, order)
    ensures StoreConsistent(store - {id}, RemoveId(order, id))
  {
    var r := RemoveId(order, id);
    forall i | 0 <= i < |r| ensures r[i] in store - {id} {
      assert r[i] in r;
    }
  }

  /** Replacing a document by one with the same identifier keeps the store consistent. */
  lemma ReplaceKeepsConsistent(store: map<ObjectId, Book>, order: seq<ObjectId>, b: Book)
    requires StoreConsistent(store, order)
    requires b.id in store
    ensures StoreConsistent(store[b.id := b], order)
  {
  }
}
