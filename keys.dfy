/**
 * The cache keys: `books:<page>:<limit>` for a list page, `book:<id>` for a
 * single document, and the literal `books` that `CreateBook` deletes.
 */
module CacheKeys {
  import opened Wrappers
  import opened Strconv
  import opened ObjectIds

  const ListPrefix := "books:"
  const CreateKey := "books"

  /** Matched by the pattern `books:*` of the update's SCAN. */
  predicate IsListKey(k: string) {
    |k| >= |ListPrefix| && k[..|ListPrefix|] == ListPrefix
  }

  /** `fmt.Sprintf("books:%d:%d", page, limit)`. */
  function ListKey(page: nat, limit: nat): (k: string)
    ensures IsListKey(k)
    ensures k != CreateKey
    ensures k[|ListPrefix|..] == Decimal(page) + ":" + Decimal(limit)
  {
    var k := ListPrefix + Decimal(page) + ":" + Decimal(limit);
    assert k[..|ListPrefix|] == ListPrefix;
    k
  }

  /** `"book:" + id` on the id string exactly as the request spelled it. */
  function RawItemKey(id: string): (k: string)
    ensures !IsListKey(k)
    ensures k != CreateKey
    ensures |k| == 5 + |id| && k[..5] == "book:" && k[5..] == id
  {
    var k := "book:" + id;
    assert k[4] == ':';
    assert |k| >= 6 ==> k[..6][4] == ':';
    k
  }

  /** The single-document key built from the parsed identifier's canonical
      spelling (`objectId.Hex()`), so that one document has one key. */
  function ItemKey(oid: ObjectId): (k: string)
    ensures !IsListKey(k)
    ensures k != CreateKey
    ensures |k| == 5 + |oid| && k[5..] == oid
  {
    RawItemKey(oid)
  }

  /** In `a:b` the first colon sits right after `a`. */
  lemma ColonPosition(a: string, b: string, c: string, d: string)
    requires ':' !in a && ':' !in c
    ensures a + ":" + b == c + ":" + d ==> |a| == |c|
  {
    var s, t := a + ":" + b, c + ":" + d;
    if |a| < |c| {
      assert s[|a|] == ':' && t[|a|] == c[|a|];
      assert s[|a|] != t[|a|];
    } else if |c| < |a| {
      assert t[|c|] == ':' && s[|c|] == a[|c|];
      assert s[|c|] != t[|c|];
    }
  }

  lemma ColonSplit(a: string, b: string, c: string, d: string)
    requires ':' !in a && ':' !in c
    requires a + ":" + b == c + ":" + d
    ensures a == c && b == d
  {
    ColonPosition(a, b, c, d);
    var s := a + ":" + b;
    assert a == s[..|a|] == c;
    assert b == s[|a| + 1..] == d;
  }

  /** Distinct page/limit pairs never share a cache entry. */
  lemma ListKeyInjective(p1: nat, l1: nat, p2: nat, l2: nat)
    ensures ListKey(p1, l1) == ListKey(p2, l2) <==> p1 == p2 && l1 == l2
  {
    if ListKey(p1, l1) == ListKey(p2, l2) {
      DigitsHaveNoColon(Decimal(p1));
      DigitsHaveNoColon(Decimal(p2));
      ColonSplit(Decimal(p1), Decimal(l1), Decimal(p2), Decimal(l2));
      DecimalInjective(p1, p2);
      DecimalInjective(l1, l2);
    }
  }

  /** The three key families are pairwise disjoint: the `books:*` sweep never
      touches a single-document key, and the key `CreateBook` deletes is
      neither a list key nor a document key. */
  lemma KeyFamiliesDisjoint(page: nat, limit: nat, id: string)
    ensures ListKey(page, limit) != RawItemKey(id)
    ensures !IsListKey(CreateKey)
    ensures CreateKey != RawItemKey(id) && CreateKey != ListKey(page, limit)
  {
  }

  /** As written, two spellings of one identifier give two cache keys. */
  lemma RawItemKeyAliases()
    ensures var upper, lower := "A00000000000000000000000", "a00000000000000000000000";
            && ParseObjectId(upper).Some?
            && ParseObjectId(upper) == ParseObjectId(lower)
            && RawItemKey(upper) != RawItemKey(lower)
  {
    var upper, lower := "A00000000000000000000000", "a00000000000000000000000";
    assert |upper| == 24 && |lower| == 24;
    assert forall i :: 1 <= i < 24 ==> upper[i] == lower[i] == '0';
    var pu, pl := ParseObjectId(upper), ParseObjectId(lower);
    assert pu.Some? && pl.Some?;
    assert pu.value[0] == pl.value[0] == 'a';
    assert pu.value == pl.value;
    assert RawItemKey(upper)[5] != RawItemKey(lower)[5];
  }

  /** With the key built from the parsed identifier, two request ids share a
      cache entry exactly when they name the same document. */
  lemma ItemKeyPerDocument(a: string, b: string)
    requires ParseObjectId(a).Some? && ParseObjectId(b).Some?
    ensures ItemKey(ParseObjectId(a).value) == ItemKey(ParseObjectId(b).value)
            <==> ParseObjectId(a) == ParseObjectId(b)
  {
    var ka, kb := ItemKey(ParseObjectId(a).value), ItemKey(ParseObjectId(b).value);
    if ka == kb {
      assert ka[5..] == kb[5..];
    }
  }
}
