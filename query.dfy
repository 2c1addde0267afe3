/**
 * `GetBooks`' query handling: reading `page` and `limit`, falling back to the
 * defaults, and the number of documents to skip.
 */
module Query {
  import opened Wrappers
  import opened Strconv
  import opened Store

  /** `ctx.Query(key, default)`: a missing or empty parameter reads as the default. */
  function QueryOr(raw: string, default: string): string {
    if raw == "" then default else raw
  }

  /** Parse a query parameter; keep it when it is a number of at least 1,
      otherwise use the fallback. */
  function Positive(raw: string, default: string, fallback: int): (r: int)
    requires 1 <= fallback <= MaxInt64
    ensures 1 <= r <= MaxInt64
    ensures r == fallback || Atoi(QueryOr(raw, default)) == Some(r)
    ensures var v := Atoi(QueryOr(raw, default)); v.Some? && v.value >= 1 ==> r == v.value
  {
    match Atoi(QueryOr(raw, default))
    case Some(v) => if v < 1 then fallback else v
    case None => fallback
  }

  function NormalizedPage(raw: string): int { Positive(raw, "1", 1) }

  function NormalizedLimit(raw: string): int { Positive(raw, "10", 10) }

  /** Any number from 1 up to the 64-bit maximum is taken as written; in
      particular the limit has no upper bound of its own. */
  lemma PositiveOfDecimal(n: nat, default: string, fallback: int)
    requires 1 <= n <= MaxInt64 && 1 <= fallback <= MaxInt64
    ensures Positive(Decimal(n), default, fallback) == n
  {
    AtoiDecimal(n);
  }

  /** A parameter that does not parse, or parses below 1, gives the fallback. */
  lemma PositiveFallback(raw: string, default: string, fallback: int)
    requires 1 <= fallback <= MaxInt64
    requires raw != ""
    requires Atoi(raw).None? || Atoi(raw).value < 1
    ensures Positive(raw, default, fallback) == fallback
  {
  }

  /** Missing parameters give page 1 and limit 10. */
  lemma Defaults()
    ensures NormalizedPage("") == 1
    ensures NormalizedLimit("") == 10
  {
    assert Decimal(1) == "1";
    assert Decimal(10) == "10";
    PositiveOfDecimal(1, "1", 1);
    PositiveOfDecimal(10, "10", 10);
  }

  /** `(page - 1) * limit` over unbounded integers: the first page skips
      nothing and every later page skips something. */
  function Skip(page: int, limit: int): (r: int)
    requires page >= 1 && limit >= 1
    ensures r >= 0
    ensures r == 0 <==> page == 1
  {
    (page - 1) * limit
  }

  /** Go's `int` arithmetic on a 64-bit platform: the result reduced into the
      signed 64-bit range. */
  function Int64Wrap(x: int): (r: int)
    ensures MinInt64 <= r <= MaxInt64
    ensures MinInt64 <= x <= MaxInt64 ==> r == x
    ensures (r - x) % 0x1_0000_0000_0000_0000 == 0
  {
    (x - MinInt64) % 0x1_0000_0000_0000_0000 + MinInt64
  }

  /** `skip := (page - 1) * limit` as the handler computes it. */
  function WrappedSkip(page: int, limit: int): (r: int)
    ensures MinInt64 <= r <= MaxInt64
    ensures (r - (page - 1) * limit) % 0x1_0000_0000_0000_0000 == 0
  {
    Int64Wrap((page - 1) * limit)
  }

  /** While the product fits in 64 bits the two computations agree. */
  lemma WrappedSkipAgrees(page: int, limit: int)
    requires page >= 1 && limit >= 1
    requires (page - 1) * limit <= MaxInt64
    ensures WrappedSkip(page, limit) == Skip(page, limit)
  {
  }

  /** Page 2^62 + 1 with limit 4, both accepted by the query parsing, wraps
      the skip to 0: the response for a page far past the end is the first
      page instead of an empty list. */
  lemma WrappedSkipDiverges<T>(order: seq<T>, page: nat, limit: nat)
    requires page == 0x4000_0000_0000_0001 && limit == 4
    requires |order| <= 0x1_0000_0000_0000_0000
    ensures NormalizedPage(Decimal(page)) == page && NormalizedLimit(Decimal(limit)) == limit
    ensures WrappedSkip(page, limit) == 0
    ensures PageIds(order, Skip(page, limit), limit) == []
    ensures PageIds(order, WrappedSkip(page, limit), limit) == order[..Min(4, |order|)]
  {
    PositiveOfDecimal(page, "1", 1);
    PositiveOfDecimal(limit, "10", 10);
    WrapOfTwoTo64();
  }

  lemma WrapOfTwoTo64()
    ensures Int64Wrap(0x1_0000_0000_0000_0000) == 0
  {
    var m := 0x1_0000_0000_0000_0000;
    assert m - MinInt64 == m + 0x8000_0000_0000_0000;
    assert (m + 0x8000_0000_0000_0000) % m == 0x8000_0000_0000_0000;
  }

  /** Page 2^62 + 1 with limit 2 wraps the skip to the most negative `int`. */
  lemma WrappedSkipNegative()
    ensures WrappedSkip(0x4000_0000_0000_0001, 2) == MinInt64
  {
    var m := 0x1_0000_0000_0000_0000;
    assert (0x4000_0000_0000_0001 - 1) * 2 == 0x8000_0000_0000_0000;
    assert 0x8000_0000_0000_0000 - MinInt64 == m;
    assert m % m == 0;
  }

  /** Pages 1 to k, one after the other. */
  function FirstPages<T>(order: seq<T>, limit: nat, k: nat): seq<T>
    requires limit >= 1
  {
    if k == 0 then [] else FirstPages(order, limit, k - 1) + PageIds(order, Skip(k, limit), limit)
  }

  /** The pages tile the visiting order: pages 1 to k are exactly its first
      k * limit documents, with no gap and no overlap. */
  lemma {:induction false} PagesTile<T>(order: seq<T>, limit: nat, k: nat)
    requires limit >= 1
    ensures FirstPages(order, limit, k) == order[..Min(k * limit, |order|)]
  {
    if k > 0 {
      PagesTile(order, limit, k - 1);
      var before := (k - 1) * limit;
      assert before + limit == k * limit by { MulSucc(k - 1, limit); }
      var lo, hi := Min(before, |order|), Min(before + limit, |order|);
      assert PageIds(order, Skip(k, limit), limit) == order[lo..hi];
      assert order[..lo] + order[lo..hi] == order[..hi];
    }
  }

  lemma MulSucc(k: nat, limit: nat)
    ensures k * limit + limit == (k + 1) * limit
  {
  }

  /** Three documents A, B, C: `?page=1&limit=2` visits A and B, `?page=2&limit=2` visits C. */
  lemma ThreeBooksTwoPages<T>(a: T, b: T, c: T)
    ensures var limit := NormalizedLimit(Decimal(2));
            && limit == 2
            && PageIds([a, b, c], Skip(NormalizedPage(Decimal(1)), limit), limit) == [a, b]
            && PageIds([a, b, c], Skip(NormalizedPage(Decimal(2)), limit), limit) == [c]
  {
    PositiveOfDecimal(2, "10", 10);
    PositiveOfDecimal(1, "1", 1);
    PositiveOfDecimal(2, "1", 1);
  }
}
