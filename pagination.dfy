/**
 * The arithmetic of `listUsers`: the page and limit it reads from the query string, the offset it
 * asks the store for, and the page count it reports.
 */
module Pagination {
  import opened Wrappers
  import opened Arith

  const DefaultPage: int := 1
  const DefaultLimit: int := 10

  /**
   * `parseInt(x) || fallback`, where `parsed` is what `parseInt` gives (`None` for NaN): NaN and 0
   * are falsy and give the fallback; every other number is kept, negative ones included.
   */
  function OrDefault(parsed: Option<int>, fallback: int): (r: int)
    ensures parsed.Some? && parsed.value != 0 ==> r == parsed.value
    ensures parsed.None? || parsed.value == 0 ==> r == fallback
    ensures fallback != 0 ==> r != 0
  {
    match parsed
    case Some(n) => if n != 0 then n else fallback
    case None => fallback
  }

  /** What `listUsers` computes before it queries: `page`, `limit` and `offset = (page - 1) * limit`. */
  datatype Window = Window(page: int, limit: int, offset: int)

  function PageWindow(pageArg: Option<int>, limitArg: Option<int>): (w: Window)
    ensures w.page != 0 && w.limit != 0
    ensures w.offset + w.limit == w.page * w.limit
  {
    var page := OrDefault(pageArg, DefaultPage);
    var limit := OrDefault(limitArg, DefaultLimit);
    Window(page, limit, (page - 1) * limit)
  }

  /** The largest `bigint`, the type PostgreSQL reads `LIMIT` and `OFFSET` parameters as. */
  const MaxBigint: int := 0x7FFF_FFFF_FFFF_FFFF

  /** PostgreSQL refuses `LIMIT $1 OFFSET $2` when either is negative or does not fit a `bigint`. */
  predicate Accepted(w: Window)
  {
    0 <= w.limit <= MaxBigint && 0 <= w.offset <= MaxBigint
  }

  /**
   * The query is accepted exactly when the limit is a positive `bigint` and the page lies between
   * 1 and the last page whose offset still fits a `bigint`.
   */
  lemma {:induction false} AcceptedIff(pageArg: Option<int>, limitArg: Option<int>)
    ensures var w := PageWindow(pageArg, limitArg);
      Accepted(w) <==> 1 <= w.limit <= MaxBigint && 1 <= w.page && w.page - 1 <= MaxBigint / w.limit
  {
    var w := PageWindow(pageArg, limitArg);
    if w.limit >= 1 && w.page < 1 {
      MulStrict(w.page - 1, 0, w.limit);
    }
    if w.limit >= 1 && w.page >= 1 {
      MulMono(0, w.page - 1, w.limit);
      OffsetBound(w.page - 1, w.limit);
    }
  }

  /** A whole number of pages fits below `MaxBigint` exactly when it is at most `MaxBigint / limit`. */
  lemma {:induction false} OffsetBound(pages: nat, limit: int)
    requires limit >= 1
    ensures pages * limit <= MaxBigint <==> pages <= MaxBigint / limit
  {
    var q := MaxBigint / limit;
    assert q * limit + MaxBigint % limit == MaxBigint;
    if pages <= q {
      MulMono(pages, q, limit);
    } else {
      MulMono(q + 1, pages, limit);
      assert (q + 1) * limit == q * limit + limit;
    }
  }

  /** `Math.ceil(total / limit)` for a positive limit: the fewest pages of `limit` rows that hold `total` rows. */
  function TotalPages(total: nat, limit: int): (r: nat)
    requires limit > 0
    ensures r * limit >= total
    ensures r > 0 ==> (r - 1) * limit < total
    ensures r == 0 <==> total == 0
  {
    if total == 0 then 0 else 1 + TotalPages(if total <= limit then 0 else total - limit, limit)
  }

  /** The answer of `listUsers` apart from the rows: `page`, `limit`, `total`, `totalPages`, and the offset used. */
  datatype Listing = Listing(page: int, limit: int, offset: nat, total: nat, totalPages: nat)

  /** The store raised an error for a LIMIT or OFFSET that is negative or overflows `bigint`; the handler answers 500. */
  datatype ListError = LimitOrOffsetOutOfRange

  /** `listUsers` with `total` rows in the table. */
  function ListPage(pageArg: Option<int>, limitArg: Option<int>, total: nat): (r: Result<Listing, ListError>)
    ensures var w := PageWindow(pageArg, limitArg);
      r.Success? <==> 1 <= w.limit <= MaxBigint && 1 <= w.page && w.page - 1 <= MaxBigint / w.limit
    ensures r.Success? ==>
      && r.value.page == OrDefault(pageArg, DefaultPage)
      && r.value.limit == OrDefault(limitArg, DefaultLimit)
      && r.value.offset == (r.value.page - 1) * r.value.limit
      && r.value.total == total
      && r.value.totalPages * r.value.limit >= total
      && (r.value.totalPages > 0 ==> (r.value.totalPages - 1) * r.value.limit < total)
  {
    var w := PageWindow(pageArg, limitArg);
    AcceptedIff(pageArg, limitArg);
    if Accepted(w) then Success(Listing(w.page, w.limit, w.offset, total, TotalPages(total, w.limit)))
    else Failure(LimitOrOffsetOutOfRange)
  }

  /** Without `page` and `limit` in the query, the first ten rows are asked for. */
  lemma {:induction false} DefaultWindow(total: nat)
    ensures ListPage(None, None, total) == Success(Listing(1, 10, 0, total, TotalPages(total, 10)))
  {
  }

  /** `?page=1&limit=10000000000000000000` and `?page=10000000000&limit=10000000000` overflow `bigint` and answer 500. */
  lemma {:induction false} OversizedWindowRefused(total: nat)
    ensures ListPage(Some(1), Some(10_000_000_000_000_000_000), total).Failure?
    ensures ListPage(Some(10_000_000_000), Some(10_000_000_000), total).Failure?
  {
  }

  /** An accepted offset is a whole number of pages: `page - 1` pages of `limit` rows. */
  lemma {:induction false} OffsetAligned(page: int, limit: int)
    requires page >= 1 && limit >= 1
    ensures var offset := (page - 1) * limit;
      offset >= 0 && offset % limit == 0 && offset / limit == page - 1
  {
    MulMono(0, page - 1, limit);
    MultipleDivMod(page - 1, limit);
  }

  lemma {:induction false} MultipleDivMod(q: int, l: int)
    requires l >= 1
    ensures (q * l) % l == 0 && (q * l) / l == q
  {
    var x := q * l;
    var d := q - x / l;
    assert d * l == x % l;
    if d >= 1 {
      MulMono(1, d, l);
    } else if d <= -1 {
      MulMono(d, -1, l);
    }
  }

  /** An accepted page holds rows exactly when it is one of the first `totalPages` pages. */
  lemma {:induction false} PageHasRows(page: int, limit: int, total: nat)
    requires page >= 1 && limit >= 1
    ensures (page - 1) * limit < total <==> page <= TotalPages(total, limit)
  {
    var t := TotalPages(total, limit);
    if page <= t {
      MulMono(page - 1, t - 1, limit);
    } else {
      MulMono(t, page - 1, limit);
    }
  }
}
