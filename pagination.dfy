/**
 * The page arithmetic of the manager's paginated reads: the defaults of the
 * `page` and `limit` query parameters, the `skip`/`take` window handed to the
 * store, the rows such a window selects, and `totalPages`.
 */
module Pagination {
  import opened Wrappers

  const DefaultPage: int := 1
  const DefaultLimit: int := 10

  /** `const { page = 1, limit = 10 } = req.query`: the default applies only to an absent parameter. */
  function ParamOr(param: Option<int>, default: int): int
  {
    if param.Some? then param.value else default
  }

  /** The `skip` and `take` of a `findMany`. */
  datatype Window = Window(skip: int, take: int)

  /** `skip: (page - 1) * limit, take: parseInt(limit)`. */
  function PageWindow(page: int, limit: int): (w: Window)
    ensures w.take == limit
    ensures page == 1 ==> w.skip == 0
    ensures limit > 0 ==> (w.skip >= 0 <==> page >= 1)
  {
    Window((page - 1) * limit, limit)
  }

  /** With no query parameters the first ten rows are asked for. */
  lemma DefaultWindow()
    ensures PageWindow(ParamOr(None, DefaultPage), ParamOr(None, DefaultLimit)) == Window(0, 10)
  {
  }

  /** Consecutive pages are adjacent: each starts where the one before it ends. */
  lemma PagesAdjacent(page: int, limit: int)
    ensures PageWindow(page + 1, limit).skip == PageWindow(page, limit).skip + PageWindow(page, limit).take
  {
    assert page * limit == (page - 1) * limit + limit;
  }

  /** `Math.floor(x / d)` for a non-zero integer divisor. */
  function FloorDiv(x: int, d: int): (q: int)
    requires d != 0
    ensures d > 0 ==> q * d <= x < (q + 1) * d
    ensures d < 0 ==> (q + 1) * d < x <= q * d
  {
    if d > 0 then x / d else (-x) / (-d)
  }

  /** `Math.ceil(x / d)` for a non-zero integer divisor. */
  function CeilDiv(x: int, d: int): (c: int)
    requires d != 0
    ensures d > 0 ==> (c - 1) * d < x <= c * d
    ensures d < 0 ==> c * d <= x < (c - 1) * d
  {
    -FloorDiv(-x, d)
  }

  /**
   * `totalPages: Math.ceil(total / limit)`. A zero limit makes the quotient
   * Infinity or NaN, which the JSON reply carries as null: None here.
   */
  function TotalPages(total: nat, limit: int): (pages: Option<int>)
    ensures pages.None? <==> limit == 0
    ensures limit > 0 ==> pages.value >= 0 && (total == 0 <==> pages.value == 0)
  {
    if limit == 0 then None else Some(CeilDiv(total, limit))
  }

  lemma MulMono(a: int, b: int, c: int)
    requires a <= b && c >= 0
    ensures a * c <= b * c
  {
    assert b * c - a * c == (b - a) * c;
  }

  /** With a positive limit, page p (from 1) has rows exactly when p <= totalPages. */
  lemma {:induction false} PageHasRowsIff(total: nat, page: int, limit: int)
    requires limit > 0 && page >= 1
    ensures PageWindow(page, limit).skip < total <==> page <= TotalPages(total, limit).value
  {
    var pages := TotalPages(total, limit).value;
    if page <= pages {
      MulMono(page - 1, pages - 1, limit);
    } else {
      MulMono(pages, page - 1, limit);
    }
  }

  /** With a positive limit, row k is on page k / limit + 1, and that page is within totalPages. */
  lemma {:induction false} RowOnPage(total: nat, limit: int, k: nat)
    requires limit > 0 && k < total
    ensures var page := FloorDiv(k, limit) + 1;
      1 <= page <= TotalPages(total, limit).value &&
      PageWindow(page, limit).skip <= k < PageWindow(page, limit).skip + PageWindow(page, limit).take
  {
    var q := FloorDiv(k, limit);
    assert q >= 0 by {
      if q < 0 {
        MulMono(q + 1, 0, limit);
      }
    }
    PageHasRowsIff(total, q + 1, limit);
  }

  /**
   * The rows a window selects. Prisma refuses a negative `skip`; a negative
   * `take`, which Prisma reads as paging backwards, is refused here as well.
   */
  function Slice<T>(rows: seq<T>, w: Window): (r: Option<seq<T>>)
    ensures r.Some? <==> w.skip >= 0 && w.take >= 0
    ensures r.Some? ==> |r.value| <= w.take
    ensures r.Some? ==> forall k :: 0 <= k < |r.value| ==> w.skip + k < |rows| && r.value[k] == rows[w.skip + k]
    ensures r.Some? && |r.value| < w.take ==> w.skip + |r.value| >= |rows|
  {
    if w.skip < 0 || w.take < 0 then None
    else
      var lo := if w.skip < |rows| then w.skip else |rows|;
      var hi := if w.skip + w.take < |rows| then w.skip + w.take else |rows|;
      Some(rows[lo..hi])
  }
}
