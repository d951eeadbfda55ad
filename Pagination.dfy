/** The pagination arithmetic shared by the list endpoints
    (`GET /api/payments`, `GET /api/loans`, `GET /api/loan-applications`):
    `skip = (page - 1) * limit`, `take = limit`, `pages = Math.ceil(total / limit)`. */
module Pagination {
  import opened Common

  function Skip(page: int, limit: int): int {
    (page - 1) * limit
  }

  /** `Math.ceil(total / limit)` for a non-zero integer limit, computed
      exactly on integers (Dafny's `/` rounds towards negative infinity here). */
  function CeilDiv(total: int, limit: int): int
    requires limit != 0
  {
    if limit > 0 then -((-total) / limit) else -(total / (-limit))
  }

  /** `Math.ceil(total / limit)`; a zero limit gives Infinity or NaN, modelled as None. */
  function Pages(total: nat, limit: int): (p: Option<int>)
    ensures p.Some? <==> limit != 0
  {
    if limit == 0 then None else Some(CeilDiv(total, limit))
  }

  lemma MulMonotone(a: int, b: int, l: int)
    requires a <= b && l > 0
    ensures a * l <= b * l
  {
  }

  /** For a positive limit, `pages` is the least number of pages of `limit`
      rows that holds all `total` rows. */
  lemma PagesIsLeastCover(total: nat, limit: int)
    requires limit > 0
    ensures Pages(total, limit).Some?
    ensures var p := Pages(total, limit).value;
            p >= 0 && (p - 1) * limit < total <= p * limit
  {
    var t: int := total;
    var q, r := (-t) / limit, (-t) % limit;
    assert -t == q * limit + r && 0 <= r < limit;
    var p := -q;
    assert p * limit == -(q * limit);
    assert (p - 1) * limit == p * limit - limit;
    if p < 0 {
      MulMonotone(p, -1, limit);
    }
  }

  /** The rows the store returns for `skip`/`take`; a negative skip or limit
      is outside the model and gives None. */
  function PageRows<T>(rows: seq<T>, page: int, limit: int): (r: Option<seq<T>>)
    ensures r.Some? <==> Skip(page, limit) >= 0 && limit >= 0
    ensures r.Some? ==> |r.value| <= limit
    ensures r.Some? ==> forall i :: 0 <= i < |r.value| ==>
              Skip(page, limit) + i < |rows| && r.value[i] == rows[Skip(page, limit) + i]
  {
    var skip := Skip(page, limit);
    if skip < 0 || limit < 0 then None
    else if skip >= |rows| then Some([])
    else if skip + limit <= |rows| then Some(rows[skip..skip + limit])
    else Some(rows[skip..])
  }

  /** Row `k` is shown on page `k / limit + 1`, at position `k % limit`, and
      that page is one of the `pages` announced. */
  lemma RowOnItsPage<T>(rows: seq<T>, limit: int, k: int)
    requires limit > 0 && 0 <= k < |rows|
    ensures var page := k / limit + 1;
            && PageRows(rows, page, limit).Some?
            && k % limit < |PageRows(rows, page, limit).value|
            && PageRows(rows, page, limit).value[k % limit] == rows[k]
            && 1 <= page <= Pages(|rows|, limit).value
  {
    var page := k / limit + 1;
    var skip := Skip(page, limit);
    assert skip == (k / limit) * limit;
    assert skip + k % limit == k;
    MulMonotone(0, k / limit, limit);
    assert 0 <= skip <= k < |rows|;
    var r := PageRows(rows, page, limit);
    assert r.Some? && |r.value| == (if skip + limit <= |rows| then limit else |rows| - skip);
    PagesIsLeastCover(|rows|, limit);
    var p := Pages(|rows|, limit).value;
    if p < page {
      MulMonotone(p, k / limit, limit);
    }
  }

  /** A page holds only rows of its input, so whatever holds of every row
      holds of every row on the page. */
  lemma PageRowsKeep<T>(rows: seq<T>, page: int, limit: int, p: T -> bool)
    requires forall i :: 0 <= i < |rows| ==> p(rows[i])
    ensures PageRows(rows, page, limit).Some? ==>
              forall i :: 0 <= i < |PageRows(rows, page, limit).value| ==> p(PageRows(rows, page, limit).value[i])
  {
  }

  /** The `{ rows, pagination: { page, limit, total, pages } }` body of a list
      endpoint, given the rows matching its `where` in the store's order. */
  datatype Listing<T> = Listing(rows: Option<seq<T>>, page: int, limit: int, total: nat, pages: Option<int>)

  function List<T>(matching: seq<T>, page: int, limit: int): Listing<T> {
    Listing(PageRows(matching, page, limit), page, limit, |matching|, Pages(|matching|, limit))
  }
}
