/** The offset pagination shared by every listing of the catalogue and of
    the users: a request names a 1-based `page` and a page size `limit`; the
    store skips `(page - 1) * limit` results and returns at most `limit`;
    the reply carries a `pagination` record computed from the total count. */
module Pagination {

  /** The `pagination` object of a listing reply. */
  datatype PageInfo = PageInfo(currentPage: int, totalPages: nat, total: nat, hasNext: bool, hasPrev: bool)

  /** `Math.ceil(total / limit)` for a positive `limit`. */
  function CeilDiv(total: nat, limit: int): (r: nat)
    requires limit >= 1
    ensures total <= r * limit
    ensures r > 0 ==> (r - 1) * limit < total
  {
    if total == 0 then 0 else 1 + CeilDiv(if total >= limit then total - limit else 0, limit)
  }

  /** `const skip = (page - 1) * limit`: the number of results before page
      `page`; the next page starts `limit` results later. */
  function Skip(page: int, limit: int): (r: int)
    ensures r + limit == page * limit
    ensures page >= 1 && limit >= 0 ==> r >= 0
  {
    (page - 1) * limit
  }

  /** The `pagination` record built from `page`, `limit` and the total count. */
  function Paginate(total: nat, page: int, limit: int): (p: PageInfo)
    requires limit >= 1
    ensures p.currentPage == page && p.total == total
    ensures p.totalPages == CeilDiv(total, limit)
    ensures p.hasNext <==> page * limit < total
    ensures p.hasPrev <==> page > 1
  {
    PageInfo(page, CeilDiv(total, limit), total, page * limit < total, page > 1)
  }

  /** `.skip(skip).limit(limit)` applied to the ordered matches of a query. */
  function Window<T>(matches: seq<T>, page: int, limit: int): (w: seq<T>)
    requires page >= 1 && limit >= 1
    ensures |w| <= limit
    ensures forall k :: 0 <= k < |w| ==> Skip(page, limit) + k < |matches| && w[k] == matches[Skip(page, limit) + k]
  {
    var from := Skip(page, limit);
    if from >= |matches| then []
    else if from + limit <= |matches| then matches[from..from + limit]
    else matches[from..]
  }

  /** Page `page` holds the `limit` results that follow the first `(page - 1) * limit`,
      cut short only by the end of the matches. */
  lemma WindowLength<T>(matches: seq<T>, page: int, limit: int)
    requires page >= 1 && limit >= 1
    ensures |Window(matches, page, limit)| ==
            if Skip(page, limit) >= |matches| then 0
            else if Skip(page, limit) + limit <= |matches| then limit
            else |matches| - Skip(page, limit)
  {
  }

  /** `hasNext` is exactly "the current page is not the last one". */
  lemma {:induction false} HasNextIffBeforeLastPage(total: nat, page: int, limit: int)
    requires page >= 1 && limit >= 1
    ensures Paginate(total, page, limit).hasNext <==> page < Paginate(total, page, limit).totalPages
  {
    var t := CeilDiv(total, limit);
    if page < t {
      MultiplyMonotone(page, t - 1, limit);
    } else {
      MultiplyMonotone(t, page, limit);
    }
  }

  /** `hasNext` says that the next page of the same query is not empty. */
  lemma {:induction false} HasNextIffNextPageNonEmpty<T>(matches: seq<T>, page: int, limit: int)
    requires page >= 1 && limit >= 1
    ensures Paginate(|matches|, page, limit).hasNext <==> |Window(matches, page + 1, limit)| > 0
  {
    assert Skip(page + 1, limit) == page * limit;
    WindowLength(matches, page + 1, limit);
  }

  /** Every page from 1 to `totalPages` holds at least one result. */
  lemma {:induction false} PagesUpToTotalAreNonEmpty<T>(matches: seq<T>, page: int, limit: int)
    requires limit >= 1 && 1 <= page <= Paginate(|matches|, 1, limit).totalPages
    ensures |Window(matches, page, limit)| > 0
  {
    var t := CeilDiv(|matches|, limit);
    MultiplyMonotone(page - 1, t - 1, limit);
    WindowLength(matches, page, limit);
  }

  lemma MultiplyMonotone(a: int, b: int, c: int)
    requires a <= b && c >= 0
    ensures a * c <= b * c
  {
    assert (b - a) * c >= 0;
  }
}
