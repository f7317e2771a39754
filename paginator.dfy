/**
 * The paginated fetch of the tracker client: page 0 is fetched to learn the
 * total, then pages 1 .. ceil(total / size) - 1 are fetched in order, their
 * items appended to one list, and the loop stops at the first response that
 * is not 200.
 *
 * The HTTP call is an oracle: `respond` maps the query dict sent to the
 * response the server gives (status code, the "total" of its JSON body and
 * its "items", which are opaque here).
 */
module Paginator {
  import opened Wrappers
  import opened RequestBuilder

  const StatusOk: int := 200

  datatype Response<T> = Response(status: int, total: int, items: seq<T>)

  /** The dict fetch_data returns: {"total": ..., "items": ...}. */
  datatype Aggregate<T> = Aggregate(total: int, items: seq<T>)

  /** math.ceil(a / b) for a positive divisor, computed exactly. */
  function CeilDiv(a: int, b: int): (r: int)
    requires b > 0
    ensures (r - 1) * b < a <= r * b
  {
    var q := (-a) / b;
    assert b * q <= -a < b * q + b;
    -q
  }

  /** The page size the query asks for. */
  function PageSize(p: Params): (n: int)
    requires HasPageSize(p)
    ensures n > 0
  {
    p[Size].n
  }

  /** The query with its "page" entry set. */
  function WithPage(p: Params, page: int): (r: Params)
    ensures Page in r && r[Page] == Int(page)
  {
    p[Page := Int(page)]
  }

  /** Setting the page changes the query at "page" only. */
  lemma WithPageChangesPageOnly(p: Params, page: int)
    ensures WithPage(p, page).Keys == p.Keys + {Page}
    ensures WithPage(p, page)[Page] == Int(page)
    ensures forall k :: k in p && k != Page ==> WithPage(p, page)[k] == p[k]
  {
  }

  /** Setting the page again overwrites the earlier setting. */
  lemma WithPageTwice(p: Params, a: int, b: int)
    ensures WithPage(p, a)[Page := Int(b)] == WithPage(p, b)
  {
    assert WithPage(p, a)[Page := Int(b)] == p[Page := Int(b)];
  }

  predicate PageOk<T>(respond: Params -> Response<T>, p: Params, page: int)
  {
    respond(WithPage(p, page)).status == StatusOk
  }

  function PageItemsAt<T>(respond: Params -> Response<T>, p: Params, page: int): (s: seq<T>)
  {
    respond(WithPage(p, page)).items
  }

  /** The first page in [lo, n) whose response is not 200, or the end of the
      range (lo itself when the range is empty) if there is none. */
  function FirstFailure<T>(respond: Params -> Response<T>, p: Params, lo: int, n: int): (k: int)
    ensures lo <= k
    ensures k <= n || k == lo
    ensures forall j :: lo <= j < k ==> PageOk(respond, p, j)
    ensures k < n ==> !PageOk(respond, p, k)
    decreases n - lo
  {
    if lo >= n then lo
    else if PageOk(respond, p, lo) then FirstFailure(respond, p, lo + 1, n)
    else lo
  }

  /** The items of pages lo .. hi - 1, concatenated in page order. */
  function PageItems<T>(respond: Params -> Response<T>, p: Params, lo: int, hi: int): (s: seq<T>)
    decreases hi - lo
  {
    if hi <= lo then [] else PageItems(respond, p, lo, hi - 1) + PageItemsAt(respond, p, hi - 1)
  }

  /** The queries for pages lo .. hi - 1, in page order. */
  function Requests(p: Params, lo: int, hi: int): (s: seq<Params>)
    ensures |s| == if hi <= lo then 0 else hi - lo
    decreases hi - lo
  {
    if hi <= lo then [] else Requests(p, lo, hi - 1) + [WithPage(p, hi - 1)]
  }

  /** What one call of fetch_data does: its return value, the queries it sends
      (in order) and the page it leaves in the caller's dict. */
  datatype Run<T> = Run(result: Option<Aggregate<T>>, sent: seq<Params>, lastPage: int)

  /** The number of pages the first response announces. */
  function TotalPages<T>(respond: Params -> Response<T>, p: Params): (n: int)
    requires HasPageSize(p)
  {
    CeilDiv(respond(WithPage(p, 0)).total, PageSize(p))
  }

  /** The specification of fetch_data. */
  function Fetched<T>(respond: Params -> Response<T>, p: Params): (r: Run<T>)
    requires HasPageSize(p)
    ensures r.result.None? <==> !PageOk(respond, p, 0)
    ensures r.result.Some? ==> r.result.value.total == respond(WithPage(p, 0)).total
    ensures 1 <= |r.sent| && r.lastPage == |r.sent| - 1
  {
    if !PageOk(respond, p, 0) then Run(None, [WithPage(p, 0)], 0)
    else
      var n := TotalPages(respond, p);
      var k := FirstFailure(respond, p, 1, n);
      var attempted := if k < n then k + 1 else k;
      Run(Some(Aggregate(respond(WithPage(p, 0)).total, PageItems(respond, p, 0, k))),
          Requests(p, 0, attempted),
          attempted - 1)
  }

  /** The caller's params dict, which fetch_data updates in place. */
  class ParamsDict {
    var fields: Params

    constructor (fields: Params)
      ensures this.fields == fields
    {
      this.fields := fields;
    }
  }

  /** fetch_data: returns the aggregate (None when page 0 fails) and the
      queries sent, in order; leaves the last attempted page in q. */
  method FetchData<T>(q: ParamsDict, respond: Params -> Response<T>)
    returns (data: Option<Aggregate<T>>, sent: seq<Params>)
    requires HasPageSize(q.fields)
    modifies q
    ensures var f := Fetched(respond, old(q.fields));
      data == f.result && sent == f.sent && q.fields == WithPage(old(q.fields), f.lastPage)
  {
    ghost var p := q.fields;
    var allItems: seq<T> := [];
    sent := [];

    q.fields := q.fields[Page := Int(0)];
    var response := respond(q.fields);
    sent := sent + [q.fields];
    if response.status != StatusOk {
      return None, sent;
    }

    var totalItems := response.total;
    var itemsPerPage := q.fields[Size].n;
    var totalPages := CeilDiv(totalItems, itemsPerPage);
    allItems := allItems + response.items;

    var page := 1;
    while page < totalPages
      invariant 1 <= page && (page <= totalPages || page == 1)
      invariant q.fields == WithPage(p, page - 1)
      invariant forall j :: 1 <= j < page ==> PageOk(respond, p, j)
      invariant allItems == PageItems(respond, p, 0, page)
      invariant sent == Requests(p, 0, page)
    {
      WithPageTwice(p, page - 1, page);
      q.fields := q.fields[Page := Int(page)];
      response := respond(q.fields);
      sent := sent + [q.fields];
      if response.status == StatusOk {
        allItems := allItems + response.items;
      } else {
        break;
      }
      page := page + 1;
    }
    FirstFailureIs(respond, p, 1, totalPages, page);
    data := Some(Aggregate(totalItems, allItems));
  }

  /** FirstFailure is the only index with its two defining properties. */
  lemma FirstFailureIs<T>(respond: Params -> Response<T>, p: Params, lo: int, n: int, k: int)
    requires lo <= k
    requires k <= n || k == lo
    requires forall j :: lo <= j < k ==> PageOk(respond, p, j)
    requires k < n ==> !PageOk(respond, p, k)
    ensures FirstFailure(respond, p, lo, n) == k
  {
  }

  /** The i-th query of Requests(p, lo, hi) asks for page lo + i. */
  lemma {:induction false} RequestsAt(p: Params, lo: int, hi: int)
    requires lo <= hi
    ensures |Requests(p, lo, hi)| == hi - lo
    ensures forall i :: 0 <= i < hi - lo ==> Requests(p, lo, hi)[i] == WithPage(p, lo + i)
    decreases hi - lo
  {
    if lo < hi {
      RequestsAt(p, lo, hi - 1);
    }
  }

  /** Concatenation in page order splits at any page in between. */
  lemma {:induction false} PageItemsSplit<T>(respond: Params -> Response<T>, p: Params, lo: int, mid: int, hi: int)
    requires lo <= mid <= hi
    ensures PageItems(respond, p, lo, hi) == PageItems(respond, p, lo, mid) + PageItems(respond, p, mid, hi)
    decreases hi - mid
  {
    if mid < hi {
      PageItemsSplit(respond, p, lo, mid, hi - 1);
    }
  }

  /** A page-0 failure gives None after exactly one request. */
  lemma FirstPageFailure<T>(respond: Params -> Response<T>, p: Params)
    requires HasPageSize(p) && !PageOk(respond, p, 0)
    ensures Fetched(respond, p) == Run(None, [WithPage(p, 0)], 0)
  {
  }

  /** Pages are requested as 0, 1, 2, ... each once, and no page past page 0
      reaches the announced page count; the dict is left at the last one. */
  lemma RequestOrder<T>(respond: Params -> Response<T>, p: Params)
    requires HasPageSize(p)
    ensures var f := Fetched(respond, p);
      && 1 <= |f.sent|
      && (forall i :: 0 <= i < |f.sent| ==> f.sent[i] == WithPage(p, i))
      && (|f.sent| == 1 || |f.sent| <= TotalPages(respond, p))
      && f.lastPage == |f.sent| - 1
  {
    var f := Fetched(respond, p);
    if PageOk(respond, p, 0) {
      var n := TotalPages(respond, p);
      var k := FirstFailure(respond, p, 1, n);
      RequestsAt(p, 0, if k < n then k + 1 else k);
    }
  }

  /** When the first page announces no more items than one page holds
      (including none at all), only page 0 is fetched. */
  lemma SinglePage<T>(respond: Params -> Response<T>, p: Params)
    requires HasPageSize(p) && PageOk(respond, p, 0)
    requires respond(WithPage(p, 0)).total <= PageSize(p)
    ensures Fetched(respond, p) ==
      Run(Some(Aggregate(respond(WithPage(p, 0)).total, PageItemsAt(respond, p, 0))), [WithPage(p, 0)], 0)
  {
    CeilDivAtMostOne(respond(WithPage(p, 0)).total, PageSize(p));
    assert FirstFailure(respond, p, 1, TotalPages(respond, p)) == 1;
    assert Requests(p, 0, 1) == [WithPage(p, 0)];
    assert PageItems(respond, p, 0, 1) == PageItemsAt(respond, p, 0);
  }

  /** A total of at most one page's worth needs at most one page. */
  lemma CeilDivAtMostOne(a: int, b: int)
    requires b > 0 && a <= b
    ensures CeilDiv(a, b) <= 1
  {
  }

  /** When every announced page answers 200, the result holds all pages' items
      in page order and the page-0 total, and every page was fetched once. */
  lemma AllPagesOk<T>(respond: Params -> Response<T>, p: Params)
    requires HasPageSize(p)
    requires forall j :: 0 <= j < TotalPages(respond, p) || j == 0 ==> PageOk(respond, p, j)
    ensures var n := if TotalPages(respond, p) < 1 then 1 else TotalPages(respond, p);
      Fetched(respond, p) ==
      Run(Some(Aggregate(respond(WithPage(p, 0)).total, PageItems(respond, p, 0, n))),
          Requests(p, 0, n), n - 1)
  {
    var n := TotalPages(respond, p);
    FirstFailureIs(respond, p, 1, n, if n < 1 then 1 else n);
  }

  /** When page k > 0 is the first that does not answer 200, pages 0 .. k are
      requested and none above; the result holds pages 0 .. k - 1 and still
      the page-0 total, with nothing marking it incomplete. */
  lemma EarlyStop<T>(respond: Params -> Response<T>, p: Params, k: int)
    requires HasPageSize(p)
    requires 1 <= k < TotalPages(respond, p)
    requires forall j :: 0 <= j < k ==> PageOk(respond, p, j)
    requires !PageOk(respond, p, k)
    ensures Fetched(respond, p) ==
      Run(Some(Aggregate(respond(WithPage(p, 0)).total, PageItems(respond, p, 0, k))),
          Requests(p, 0, k + 1), k)
    ensures Fetched(respond, p).result.value.items + PageItems(respond, p, k, TotalPages(respond, p)) ==
      PageItems(respond, p, 0, TotalPages(respond, p))
  {
    FirstFailureIs(respond, p, 1, TotalPages(respond, p), k);
    PageItemsSplit(respond, p, 0, k, TotalPages(respond, p));
  }
}
