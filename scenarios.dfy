/**
 * Concrete runs of the paginated fetch against small servers: 60 items in
 * pages of 25, with and without a failing page 1, and an empty tracker.
 */
module Scenarios {
  import opened Wrappers
  import opened RequestBuilder
  import opened Paginator

  /** The page a query asks for (-1 when it names none). */
  function PageOf(q: Params): int
  {
    if Page in q && q[Page].Int? then q[Page].n else -1
  }

  /** A server announcing 60 items, serving a, b and c as pages 0, 1 and 2,
      and answering 500 to page `down` (-1: to none). */
  function SixtyItemServer<T>(a: seq<T>, b: seq<T>, c: seq<T>, down: int): Params -> Response<T>
  {
    (q: Params) =>
      var page := PageOf(q);
      if page == down then Response(500, 60, [])
      else Response(200, 60, if page == 0 then a else if page == 1 then b else if page == 2 then c else [])
  }

  /** 60 items in pages of 25: three requests (pages 0, 1, 2) and all 60 items in page order. */
  lemma SixtyItemsAllOk<T>(a: seq<T>, b: seq<T>, c: seq<T>, p: Params)
    requires |a| == 25 && |b| == 25 && |c| == 10
    requires HasPageSize(p) && PageSize(p) == 25
    ensures Fetched(SixtyItemServer(a, b, c, -1), p) ==
      Run(Some(Aggregate(60, a + b + c)), [WithPage(p, 0), WithPage(p, 1), WithPage(p, 2)], 2)
    ensures |a + b + c| == 60
  {
    var respond := SixtyItemServer(a, b, c, -1);
    assert TotalPages(respond, p) == 3;
    AllPagesOk(respond, p);
    assert PageItems(respond, p, 0, 3) == a + b + c;
  }

  /** The same run with page 1 failing: pages 0 and 1 requested, page 2 not,
      and only page 0's items returned with the total still 60. */
  lemma SixtyItemsPageOneDown<T>(a: seq<T>, b: seq<T>, c: seq<T>, p: Params)
    requires |a| == 25 && |b| == 25 && |c| == 10
    requires HasPageSize(p) && PageSize(p) == 25
    ensures Fetched(SixtyItemServer(a, b, c, 1), p) ==
      Run(Some(Aggregate(60, a)), [WithPage(p, 0), WithPage(p, 1)], 1)
  {
    var respond := SixtyItemServer(a, b, c, 1);
    assert TotalPages(respond, p) == 3;
    EarlyStop(respond, p, 1);
    assert PageItems(respond, p, 0, 1) == a;
  }

  /** A server whose tracker is empty. */
  function EmptyServer<T>(): Params -> Response<T>
  {
    (q: Params) => Response(200, 0, [])
  }

  /** An empty tracker: one request, total 0 and no items. */
  lemma NoItems<T>(p: Params)
    requires HasPageSize(p)
    ensures Fetched(EmptyServer<T>(), p) == Run(Some(Aggregate(0, [])), [WithPage(p, 0)], 0)
  {
    SinglePage(EmptyServer<T>(), p);
  }
}
