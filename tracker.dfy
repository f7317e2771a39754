/**
 * The entry point of the tracker client without its console and file I/O:
 * build the query from the options, then run the paginated fetch. The JSON
 * file is written exactly when the outcome is a success.
 */
module Tracker {
  import opened Wrappers
  import opened RequestBuilder
  import opened Paginator

  /** Why nothing is written: a label missing from its table (the KeyError), or
      a first page that did not answer 200 (fetch_data's None). */
  datatype Failure = InvalidFilter(error: BuildError) | FirstPageFailed

  /** Builds the query, then fetches; an unknown label stops before any request. */
  method FetchTracker<T>(opts: Options, respond: Params -> Response<T>)
    returns (out: Result<Aggregate<T>, Failure>, sent: seq<Params>)
    ensures Query(opts).Failure? ==> out == Failure(InvalidFilter(Query(opts).error)) && sent == []
    ensures Query(opts).Success? ==>
      && HasPageSize(Query(opts).value)
      && var f := Fetched(respond, Query(opts).value);
      && sent == f.sent
      && out == (if f.result.Some? then Success(f.result.value) else Failure(FirstPageFailed))
  {
    var built := BuildParams(opts);
    if built.Failure? {
      return Failure(InvalidFilter(built.error)), [];
    }
    QueryPageSize(opts);
    var q := new ParamsDict(built.value);
    var data;
    data, sent := FetchData(q, respond);
    if data.None? {
      out := Failure(FirstPageFailed);
    } else {
      out := Success(data.value);
    }
  }

  /** With "all" set, every query sent carries exactly the base fields and a page. */
  lemma AllSendsBaseFieldsOnly<T>(opts: Options, respond: Params -> Response<T>)
    requires opts.all
    ensures var p := Query(opts).value;
      HasPageSize(p) &&
      forall i :: 0 <= i < |Fetched(respond, p).sent| ==>
        Fetched(respond, p).sent[i].Keys == {Size, Value, Archived, Page}
  {
    var p := Query(opts).value;
    QueryPageSize(opts);
    RequestOrder(respond, p);
    assert p.Keys == {Size, Value, Archived};
  }
}
