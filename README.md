# Simplify tracker fetcher, modelled in Dafny

The repository is one Python script, `main.py`. It downloads job-application
tracker records from the Simplify Jobs API and writes them to
`tracker_data.json`. This project models the two parts of the script that hold
its logic:

- **The request builder** (the parameter block of `main`). It starts from the
  base fields `size=25`, `value=""` and `archived="false"`. Unless `--all` is
  set, it adds `date_applied_after` (the date plus `T00:00:00.000Z`) and
  `date_applied_before` (the date plus `T23:59:59.999Z`). It also adds
  `job_type` and `status`: the labels are lower-cased and looked up in the
  closed tables `JOB_TYPE_MAP` (3 labels) and `STATUS_MAP` (9 labels). A label
  missing from its table raises `KeyError`.
- **The paginator** (`fetch_data`). It sets `params["page"] = 0` and fetches.
  A response other than 200 gives `None`. Otherwise it reads `total`, computes
  `ceil(total / size)` pages, and fetches pages 1, 2, … in order, appending
  each page's items. It stops at the first response that is not 200 and returns
  `{"total": <page-0 total>, "items": <items so far>}`.

Modules, one per part of the script:

- `Wrappers` (`wrappers.dfy`): `Option` and `Result`.
- `Tables` (`tables.dfy`): the two lookup tables, ASCII lower-casing, and the
  lookups. `None` stands for the `KeyError`.
- `RequestBuilder` (`request_builder.dfy`):
  - The query keys form a closed datatype `Key`; `KeyName` gives the wire
    spelling of each key.
  - `Query` is the declarative specification of the query.
  - `BuildParams` builds the query by successive conditional assignments, as
    the script does.
- `Paginator` (`paginator.dfy`):
  - The HTTP call is an oracle `respond: Params -> Response<T>`. It maps the
    query dict sent to the response: status code, the JSON `total`, and the
    `items`, which are opaque values.
  - The caller's dict, which `fetch_data` updates in place, is the class
    `ParamsDict`.
  - `FetchData` is the loop (with `break`). It returns the result and the
    queries it sent, in order. It is proved equal to the specification
    function `Fetched`, and the lemmas state the properties of `Fetched`.
- `Tracker` (`tracker.dfy`): `main` without its I/O. It builds the query, then
  fetches.
- `Scenarios` (`scenarios.dfy`): concrete runs. One announces 60 items in
  pages of 25, with and without a failing page 1. Another has an empty tracker.

The oracle is a function of the query. This loses nothing for one run,
because no query is sent twice: each one sets a different page. It also means
that repeating a run against the same responses gives the same result.

Two behaviours of the script that the model keeps as they are:

- When page 0 fails, `fetch_data` returns plain `None`, with no page, status
  or body.
- A run cut short by a failing later page returns the same
  `{"total", "items"}` shape; nothing marks it incomplete.

## Model

| member | source | states |
|---|---|---|
| `Tables.ToLower` | main.py:143-150 | `.lower()` on a label: same length, and no upper-case ASCII letter is left; the per-character reading is `ToLowerAt` |
| `Tables.JobTypeCode` | main.py:144-145 | `JOB_TYPE_MAP[label.lower()]`: no code exactly when the lower-cased label is not a key (the `KeyError`), and a found code is one of the table's codes; the full table is `JobTypeTable` |
| `Tables.StatusCode` | main.py:149-150 | `STATUS_MAP[label.lower()]`: no code exactly when the lower-cased label is not a key (the `KeyError`), and a found code is one of the table's codes; the full table is `StatusTable` |
| `Tables.LowerChar` | main.py:144 | the result is never an upper-case ASCII letter; other characters are unchanged; upper-case letters move to their lower-case counterparts |
| `Tables.ToLowerAt` | main.py:144 | every character of the lower-cased label is the lower-cased character at that position |
| `Tables.ToLowerIdempotent` | main.py:144 | lower-casing an already lower-cased label changes nothing |
| `Tables.JobTypeTable` | main.py:44-48 | the job-type lookup succeeds exactly for the three labels internship, part-time and full-time (in any ASCII casing), with codes 1, 3 and 2 |
| `Tables.StatusTable` | main.py:51-61 | the status lookup succeeds exactly for the nine labels, with codes applied 2, saved 1, screen 11, interview 12, offer 13, withdrawn 21, ghosted 22, rejected 23, accepted 24 |
| `Tables.JobTypeRoundTrip` | main.py:44-48 | the job-type table is one-to-one: a found code names back the lower-cased label, and each label the reverse reading gives is found with that code |
| `Tables.StatusRoundTrip` | main.py:51-61 | the same one-to-one round trip for the status table |
| `Tables.LookupCaseInsensitive` | main.py:143-150 | a label and its lower-cased form get the same lookup result in both tables |
| `RequestBuilder.KeyNameInjective` | main.py:131-150 | distinct query keys have distinct wire names, so a dict keyed by `Key` is the script's dict keyed by string |
| `RequestBuilder.Query` | main.py:130-153 | the declarative query: a failure only without `--all`, and each failure names a given label that its table lacks, carrying the lower-cased label as the `KeyError` does; the query itself is stated by `AllIgnoresFilters`, `FilteredQueryKeys`, `FilteredQueryValues` and `QueryPageSize` |
| `RequestBuilder.BuildParams` | main.py:130-153 | the successive conditional assignments (with the early KeyError exits) build exactly the query `Query` describes |
| `RequestBuilder.AllIgnoresFilters` | main.py:131-153 | with `--all`, the query is exactly size=25, value="", archived="false", and holds no date, job_type or status key, whatever else is given |
| `RequestBuilder.QueryFailsOnUnknownLabel` | main.py:143-150 | without `--all`, building fails exactly when a given job-type or status label, lower-cased, is missing from its table; the job-type label is checked first |
| `RequestBuilder.FilteredQueryKeys` | main.py:138-150 | a filtered query keeps the three base fields, holds each filter key exactly when that option is given (non-empty), and holds nothing else |
| `RequestBuilder.FilteredQueryValues` | main.py:139-150 | a filtered query stores after + "T00:00:00.000Z", before + "T23:59:59.999Z" and the table codes of the given labels |
| `RequestBuilder.QueryPageSize` | main.py:131-135 | every successful query asks for a positive page size of 25 and names no page yet |
| `Paginator.CeilDiv` | main.py:80 | the page count n satisfies (n - 1) * size < total <= n * size, that is, it is the exact ceiling of total / size |
| `Paginator.CeilDivAtMostOne` | main.py:78-80 | a total of at most one page's worth (including 0 or less) gives at most one page |
| `Paginator.WithPage` | main.py:69-89 | `params["page"] = page`: the dict afterwards holds that page; the rest of the dict is stated by `WithPageChangesPageOnly` |
| `Paginator.WithPageChangesPageOnly` | main.py:89 | setting the page adds or overwrites the "page" key only and leaves every other key's value unchanged |
| `Paginator.WithPageTwice` | main.py:89 | setting the page again overwrites the earlier setting |
| `Paginator.FirstFailure` | main.py:87-98 | the index where the loop stops: all pages before it answer 200, and if it lies before the page count, that page does not |
| `Paginator.FirstFailureIs` | main.py:87-98 | any index with those two properties is the stopping index, so the stopping index is unique |
| `Paginator.Fetched` | main.py:64-102 | the specification of one `fetch_data` call: `None` exactly when page 0 does not answer 200, otherwise page 0's total; at least one query is sent and the dict is left at the last page sent; the pages and items are stated by `RequestOrder`, `FirstPageFailure`, `SinglePage`, `AllPagesOk` and `EarlyStop` |
| `Paginator.ParamsDict.constructor` | main.py:131-156 | the caller's params dict, which `fetch_data` updates in place, starts out holding the given fields |
| `Paginator.FetchData` | main.py:64-102 | the loop returns `Fetched`'s result and sends `Fetched`'s queries in order; the caller's dict afterwards equals the old one with "page" set to the last page attempted |
| `Paginator.RequestsAt` | main.py:87-90 | the i-th query of a request run asks for page lo + i, and the run has hi - lo queries |
| `Paginator.PageItemsSplit` | main.py:81-94 | the concatenation of page items in page order splits at any page in between |
| `Paginator.FirstPageFailure` | main.py:69-75 | when page 0 does not answer 200, the result is None, exactly one query (page 0) is sent, and the dict keeps page 0 |
| `Paginator.RequestOrder` | main.py:69-90 | the queries sent ask for pages 0, 1, 2, … in order, each once; past page 0 no page reaches ceil(total / size); the dict is left at the last page sent |
| `Paginator.SinglePage` | main.py:78-87 | when the page-0 total is at most the page size (including 0), only page 0 is fetched and its items and total are the result |
| `Paginator.AllPagesOk` | main.py:78-102 | when every announced page answers 200, the result holds the page-0 total and all pages' items in page order, and pages 0 .. n - 1 are each fetched once |
| `Paginator.EarlyStop` | main.py:92-102 | when page k > 0 is the first that does not answer 200, pages 0 .. k are sent and none above; the items are pages 0 .. k - 1, the total is still page 0's, nothing marks it incomplete, and the dict is left at page k; the items lost are exactly those of pages k .. n - 1 |
| `Tracker.FetchTracker` | main.py:130-163 | an unknown label fails before any query is sent; otherwise the queries sent and the outcome are those of `Fetched` on the built query, and the data is written exactly when page 0 answered 200 |
| `Tracker.AllSendsBaseFieldsOnly` | main.py:131-156 | with `--all`, every query sent holds exactly the keys size, value, archived and page |
| `Scenarios.SixtyItemsAllOk` | main.py:64-102 | 60 items in pages of 25, 25 and 10: three queries (pages 0, 1, 2) and all 60 items in page order with total 60 |
| `Scenarios.SixtyItemsPageOneDown` | main.py:87-102 | with page 1 failing: pages 0 and 1 are sent, page 2 is not, and the result is page 0's items with total 60 |
| `Scenarios.NoItems` | main.py:69-87 | an empty tracker: one query, total 0 and no items |

## Left out

- Loading `config.json` and the credential headers, generating
  `config.json.sample`, and `exit(1)` (main.py:18-41): file I/O and process
  exit.
- The base URL and the headers. `requests.get` and `response.json()` (main.py:70,
  77, 90, 93) are replaced by the oracle `respond`. A 200 response whose body is
  not JSON, or lacks `total` or `items`, is outside the model. `total` is an
  integer.
- `time.sleep(1)` (main.py:100): a rate-limit courtesy with no effect on the
  result.
- The `print` diagnostics, the `argparse` set-up (main.py:107-128), and writing
  `tracker_data.json` (main.py:157-163). `FetchTracker` says when the file
  would be written. The argparse `choices` (main.py:115-126) compare the raw
  string, so from the command line a label such as `Internship` is rejected
  before main.py:144, and `.lower()` never changes a label that gets there.
  The model rejects unknown labels itself. The case-insensitivity that
  `LookupCaseInsensitive` and `JobTypeTable` state holds for the block at
  main.py:143-150, not for the command line.
- `Tables.LowerChar`: lower-cases ASCII letters only, where Python's
  `str.lower` covers all of Unicode. For these tables, success and the code
  returned are the same. The only non-ASCII character whose lower-case form is
  an ASCII letter is the Kelvin sign (lower-case `k`), and no table label
  contains `k`. The key that `UnknownJobType` and `UnknownStatus` carry can
  differ, though: for `"É"` Python's `KeyError` holds `'é'` and the model holds
  `"É"`.
- `Paginator.CeilDiv`: the script divides in floating point (main.py:80). The
  model uses the exact integer ceiling, which agrees for totals below 2^53.
- `Paginator.FetchData`: requires the query's `size` to be a positive
  integer. When page 0 answers 200, the script reads `size` (main.py:79-80):
  - a missing size raises `KeyError`;
  - a size of zero raises `ZeroDivisionError`;
  - a size that is not a number raises `TypeError`;
  - a negative size gives `ceil(total / size) <= 0`, so `range(1, …)` is
    empty and only page 0 is fetched and returned.

  When page 0 fails, `size` is never read and the script returns `None`. The
  requires excludes all of these cases. Every query the builder makes meets it
  (`QueryPageSize`).
