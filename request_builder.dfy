/**
 * The query-parameter block of the tracker client's entry point: fixed base
 * fields, then (unless "all" is asked for) date filters with fixed
 * start-of-day / end-of-day suffixes and the table codes of the job-type and
 * status labels.
 */
module RequestBuilder {
  import opened Wrappers
  import opened Tables

  /** The query-string keys the client ever sets; KeyName gives their spelling. */
  datatype Key = Size | Value | Archived | Page | DateAppliedAfter | DateAppliedBefore | JobType | Status

  function KeyName(k: Key): (r: string)
  {
    match k
    case Size => "size"
    case Value => "value"
    case Archived => "archived"
    case Page => "page"
    case DateAppliedAfter => "date_applied_after"
    case DateAppliedBefore => "date_applied_before"
    case JobType => "job_type"
    case Status => "status"
  }

  /** Distinct keys are spelled differently, so the dict the client builds
      and the one the model builds hold the same entries. */
  lemma KeyNameInjective(k1: Key, k2: Key)
    ensures KeyName(k1) == KeyName(k2) ==> k1 == k2
  {
  }

  /** A query-string value: main.py stores both ints and strings. */
  datatype Val = Int(n: int) | Str(s: string)

  /** The params dict handed to the HTTP client. */
  type Params = map<Key, Val>

  const StartOfDay: string := "T00:00:00.000Z"
  const EndOfDay: string := "T23:59:59.999Z"
  const DefaultPageSize: int := 25

  /** The base fields every query carries. */
  const BaseParams: Params :=
    map[Size := Int(DefaultPageSize), Value := Str(""), Archived := Str("false")]

  /** The keys that only filters add. */
  predicate IsFilterKey(k: Key)
  {
    k.DateAppliedAfter? || k.DateAppliedBefore? || k.JobType? || k.Status?
  }

  /** The command-line options: None for a flag not given. */
  datatype Options = Options(
    all: bool,
    after: Option<string>,
    before: Option<string>,
    jobType: Option<string>,
    status: Option<string>)

  /** The KeyError of a failed table lookup, carrying the lower-cased key. */
  datatype BuildError = UnknownJobType(key: string) | UnknownStatus(key: string)

  /** Python truthiness of an optional string argument: absent and "" are both false. */
  predicate Given(o: Option<string>) { o.Some? && o.value != "" }

  /** The page size a query asks for, when it is a positive integer. */
  predicate HasPageSize(p: Params)
  {
    Size in p && p[Size].Int? && p[Size].n > 0
  }

  /** A conditional dict assignment: sets key to the value when there is one. */
  function Put(m: Params, key: Key, v: Option<Val>): (r: Params)
  {
    if v.Some? then m[key := v.value] else m
  }

  /** The value a date filter stores: the date with its time-of-day suffix. */
  function DateValue(date: Option<string>, suffix: string): (r: Option<Val>)
  {
    if Given(date) then Some(Str(date.value + suffix)) else None
  }

  /** The value the job-type filter stores: the label's code in its table. */
  function JobTypeValue(name: Option<string>): (r: Option<Val>)
  {
    if Given(name) && JobTypeCode(name.value).Some? then Some(Int(JobTypeCode(name.value).value)) else None
  }

  /** The value the status filter stores: the label's code in its table. */
  function StatusValue(name: Option<string>): (r: Option<Val>)
  {
    if Given(name) && StatusCode(name.value).Some? then Some(Int(StatusCode(name.value).value)) else None
  }

  /** The base fields overlaid with one entry per filter value present. */
  function Overlay(after: Option<Val>, before: Option<Val>, jobType: Option<Val>, status: Option<Val>): (r: Params)
  {
    Put(Put(Put(Put(BaseParams, DateAppliedAfter, after), DateAppliedBefore, before), JobType, jobType),
        Status, status)
  }

  /** The base fields overlaid with one entry per given filter. */
  function Filtered(opts: Options): (r: Params)
  {
    Overlay(DateValue(opts.after, StartOfDay), DateValue(opts.before, EndOfDay),
            JobTypeValue(opts.jobType), StatusValue(opts.status))
  }

  /** The query the options describe: the base fields alone when "all" is set,
      else the filtered fields, or the lookup failure of the first unknown label. */
  function Query(opts: Options): (r: Result<Params, BuildError>)
    ensures r.Failure? ==> !opts.all
    ensures r.Failure? && r.error.UnknownJobType? ==>
      Given(opts.jobType) && JobTypeCode(opts.jobType.value).None? && r.error.key == ToLower(opts.jobType.value)
    ensures r.Failure? && r.error.UnknownStatus? ==>
      Given(opts.status) && StatusCode(opts.status.value).None? && r.error.key == ToLower(opts.status.value)
  {
    if opts.all then Success(BaseParams)
    else if Given(opts.jobType) && JobTypeCode(opts.jobType.value).None? then
      Failure(UnknownJobType(ToLower(opts.jobType.value)))
    else if Given(opts.status) && StatusCode(opts.status.value).None? then
      Failure(UnknownStatus(ToLower(opts.status.value)))
    else
      Success(Filtered(opts))
  }

  /** Builds the params dict by successive conditional assignments. */
  method BuildParams(opts: Options) returns (r: Result<Params, BuildError>)
    ensures r == Query(opts)
  {
    var params := BaseParams;
    if !opts.all {
      if Given(opts.after) {
        params := params[DateAppliedAfter := Str(opts.after.value + StartOfDay)];
      }
      if Given(opts.before) {
        params := params[DateAppliedBefore := Str(opts.before.value + EndOfDay)];
      }
      if Given(opts.jobType) {
        var jobType := ToLower(opts.jobType.value);
        if jobType !in JobTypeMap {
          return Failure(UnknownJobType(jobType));
        }
        params := params[JobType := Int(JobTypeMap[jobType])];
      }
      if Given(opts.status) {
        var status := ToLower(opts.status.value);
        if status !in StatusMap {
          return Failure(UnknownStatus(status));
        }
        params := params[Status := Int(StatusMap[status])];
      }
    }
    r := Success(params);
  }

  /** With "all" set, the query is exactly the base fields, whatever else is given. */
  lemma AllIgnoresFilters(opts: Options)
    requires opts.all
    ensures Query(opts) == Success(map[Size := Int(25), Value := Str(""), Archived := Str("false")])
    ensures forall k :: k in Query(opts).value ==> !IsFilterKey(k)
  {
  }

  /** A query fails exactly when a given label is missing from its table, and
      the job-type label is looked up first. */
  lemma QueryFailsOnUnknownLabel(opts: Options)
    ensures Query(opts).Failure? <==>
      !opts.all &&
      ((Given(opts.jobType) && ToLower(opts.jobType.value) !in JobTypeMap) ||
       (Given(opts.status) && ToLower(opts.status.value) !in StatusMap))
    ensures !opts.all && Given(opts.jobType) && ToLower(opts.jobType.value) !in JobTypeMap ==>
      Query(opts) == Failure(UnknownJobType(ToLower(opts.jobType.value)))
  {
  }

  /** A filtered query keeps the base fields and adds a key for each given
      filter and nothing else. */
  lemma FilteredQueryKeys(opts: Options)
    requires !opts.all && Query(opts).Success?
    ensures var p := Query(opts).value;
      && (forall k :: k in BaseParams ==> k in p && p[k] == BaseParams[k])
      && (forall k :: k in p ==> k in BaseParams || IsFilterKey(k))
      && (DateAppliedAfter in p <==> Given(opts.after))
      && (DateAppliedBefore in p <==> Given(opts.before))
      && (JobType in p <==> Given(opts.jobType))
      && (Status in p <==> Given(opts.status))
  {
    assert Query(opts).value == Filtered(opts);
    assert JobTypeValue(opts.jobType).Some? == Given(opts.jobType);
    assert StatusValue(opts.status).Some? == Given(opts.status);
    var after, before := DateValue(opts.after, StartOfDay), DateValue(opts.before, EndOfDay);
    OverlayKeepsBase(after, before, JobTypeValue(opts.jobType), StatusValue(opts.status));
    OverlayOnlyFilterKeys(after, before, JobTypeValue(opts.jobType), StatusValue(opts.status));
    OverlayFilterKeys(after, before, JobTypeValue(opts.jobType), StatusValue(opts.status));
  }

  /** The overlay keeps the base fields. */
  lemma OverlayKeepsBase(after: Option<Val>, before: Option<Val>, jobType: Option<Val>, status: Option<Val>)
    ensures var p := Overlay(after, before, jobType, status);
      forall k :: k in BaseParams ==> k in p && p[k] == BaseParams[k]
  {
  }

  /** The overlay adds filter keys only. */
  lemma OverlayOnlyFilterKeys(after: Option<Val>, before: Option<Val>, jobType: Option<Val>, status: Option<Val>)
    ensures var p := Overlay(after, before, jobType, status);
      forall k :: k in p ==> k in BaseParams || IsFilterKey(k)
  {
  }

  /** The overlay holds each filter key exactly when its value is present. */
  lemma OverlayFilterKeys(after: Option<Val>, before: Option<Val>, jobType: Option<Val>, status: Option<Val>)
    ensures var p := Overlay(after, before, jobType, status);
      && (DateAppliedAfter in p <==> after.Some?)
      && (DateAppliedBefore in p <==> before.Some?)
      && (JobType in p <==> jobType.Some?)
      && (Status in p <==> status.Some?)
  {
  }

  /** The overlay stores each present value under its key. */
  lemma OverlayValues(after: Option<Val>, before: Option<Val>, jobType: Option<Val>, status: Option<Val>)
    ensures var p := Overlay(after, before, jobType, status);
      && (after.Some? ==> p[DateAppliedAfter] == after.value)
      && (before.Some? ==> p[DateAppliedBefore] == before.value)
      && (jobType.Some? ==> p[JobType] == jobType.value)
      && (status.Some? ==> p[Status] == status.value)
  {
  }

  /** A filtered query stores the suffixed dates and the table codes of the labels. */
  lemma FilteredQueryValues(opts: Options)
    requires !opts.all && Query(opts).Success?
    ensures var p := Query(opts).value;
      && (Given(opts.after) ==> p[DateAppliedAfter] == Str(opts.after.value + "T00:00:00.000Z"))
      && (Given(opts.before) ==> p[DateAppliedBefore] == Str(opts.before.value + "T23:59:59.999Z"))
      && (Given(opts.jobType) ==> JobTypeCode(opts.jobType.value).Some? &&
                                  p[JobType] == Int(JobTypeCode(opts.jobType.value).value))
      && (Given(opts.status) ==> StatusCode(opts.status.value).Some? &&
                                 p[Status] == Int(StatusCode(opts.status.value).value))
  {
    assert Query(opts).value == Filtered(opts);
    OverlayValues(DateValue(opts.after, StartOfDay), DateValue(opts.before, EndOfDay),
                  JobTypeValue(opts.jobType), StatusValue(opts.status));
  }

  /** Every successful query asks for 25 items per page and names no page yet. */
  lemma QueryPageSize(opts: Options)
    requires Query(opts).Success?
    ensures HasPageSize(Query(opts).value) && Query(opts).value[Size] == Int(25)
    ensures Page !in Query(opts).value
  {
    if !opts.all {
      assert Query(opts).value == Filtered(opts);
      var after, before := DateValue(opts.after, StartOfDay), DateValue(opts.before, EndOfDay);
      OverlayKeepsBase(after, before, JobTypeValue(opts.jobType), StatusValue(opts.status));
      OverlayOnlyFilterKeys(after, before, JobTypeValue(opts.jobType), StatusValue(opts.status));
      OverlayFilterKeys(after, before, JobTypeValue(opts.jobType), StatusValue(opts.status));
    }
  }
}
