/** The paginated device log (`_yield_device_log_page`, `get_device_log`): the first page
    is always fetched; while the last page says `has_next`, the next one is fetched with
    `start_row_key` set to that page's `next_row_key`; the pages' logs are concatenated
    in order.

    The k-th `api.get` of one walk is answered by `replies[k]`: the decoded page, or the
    error `api.get` raised. The walk needs some reply that ends it (an error, a page
    without a usable `has_next`/`next_row_key`, or `has_next` false); the source would
    otherwise keep asking for ever. */
module TuyaDeviceLog {
  import opened Exceptions
  import opened Json
  import opened Text
  import opened Http
  import opened TuyaDevice

  const DefaultPageSize: int := 100
  const DefaultLogType: int := 7

  /** A start or end time as the caller passes it: an int or a str. */
  datatype Timestamp = TsInt(i: int) | TsStr(s: string)

  /** `str(timestamp)` */
  function TimestampText(ts: Timestamp): string {
    match ts
    case TsInt(i) => IntToDecimal(i)
    case TsStr(s) => s
  }

  function LogsPath(deviceId: string): string {
    DevicePath(deviceId) + "/logs"
  }

  /** The parameters of the first page's request. */
  function LogParams(startTime: Timestamp, endTime: Timestamp, size: int, logType: int): Params {
    map[
      "type" := PInt(logType),
      "start_time" := PStr(TimestampText(startTime)),
      "end_time" := PStr(TimestampText(endTime)),
      "size" := PInt(size)]
  }

  /** `page["result"]["logs"]` */
  function PageLogs(page: Object): Result<Json> {
    var result :- Lookup(page, "result");
    Index(result, "logs")
  }

  /** The truth of `page["result"]["has_next"]`. */
  function HasNext(page: Object): Result<bool> {
    var result :- Lookup(page, "result");
    var hasNext :- Index(result, "has_next");
    Ok(Truthy(hasNext))
  }

  /** `page["result"]["next_row_key"]` as a query parameter value. */
  function NextRowKey(page: Object): Result<ParamValue> {
    var result :- Lookup(page, "result");
    var key :- Index(result, "next_row_key");
    match key
    case JStr(s) => Ok(PStr(s))
    case JInt(i) => Ok(PInt(i))
    case _ => Err(WrongType)
  }

  /** A reply after which the walk asks for another page. */
  predicate Continues(reply: Result<Object>) {
    reply.Ok? && PageLogs(reply.value).Ok? && HasNext(reply.value) == Ok(true) && NextRowKey(reply.value).Ok?
  }

  /** Some reply ends the walk. */
  predicate Ends(replies: seq<Result<Object>>) {
    exists s :: 0 <= s < |replies| && !Continues(replies[s])
  }

  /** One `api.get(path=..., params=...)` of the walk. */
  datatype LogGet = LogGet(path: string, params: Params)

  /** What a walk did: the requests it made, the pages it yielded, and whether it ended
      normally or with an error. */
  datatype LogRun = LogRun(gets: seq<LogGet>, pages: seq<Json>, outcome: Result<()>)

  /** The walk's requests and pages so far, followed by what the rest of the walk does. */
  function Extend(gets: seq<LogGet>, pages: seq<Json>, run: LogRun): LogRun {
    LogRun(gets + run.gets, pages + run.pages, run.outcome)
  }

  lemma ExtendTwice(gets: seq<LogGet>, pages: seq<Json>, get: LogGet, logs: Json, run: LogRun)
    ensures Extend(gets, pages, Extend([get], [logs], run)) == Extend(gets + [get], pages + [logs], run)
  {
    assert gets + ([get] + run.gets) == gets + [get] + run.gets;
    assert pages + ([logs] + run.pages) == pages + [logs] + run.pages;
  }

  /** The walk from a request with `params` on: fetch, yield the logs, and go on while
      `has_next`. */
  function RunFrom(path: string, params: Params, replies: seq<Result<Object>>): (run: LogRun)
    requires Ends(replies)
    ensures |run.gets| >= 1 && run.gets[0] == LogGet(path, params)
    ensures |run.gets| <= |replies|
    ensures |run.pages| <= |run.gets| && (run.outcome.Ok? ==> |run.pages| == |run.gets|)
    decreases |replies|, 0
  {
    var get := LogGet(path, params);
    var reply := replies[0];
    if reply.Err? then LogRun([get], [], Err(reply.error))
    else
      match PageLogs(reply.value)
      case Err(e) => LogRun([get], [], Err(e))
      case Ok(logs) =>
        match HasNext(reply.value)
        case Err(e) => LogRun([get], [logs], Err(e))
        case Ok(hasNext) =>
          if !hasNext then LogRun([get], [logs], Ok(()))
          else
            EndsAfterContinue(replies);
            Extend([get], [logs], NextRun(path, params, reply.value, replies[1..]))
  }

  /** The replies after one that continues the walk still end it. */
  lemma EndsAfterContinue(replies: seq<Result<Object>>)
    requires Ends(replies)
    ensures Continues(replies[0]) ==> Ends(replies[1..])
  {
    var s :| 0 <= s < |replies| && !Continues(replies[s]);
    if s != 0 {
      assert replies[1..][s - 1] == replies[s];
    }
  }

  /** After a page with `has_next`: read its `next_row_key` into the parameters and walk
      on from there. */
  function NextRun(path: string, params: Params, page: Object, rest: seq<Result<Object>>): (run: LogRun)
    requires NextRowKey(page).Ok? ==> Ends(rest)
    ensures NextRowKey(page).Err? ==> run == LogRun([], [], Err(NextRowKey(page).error))
    ensures NextRowKey(page).Ok? ==> run == RunFrom(path, params["start_row_key" := NextRowKey(page).value], rest)
    decreases |rest|, 1
  {
    match NextRowKey(page)
    case Err(e) => LogRun([], [], Err(e))
    case Ok(key) => RunFrom(path, params["start_row_key" := key], rest)
  }

  /** One step of a walk: the first reply either ends it or continues it with the
      cursor it carries. */
  lemma RunFromStep(path: string, params: Params, replies: seq<Result<Object>>)
    requires Ends(replies)
    ensures var run := RunFrom(path, params, replies);
            !Continues(replies[0]) ==> |run.gets| == 1 && |run.pages| <= 1
                                       && (run.outcome.Ok? <==> replies[0].Ok? && PageLogs(replies[0].value).Ok? && HasNext(replies[0].value) == Ok(false))
    ensures var run := RunFrom(path, params, replies);
            Continues(replies[0]) ==>
              && Ends(replies[1..])
              && run == Extend([LogGet(path, params)], [PageLogs(replies[0].value).value],
                               RunFrom(path, params["start_row_key" := NextRowKey(replies[0].value).value], replies[1..]))
    ensures var run := RunFrom(path, params, replies);
            |run.pages| > 0 ==> replies[0].Ok? && Ok(run.pages[0]) == PageLogs(replies[0].value)
  {
    EndsAfterContinue(replies);
  }

  /** A walk asks for another page exactly while the last reply continues it: every
      reply but the last one it used continues, and a walk that ends normally ends on a
      reply that does not. */
  lemma {:induction false} RunFromStops(path: string, params: Params, replies: seq<Result<Object>>)
    requires Ends(replies)
    ensures var run := RunFrom(path, params, replies);
            forall j :: 0 <= j < |run.gets| - 1 ==> Continues(replies[j])
    ensures var run := RunFrom(path, params, replies);
            run.outcome.Ok? ==> !Continues(replies[|run.gets| - 1])
    decreases |replies|
  {
    RunFromStep(path, params, replies);
    if Continues(replies[0]) {
      var next := params["start_row_key" := NextRowKey(replies[0].value).value];
      RunFromStops(path, next, replies[1..]);
      var run := RunFrom(path, params, replies);
      var rest := RunFrom(path, next, replies[1..]);
      forall j | 0 <= j < |run.gets| - 1
        ensures Continues(replies[j])
      {
        if j > 0 {
          assert replies[1..][j - 1] == replies[j];
        }
      }
      assert replies[1..][|rest.gets| - 1] == replies[|run.gets| - 1];
    }
  }

  /** Every request after the first carries the first request's parameters with
      `start_row_key` set to the previous page's `next_row_key`. */
  lemma {:induction false} RunFromCursor(path: string, params: Params, replies: seq<Result<Object>>, j: nat)
    requires Ends(replies)
    requires 0 < j < |RunFrom(path, params, replies).gets|
    ensures Continues(replies[j - 1])
    ensures RunFrom(path, params, replies).gets[j]
            == LogGet(path, params["start_row_key" := NextRowKey(replies[j - 1].value).value])
    decreases j
  {
    var run := RunFrom(path, params, replies);
    RunFromStep(path, params, replies);
    assert Continues(replies[0]);
    var next := params["start_row_key" := NextRowKey(replies[0].value).value];
    var rest := RunFrom(path, next, replies[1..]);
    assert run.gets == [LogGet(path, params)] + rest.gets;
    assert run.gets[j] == rest.gets[j - 1];
    if j > 1 {
      RunFromCursor(path, next, replies[1..], j - 1);
      assert replies[1..][j - 2] == replies[j - 1];
      var key := NextRowKey(replies[j - 1].value).value;
      assert next["start_row_key" := key] == params["start_row_key" := key];
    }
  }

  /** The k-th yielded page is the logs of the k-th reply. */
  lemma {:induction false} RunFromPages(path: string, params: Params, replies: seq<Result<Object>>)
    requires Ends(replies)
    ensures var run := RunFrom(path, params, replies);
            forall j :: 0 <= j < |run.pages| ==> replies[j].Ok? && PageLogs(replies[j].value) == Ok(run.pages[j])
    decreases |replies|
  {
    RunFromStep(path, params, replies);
    if Continues(replies[0]) {
      var next := params["start_row_key" := NextRowKey(replies[0].value).value];
      RunFromPages(path, next, replies[1..]);
      var run := RunFrom(path, params, replies);
      forall j | 0 < j < |run.pages|
        ensures replies[j].Ok? && PageLogs(replies[j].value) == Ok(run.pages[j])
      {
        assert replies[1..][j - 1] == replies[j];
      }
    }
  }

  /** `_yield_device_log_page(device_id, start_time, end_time, size, type_)`, with the
      pages it yields collected in order. */
  method YieldDeviceLogPages(deviceId: string, startTime: Timestamp, endTime: Timestamp, replies: seq<Result<Object>>,
                             size: int := DefaultPageSize, logType: int := DefaultLogType)
    returns (run: LogRun)
    requires Ends(replies)
    ensures run == RunFrom(LogsPath(deviceId), LogParams(startTime, endTime, size, logType), replies)
  {
    var path := LogsPath(deviceId);
    var params := LogParams(startTime, endTime, size, logType);
    ghost var spec := RunFrom(path, params, replies);

    var gets := [LogGet(path, params)];
    var firstPage := replies[0];
    if firstPage.Err? {
      return LogRun(gets, [], Err(firstPage.error));
    }
    var firstLogs := PageLogs(firstPage.value);
    if firstLogs.Err? {
      return LogRun(gets, [], Err(firstLogs.error));
    }
    var pages := [firstLogs.value];

    var firstHasNext := HasNext(firstPage.value);
    if firstHasNext.Err? {
      return LogRun(gets, pages, Err(firstHasNext.error));
    }
    if firstHasNext.value {
      EndsAfterContinue(replies);
      var flag := true;
      var currentPage := firstPage.value;
      var k := 1;
      while flag
        invariant 1 <= k <= |replies|
        invariant flag ==> (NextRowKey(currentPage).Ok? ==> Ends(replies[k..]))
        invariant flag ==> spec == Extend(gets, pages, NextRun(path, params, currentPage, replies[k..]))
        invariant !flag ==> spec == LogRun(gets, pages, Ok(()))
        decreases |replies| - k
      {
        var key := NextRowKey(currentPage);
        if key.Err? {
          assert gets + [] == gets && pages + [] == pages;
          return LogRun(gets, pages, Err(key.error));
        }
        ghost var doneGets, donePages := gets, pages;
        params := params["start_row_key" := key.value];
        var rest := replies[k..];
        assert spec == Extend(doneGets, donePages, RunFrom(path, params, rest));
        var nextPage := replies[k];
        assert rest[0] == nextPage;
        var get := LogGet(path, params);
        gets := gets + [get];
        if nextPage.Err? {
          assert RunFrom(path, params, rest) == LogRun([get], [], Err(nextPage.error));
          assert donePages + [] == donePages;
          return LogRun(gets, pages, Err(nextPage.error));
        }
        var logs := PageLogs(nextPage.value);
        if logs.Err? {
          assert RunFrom(path, params, rest) == LogRun([get], [], Err(logs.error));
          assert donePages + [] == donePages;
          return LogRun(gets, pages, Err(logs.error));
        }
        pages := pages + [logs.value];

        currentPage := nextPage.value;
        var hasNext := HasNext(currentPage);
        if hasNext.Err? {
          assert RunFrom(path, params, rest) == LogRun([get], [logs.value], Err(hasNext.error));
          return LogRun(gets, pages, Err(hasNext.error));
        }
        assert rest[1..] == replies[k + 1..];
        EndsAfterContinue(rest);
        k := k + 1;
        if !hasNext.value {
          assert RunFrom(path, params, rest) == LogRun([get], [logs.value], Ok(()));
          flag := false;
        } else {
          assert RunFrom(path, params, rest) == Extend([get], [logs.value], NextRun(path, params, currentPage, replies[k..]));
          ExtendTwice(doneGets, donePages, get, logs.value, NextRun(path, params, currentPage, replies[k..]));
        }
      }
      run := LogRun(gets, pages, Ok(()));
    } else {
      run := LogRun(gets, pages, Ok(()));
    }
  }

  /** The entries of a page's logs, when they are a list. */
  function Items(page: Json): seq<Json> {
    if page.JArray? then page.items else []
  }

  /** The pages' log entries one after the other, in page order. */
  function Flatten(pages: seq<Json>): seq<Json> {
    if |pages| == 0 then [] else Flatten(pages[..|pages| - 1]) + Items(pages[|pages| - 1])
  }

  /** `get_device_log`'s result for a walk: `device_logs + page` for every yielded page
      in turn (a type error for a page that is not a list), then the walk's own error if
      it had one. */
  function DeviceLogOf(run: LogRun): Result<seq<Json>> {
    if exists j :: 0 <= j < |run.pages| && !run.pages[j].JArray? then Err(WrongType)
    else if run.outcome.Err? then Err(run.outcome.error)
    else Ok(Flatten(run.pages))
  }

  /** Concatenation distributes over the pages. */
  lemma {:induction false} FlattenAppend(a: seq<Json>, b: seq<Json>)
    ensures Flatten(a + b) == Flatten(a) + Flatten(b)
    decreases |b|
  {
    if |b| == 0 {
      assert a + b == a;
    } else {
      var last := b[|b| - 1];
      assert (a + b)[..|a + b| - 1] == a + b[..|b| - 1];
      FlattenAppend(a, b[..|b| - 1]);
    }
  }

  /** Every entry of every page is in the result, and the result is as long as all the
      pages together. */
  lemma {:induction false} FlattenLength(pages: seq<Json>)
    ensures |Flatten(pages)| == SumItems(pages)
  {
    if |pages| > 0 {
      FlattenLength(pages[..|pages| - 1]);
    }
  }

  function SumItems(pages: seq<Json>): nat {
    if |pages| == 0 then 0 else SumItems(pages[..|pages| - 1]) + |Items(pages[|pages| - 1])|
  }

  /** The concatenated log is empty exactly when every page is empty. */
  lemma {:induction false} FlattenEmptyIff(pages: seq<Json>)
    ensures Flatten(pages) == [] <==> forall j :: 0 <= j < |pages| ==> Items(pages[j]) == []
  {
    if |pages| > 0 {
      var init := pages[..|pages| - 1];
      FlattenEmptyIff(init);
      assert forall j :: 0 <= j < |init| ==> init[j] == pages[j];
    }
  }

  /** The loop of `get_device_log`: `device_logs = device_logs + page` for every page the
      walk yielded, then the walk's error if it raised one. */
  method ConcatPages(run: LogRun) returns (r: Result<seq<Json>>)
    ensures r == DeviceLogOf(run)
  {
    var deviceLogs: seq<Json> := [];
    for i := 0 to |run.pages|
      invariant forall j :: 0 <= j < i ==> run.pages[j].JArray?
      invariant deviceLogs == Flatten(run.pages[..i])
    {
      var page := run.pages[i];
      if !page.JArray? {
        return Err(WrongType);
      }
      assert run.pages[..i + 1][..i] == run.pages[..i];
      deviceLogs := deviceLogs + page.items;
    }
    assert run.pages[..|run.pages|] == run.pages;
    if run.outcome.Err? {
      return Err(run.outcome.error);
    }
    r := Ok(deviceLogs);
  }

  /** `get_device_log(device_id, start_timestamp, end_timestamp, ..., type_)`: the walk
      with the default page size, its pages concatenated. */
  method GetDeviceLog(deviceId: string, startTimestamp: Timestamp, endTimestamp: Timestamp, replies: seq<Result<Object>>,
                      logType: int := DefaultLogType)
    returns (r: Result<seq<Json>>)
    requires Ends(replies)
    ensures r == DeviceLogOf(RunFrom(LogsPath(deviceId), LogParams(startTimestamp, endTimestamp, DefaultPageSize, logType), replies))
  {
    var run := YieldDeviceLogPages(deviceId, startTimestamp, endTimestamp, replies, logType := logType);
    r := ConcatPages(run);
  }

  /** A walk that ends normally yields one page per request and its log is the pages'
      logs in the order the replies came, empty exactly when every page's logs are. */
  lemma DeviceLogOfFinishedRun(path: string, params: Params, replies: seq<Result<Object>>)
    requires Ends(replies)
    requires var run := RunFrom(path, params, replies);
             run.outcome.Ok? && forall j :: 0 <= j < |run.pages| ==> run.pages[j].JArray?
    ensures var run := RunFrom(path, params, replies);
            && DeviceLogOf(run) == Ok(Flatten(run.pages))
            && (Flatten(run.pages) == [] <==> forall j :: 0 <= j < |run.pages| ==> run.pages[j].items == [])
  {
    var run := RunFrom(path, params, replies);
    FlattenEmptyIff(run.pages);
    assert forall j :: 0 <= j < |run.pages| ==> Items(run.pages[j]) == run.pages[j].items;
  }
}
