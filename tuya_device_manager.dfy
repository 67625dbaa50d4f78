/** `TuyaDeviceManager`: a set of named devices, given either as a map from names to
    device ids or as a list of ids (each its own name), and calls over all of them at
    once. Python dicts keep insertion order, so a device map is a sequence of
    (name, id) pairs with distinct names, and so is every name-keyed batch result. */
module TuyaManager {
  import opened Exceptions
  import opened Json
  import opened Http
  import opened TuyaOpenApi
  import opened TuyaDevice
  import opened TuyaDeviceLog

  type DeviceMap = seq<(string, string)>

  const ChoiceMessage: string := "You mut specify either device_map or device_list"

  function Names<T>(m: seq<(string, T)>): (r: seq<string>)
    ensures |r| == |m| && forall i :: 0 <= i < |m| ==> r[i] == m[i].0
  {
    seq(|m|, i requires 0 <= i < |m| => m[i].0)
  }

  /** `list(device_map.values())` */
  function Ids(m: DeviceMap): (r: seq<string>)
    ensures |r| == |m| && forall i :: 0 <= i < |m| ==> r[i] == m[i].1
  {
    seq(|m|, i requires 0 <= i < |m| => m[i].1)
  }

  predicate DistinctNames<T>(m: seq<(string, T)>) {
    forall i, j :: 0 <= i < j < |m| ==> m[i].0 != m[j].0
  }

  /** What a manager holds: its device map, and `device_ids` if it was ever set. */
  datatype Devices = Devices(deviceMap: DeviceMap, deviceIds: Option<seq<string>>)

  /** `self.device_ids`: an AttributeError when the attribute was never set. */
  function DeviceIdsOf(d: Devices): (r: Result<seq<string>>)
    ensures d.deviceIds.None? <==> r == Err(AttributeError("device_ids"))
    ensures d.deviceIds.Some? ==> r == Ok(d.deviceIds.value)
  {
    if d.deviceIds.None? then Err(AttributeError("device_ids")) else Ok(d.deviceIds.value)
  }

  /** `{device_id: device_id for device_id in device_list}`: every id named by itself,
      in order of first occurrence. */
  function IdentityMap(deviceList: seq<string>): (m: DeviceMap)
    ensures DistinctNames(m)
    ensures forall i :: 0 <= i < |m| ==> m[i].0 == m[i].1
    ensures forall id :: id in Names(m) <==> id in deviceList
  {
    if |deviceList| == 0 then []
    else
      var init := IdentityMap(deviceList[..|deviceList| - 1]);
      var id := deviceList[|deviceList| - 1];
      assert forall x :: x in deviceList <==> x in deviceList[..|deviceList| - 1] || x == id;
      if id in Names(init) then init
      else
        assert Names(init + [(id, id)]) == Names(init) + [id];
        init + [(id, id)]
  }

  /** A list without repetitions is named in its own order. */
  lemma {:induction false} IdentityMapOfDistinctList(deviceList: seq<string>)
    requires forall i, j :: 0 <= i < j < |deviceList| ==> deviceList[i] != deviceList[j]
    ensures Names(IdentityMap(deviceList)) == deviceList
  {
    if |deviceList| > 0 {
      var init := deviceList[..|deviceList| - 1];
      IdentityMapOfDistinctList(init);
      assert deviceList[|deviceList| - 1] !in init;
      assert deviceList == init + [deviceList[|deviceList| - 1]];
    }
  }

  /** The argument check of `TuyaDeviceManager.__init__`: exactly one of the two is
      given and non-empty. */
  predicate ExactlyOne(deviceMap: Option<DeviceMap>, deviceList: Option<seq<string>>) {
    var hasMap := deviceMap.Some? && |deviceMap.value| > 0;
    var hasList := deviceList.Some? && |deviceList.value| > 0;
    hasMap != hasList
  }

  /** `TuyaDeviceManager.__init__` as written: on the map path it assigns
      `self.device_idsL`, so `device_ids` stays unset. */
  function DevicesAsWritten(deviceMap: Option<DeviceMap>, deviceList: Option<seq<string>>): (r: Result<Devices>)
    requires deviceMap.Some? ==> DistinctNames(deviceMap.value)
    ensures r.Ok? <==> ExactlyOne(deviceMap, deviceList)
    ensures r.Ok? && deviceMap.Some? && |deviceMap.value| > 0 ==>
              r.value.deviceMap == deviceMap.value && DeviceIdsOf(r.value) == Err(AttributeError("device_ids"))
  {
    var hasMap := deviceMap.Some? && |deviceMap.value| > 0;
    var hasList := deviceList.Some? && |deviceList.value| > 0;
    if (!hasMap && !hasList) || (hasMap && hasList) then Err(ValueError(ChoiceMessage))
    else if hasMap then Ok(Devices(deviceMap.value, None))
    else Ok(Devices(IdentityMap(deviceList.value), Some(deviceList.value)))
  }

  /** `TuyaDeviceManager.__init__` with `device_ids` set on both paths: the map's ids
      in the map's order, or the list as given. */
  function NewDevices(deviceMap: Option<DeviceMap>, deviceList: Option<seq<string>>): (r: Result<Devices>)
    requires deviceMap.Some? ==> DistinctNames(deviceMap.value)
    ensures r.Ok? <==> ExactlyOne(deviceMap, deviceList)
    ensures r.Ok? ==> DistinctNames(r.value.deviceMap)
    ensures r.Err? ==> r.error == ValueError(ChoiceMessage)
    ensures r.Ok? ==> DeviceIdsOf(r.value).Ok?
    ensures r.Ok? && deviceMap.Some? && |deviceMap.value| > 0 ==>
              r.value.deviceMap == deviceMap.value && r.value.deviceIds == Some(Ids(deviceMap.value))
    ensures r.Ok? && !(deviceMap.Some? && |deviceMap.value| > 0) ==>
              && r.value.deviceIds == deviceList
              && (forall i :: 0 <= i < |r.value.deviceMap| ==> r.value.deviceMap[i].0 == r.value.deviceMap[i].1)
              && (forall id :: id in Names(r.value.deviceMap) <==> id in deviceList.value)
  {
    var hasMap := deviceMap.Some? && |deviceMap.value| > 0;
    var hasList := deviceList.Some? && |deviceList.value| > 0;
    if (!hasMap && !hasList) || (hasMap && hasList) then Err(ValueError(ChoiceMessage))
    else if hasMap then Ok(Devices(deviceMap.value, Some(Ids(deviceMap.value))))
    else Ok(Devices(IdentityMap(deviceList.value), Some(deviceList.value)))
  }

  /** As written, a manager built from a device map has no `device_ids`, so every batch
      call that reads it (status, info, factory info) raises AttributeError; e.g. the
      map {"PIR3": "abc"}. */
  lemma MapManagerLacksDeviceIds(deviceMap: DeviceMap)
    requires |deviceMap| > 0 && DistinctNames(deviceMap)
    ensures DevicesAsWritten(Some(deviceMap), None) == Ok(Devices(deviceMap, None))
    ensures DeviceIdsOf(DevicesAsWritten(Some(deviceMap), None).value) == Err(AttributeError("device_ids"))
    ensures DeviceIdsOf(NewDevices(Some(deviceMap), None).value) == Ok(Ids(deviceMap))
  {
  }

  /** The two agree everywhere but on the `device_ids` of the map path. */
  lemma AsWrittenDiffersOnlyInDeviceIds(deviceMap: Option<DeviceMap>, deviceList: Option<seq<string>>)
    requires deviceMap.Some? ==> DistinctNames(deviceMap.value)
    ensures DevicesAsWritten(deviceMap, deviceList).Ok? <==> NewDevices(deviceMap, deviceList).Ok?
    ensures DevicesAsWritten(deviceMap, deviceList).Err? ==> DevicesAsWritten(deviceMap, deviceList) == NewDevices(deviceMap, deviceList)
    ensures DevicesAsWritten(deviceMap, deviceList).Ok? ==>
              DevicesAsWritten(deviceMap, deviceList).value.deviceMap == NewDevices(deviceMap, deviceList).value.deviceMap
    ensures !(deviceMap.Some? && |deviceMap.value| > 0) ==> DevicesAsWritten(deviceMap, deviceList) == NewDevices(deviceMap, deviceList)
  {
  }

  /** Each device's log, as `get_device_log` returns it for that device's walk. */
  function DeviceLogFor(deviceId: string, startTimestamp: Timestamp, endTimestamp: Timestamp, logType: int,
                        replies: seq<Result<Object>>): Result<seq<Json>>
    requires Ends(replies)
  {
    DeviceLogOf(RunFrom(LogsPath(deviceId), LogParams(startTimestamp, endTimestamp, DefaultPageSize, logType), replies))
  }

  predicate AllEnd(fetch: seq<seq<Result<Object>>>) {
    forall i :: 0 <= i < |fetch| ==> Ends(fetch[i])
  }

  /** The name-keyed dict a batch loop fills: each name bound to its own result, in
      order; the first failed result ends the loop with its error. */
  function Batch<T>(names: seq<string>, results: seq<Result<T>>): (r: Result<seq<(string, T)>>)
    requires |names| == |results|
    ensures r.Ok? ==> |r.value| == |names|
    ensures r.Ok? ==> forall i :: 0 <= i < |names| ==> r.value[i].0 == names[i] && results[i] == Ok(r.value[i].1)
  {
    if |names| == 0 then Ok([])
    else
      var head :- results[0];
      var rest :- Batch(names[1..], results[1..]);
      assert forall i :: 1 <= i < |names| ==> names[1..][i - 1] == names[i] && results[1..][i - 1] == results[i];
      Ok([(names[0], head)] + rest)
  }

  /** A batch fails exactly when some result failed, and then with the error of the
      first failed result. */
  lemma {:induction false} BatchFails<T>(names: seq<string>, results: seq<Result<T>>)
    requires |names| == |results|
    ensures Batch(names, results).Err? <==> exists i :: 0 <= i < |results| && results[i].Err?
    ensures Batch(names, results).Err? ==>
              exists i :: 0 <= i < |results| && results[i] == Err(Batch(names, results).error)
                          && forall j :: 0 <= j < i ==> results[j].Ok?
  {
    if |names| > 0 && results[0].Ok? {
      BatchFails(names[1..], results[1..]);
      var rest := Batch(names[1..], results[1..]);
      if rest.Err? {
        var k :| 0 <= k < |results| - 1 && results[1..][k] == Err(rest.error)
                 && forall j :: 0 <= j < k ==> results[1..][j].Ok?;
        assert results[k + 1] == Err(rest.error);
        forall j | 0 <= j < k + 1
          ensures results[j].Ok?
        {
          if j > 0 {
            assert results[1..][j - 1] == results[j];
          }
        }
      } else {
        forall i | 0 <= i < |results|
          ensures results[i].Ok?
        {
          if i > 0 {
            assert results[1..][i - 1] == results[i];
          }
        }
      }
    }
  }

  /** One entry of a batch: its result under its name, then the rest of the batch. */
  lemma BatchStep<T>(names: seq<string>, results: seq<Result<T>>, i: nat)
    requires |names| == |results| && i < |names|
    ensures Batch(names[i..], results[i..])
            == if results[i].Err? then Err(results[i].error)
               else PrependEntries([(names[i], results[i].value)], Batch(names[i + 1..], results[i + 1..]))
  {
    assert names[i..][1..] == names[i + 1..] && results[i..][1..] == results[i + 1..];
    assert names[i..][0] == names[i] && results[i..][0] == results[i];
  }

  /** Every device's log, as `get_device_log` returns it, in the map's order. */
  function DeviceLogs(items: DeviceMap, startTimestamp: Timestamp, endTimestamp: Timestamp, logType: int,
                      fetch: seq<seq<Result<Object>>>): (logs: seq<Result<seq<Json>>>)
    requires |fetch| == |items| && AllEnd(fetch)
    ensures |logs| == |items|
    ensures forall i :: 0 <= i < |items| ==> logs[i] == DeviceLogFor(items[i].1, startTimestamp, endTimestamp, logType, fetch[i])
  {
    seq(|items|, i requires 0 <= i < |items| => DeviceLogFor(items[i].1, startTimestamp, endTimestamp, logType, fetch[i]))
  }

  /** `get_device_log_in_batch`: every device's log under its name, in the map's order;
      the first device whose log fails stops the batch with that error. Device `i`'s
      walk is answered by `fetch[i]`. */
  function BatchLogs(items: DeviceMap, startTimestamp: Timestamp, endTimestamp: Timestamp, logType: int,
                     fetch: seq<seq<Result<Object>>>): Result<seq<(string, seq<Json>)>>
    requires |fetch| == |items| && AllEnd(fetch)
  {
    Batch(Names(items), DeviceLogs(items, startTimestamp, endTimestamp, logType, fetch))
  }

  /** A batch of logs that gets through has exactly the map's names as keys, in the
      map's order, each bound to that device's own log. */
  lemma BatchLogsKeys(items: DeviceMap, startTimestamp: Timestamp, endTimestamp: Timestamp, logType: int,
                      fetch: seq<seq<Result<Object>>>)
    requires |fetch| == |items| && AllEnd(fetch)
    ensures var r := BatchLogs(items, startTimestamp, endTimestamp, logType, fetch);
            r.Ok? ==> Names(r.value) == Names(items)
                      && forall i :: 0 <= i < |items| ==>
                           Ok(r.value[i].1) == DeviceLogFor(items[i].1, startTimestamp, endTimestamp, logType, fetch[i])
  {
    var r := BatchLogs(items, startTimestamp, endTimestamp, logType, fetch);
    if r.Ok? {
      assert Names(r.value) == Names(items);
    }
  }

  /** The entries so far followed by the rest of the batch, or the batch's error. */
  function PrependEntries<T>(acc: seq<(string, T)>, r: Result<seq<(string, T)>>): Result<seq<(string, T)>> {
    if r.Err? then r else Ok(acc + r.value)
  }

  lemma PrependEntriesNothing<T>(r: Result<seq<(string, T)>>)
    ensures PrependEntries([], r) == r
  {
    if r.Ok? {
      assert [] + r.value == r.value;
    }
  }

  lemma PrependEntriesTwice<T>(acc: seq<(string, T)>, x: (string, T), r: Result<seq<(string, T)>>)
    ensures PrependEntries(acc, PrependEntries([x], r)) == PrependEntries(acc + [x], r)
  {
    if r.Ok? {
      assert acc + ([x] + r.value) == acc + [x] + r.value;
    }
  }

  /** A batch loop that goes through the client: `step(st, id)` sends one device's
      request from client state `st`. Each response goes under its device's name, in the
      map's order; the first failing request stops the batch. */
  function SendEach(step: (State, string) -> (Result<Object>, State), st: State, items: DeviceMap)
    : (out: (Result<seq<(string, Object)>>, State))
    decreases |items|
  {
    if |items| == 0 then (Ok([]), st)
    else
      var sent := step(st, items[0].1);
      if sent.0.Err? then (Err(sent.0.error), sent.1)
      else
        var rest := SendEach(step, sent.1, items[1..]);
        (PrependEntries([(items[0].0, sent.0.value)], rest.0), rest.1)
  }

  lemma NamesPrepended<T>(x: (string, T), r: Result<seq<(string, T)>>)
    requires r.Ok?
    ensures PrependEntries([x], r).Ok? && Names(PrependEntries([x], r).value) == [x.0] + Names(r.value)
  {
    assert Names([x] + r.value) == [x.0] + Names(r.value);
  }

  /** A batch that gets through has exactly the map's names as keys, in the map's order. */
  lemma {:induction false} SendEachNames(step: (State, string) -> (Result<Object>, State), st: State, items: DeviceMap)
    ensures var out := SendEach(step, st, items);
            out.0.Ok? ==> Names(out.0.value) == Names(items)
    decreases |items|
  {
    if |items| > 0 {
      var sent := step(st, items[0].1);
      if sent.0.Ok? {
        var rest := SendEach(step, sent.1, items[1..]).0;
        if rest.Ok? {
          SendEachNames(step, sent.1, items[1..]);
          NamesPrepended((items[0].0, sent.0.value), rest);
          assert Names(items) == [items[0].0] + Names(items[1..]);
        }
      }
    }
  }

  /** The client state in which a batch sends device `i`'s request: the state each
      earlier device's request left behind, in the map's order. */
  function Before(step: (State, string) -> (Result<Object>, State), st: State, items: DeviceMap, i: nat): State
    requires i <= |items|
    decreases i
  {
    if i == 0 then st else step(Before(step, st, items, i - 1), items[i - 1].1).1
  }

  lemma {:induction false} BeforeShift(step: (State, string) -> (Result<Object>, State), st: State, items: DeviceMap, i: nat)
    requires i < |items|
    ensures Before(step, st, items, i + 1) == Before(step, step(st, items[0].1).1, items[1..], i)
    decreases i
  {
    if i > 0 {
      BeforeShift(step, st, items, i - 1);
      assert items[1..][i - 1] == items[i];
    }
  }

  /** What a batch over any number of devices returns. When it gets through, entry `i`
      is device `i`'s name with the reply to its request, sent in the state the first `i`
      requests left; when it fails, the error is the first failing device's and the batch
      stops in the state that device's request left, so no later device is sent. */
  lemma {:induction false} SendEachBinds(step: (State, string) -> (Result<Object>, State), st: State, items: DeviceMap)
    ensures var out := SendEach(step, st, items);
            out.0.Ok? ==>
              && |out.0.value| == |items|
              && out.1 == Before(step, st, items, |items|)
              && forall i :: 0 <= i < |items| ==>
                   out.0.value[i].0 == items[i].0 && step(Before(step, st, items, i), items[i].1).0 == Ok(out.0.value[i].1)
    ensures var out := SendEach(step, st, items);
            out.0.Err? ==>
              exists i :: 0 <= i < |items|
                && step(Before(step, st, items, i), items[i].1) == (Err(out.0.error), out.1)
                && forall j :: 0 <= j < i ==> step(Before(step, st, items, j), items[j].1).0.Ok?
    decreases |items|
  {
    if |items| > 0 {
      var sent := step(st, items[0].1);
      if sent.0.Err? {
        assert step(Before(step, st, items, 0), items[0].1) == (Err(sent.0.error), sent.1);
      } else {
        var tail := items[1..];
        var rest := SendEach(step, sent.1, tail);
        SendEachBinds(step, sent.1, tail);
        forall i | 0 <= i < |tail|
          ensures Before(step, st, items, i + 1) == Before(step, sent.1, tail, i)
          ensures items[i + 1] == tail[i]
        {
          BeforeShift(step, st, items, i);
        }
        if rest.0.Ok? {
          var out := [(items[0].0, sent.0.value)] + rest.0.value;
          assert SendEach(step, st, items).0 == Ok(out);
          BeforeShift(step, st, items, |tail|);
          forall i | 0 <= i < |items|
            ensures out[i].0 == items[i].0 && step(Before(step, st, items, i), items[i].1).0 == Ok(out[i].1)
          {
            if i > 0 {
              assert out[i] == rest.0.value[i - 1];
            }
          }
        } else {
          var k :| 0 <= k < |tail|
                   && step(Before(step, sent.1, tail, k), tail[k].1) == (Err(rest.0.error), rest.1)
                   && forall j :: 0 <= j < k ==> step(Before(step, sent.1, tail, j), tail[j].1).0.Ok?;
          forall j | 0 <= j < k + 1
            ensures step(Before(step, st, items, j), items[j].1).0.Ok?
          {
            if j > 0 {
              assert step(Before(step, sent.1, tail, j - 1), tail[j - 1].1).0.Ok?;
            }
          }
          assert step(Before(step, st, items, k + 1), items[k + 1].1) == (Err(rest.0.error), rest.1);
        }
      }
    }
  }

  /** `SmartHomeDeviceAPI(self.api).send_commands(device_id, commands)` from a client
      state. */
  function SendCommandsStep(cfg: Config, body: Object, now: nat): (State, string) -> (Result<Object>, State) {
    (st: State, deviceId: string) => SpecRequest(cfg, st, "POST", CommandsPath(deviceId), None, Some(body), now)
  }

  /** `send_command_in_batch`: one `send_commands` per device in the map's order, each
      response under the device's name; the first failing request stops the batch. */
  function SpecSendAll(cfg: Config, st: State, items: DeviceMap, body: Object, now: nat)
    : (out: (Result<seq<(string, Object)>>, State))
  {
    SendEach(SendCommandsStep(cfg, body, now), st, items)
  }

  /** `send_command_in_batch` over any number of devices: when it gets through, entry
      `i` is device `i`'s name with the reply to the commands POST for its id, sent in the
      state the first `i` devices' requests left, and the client ends where the last
      request left it; when it fails, the error is the first failing device's POST and
      the client stops where that POST left it, so no later device's request is sent. */
  lemma SendAllBinds(cfg: Config, st: State, items: DeviceMap, body: Object, now: nat)
    ensures var step := SendCommandsStep(cfg, body, now);
            var out := SpecSendAll(cfg, st, items, body, now);
            out.0.Ok? ==>
              && |out.0.value| == |items|
              && out.1 == Before(step, st, items, |items|)
              && forall i :: 0 <= i < |items| ==>
                   && out.0.value[i].0 == items[i].0
                   && SpecRequest(cfg, Before(step, st, items, i), "POST", CommandsPath(items[i].1), None, Some(body), now).0
                      == Ok(out.0.value[i].1)
    ensures var step := SendCommandsStep(cfg, body, now);
            var out := SpecSendAll(cfg, st, items, body, now);
            out.0.Err? ==>
              exists i :: 0 <= i < |items|
                && SpecRequest(cfg, Before(step, st, items, i), "POST", CommandsPath(items[i].1), None, Some(body), now)
                   == (Err(out.0.error), out.1)
                && forall j :: 0 <= j < i ==>
                     SpecRequest(cfg, Before(step, st, items, j), "POST", CommandsPath(items[j].1), None, Some(body), now).0.Ok?
  {
    var step := SendCommandsStep(cfg, body, now);
    SendEachBinds(step, st, items);
    forall s: State, id: string
      ensures step(s, id) == SpecRequest(cfg, s, "POST", CommandsPath(id), None, Some(body), now)
    {
    }
  }

  /** A batch of commands to one device sends exactly that device's commands request,
      and its result is that request's response under the device's name. */
  lemma SendAllSingle(cfg: Config, st: State, name: string, deviceId: string, body: Object, now: nat)
    ensures var out := SpecSendAll(cfg, st, [(name, deviceId)], body, now);
            var sent := SpecRequest(cfg, st, "POST", CommandsPath(deviceId), None, Some(body), now);
            out.1 == sent.1 && out.0 == (if sent.0.Err? then Err(sent.0.error) else Ok([(name, sent.0.value)]))
  {
    var sent := SpecRequest(cfg, st, "POST", CommandsPath(deviceId), None, Some(body), now);
    var step := SendCommandsStep(cfg, body, now);
    assert step(st, deviceId) == sent;
    assert [(name, deviceId)][1..] == [];
    if sent.0.Ok? {
      assert SendEach(step, sent.1, []) == (Ok([]), sent.1);
      assert [(name, sent.0.value)] + [] == [(name, sent.0.value)];
    }
  }

  class TuyaDeviceManager {
    const api: TuyaOpenApiClient
    const devices: Devices

    constructor (api: TuyaOpenApiClient, devices: Devices)
      requires DistinctNames(devices.deviceMap)
      ensures this.api == api && this.devices == devices
    {
      this.api := api;
      this.devices := devices;
    }

    /** `TuyaDeviceManager(api, device_map, device_list)`: `error` is the ValueError the
        constructor raises, and then there is no manager. */
    static method Create(api: TuyaOpenApiClient, deviceMap: Option<DeviceMap>, deviceList: Option<seq<string>>)
      returns (manager: TuyaDeviceManager?, error: Option<Error>)
      requires deviceMap.Some? ==> DistinctNames(deviceMap.value)
      ensures var d := NewDevices(deviceMap, deviceList);
              && (d.Err? ==> manager == null && error == Some(d.error))
              && (d.Ok? ==> manager != null && fresh(manager) && manager.api == api && manager.devices == d.value && error == None)
      ensures manager != null ==> DistinctNames(manager.devices.deviceMap)
    {
      var d := NewDevices(deviceMap, deviceList);
      if d.Err? {
        return null, Some(d.error);
      }
      manager := new TuyaDeviceManager(api, d.value);
      error := None;
    }

    /** `get_device_status_in_batch()` */
    method GetDeviceStatusInBatch(now: nat) returns (r: Result<Object>)
      modifies api
      ensures devices.deviceIds.None? ==> r == Err(AttributeError("device_ids")) && api.Current() == old(api.Current())
      ensures devices.deviceIds.Some? ==>
                var out := SpecRequest(api.Configuration(), old(api.Current()), "GET", DevicesPath,
                                       Some(DeviceIdsParams(devices.deviceIds.value)), None, now);
                api.Current() == out.1
                && r == Bind(out.0, if out.0.Ok? then DeviceListStatusView(out.0.value) else Ok(map[]))
    {
      var deviceIds := DeviceIdsOf(devices);
      if deviceIds.Err? {
        return Err(deviceIds.error);
      }
      var deviceApi := new SmartHomeDeviceApi(api);
      r := deviceApi.GetDeviceListStatus(deviceIds.value, now);
    }

    /** `get_device_info_in_batch(include_device_status)` */
    method GetDeviceInfoInBatch(now: nat, includeDeviceStatus: bool := true) returns (r: Result<Object>)
      modifies api
      ensures devices.deviceIds.None? ==> r == Err(AttributeError("device_ids")) && api.Current() == old(api.Current())
      ensures devices.deviceIds.Some? ==>
                var out := SpecRequest(api.Configuration(), old(api.Current()), "GET", DevicesPath,
                                       Some(DeviceIdsParams(devices.deviceIds.value)), None, now);
                api.Current() == out.1
                && r == Bind(out.0, if out.0.Ok? then DeviceListInfoView(out.0.value, includeDeviceStatus) else Ok(map[]))
    {
      var deviceIds := DeviceIdsOf(devices);
      if deviceIds.Err? {
        return Err(deviceIds.error);
      }
      var deviceApi := new SmartHomeDeviceApi(api);
      r := deviceApi.GetDeviceListInfo(deviceIds.value, now, includeDeviceStatus);
    }

    /** `get_factory_info_in_batch()` */
    method GetFactoryInfoInBatch(now: nat) returns (r: Result<Object>)
      modifies api
      ensures devices.deviceIds.None? ==> r == Err(AttributeError("device_ids")) && api.Current() == old(api.Current())
      ensures devices.deviceIds.Some? ==>
                (r, api.Current()) == SpecRequest(api.Configuration(), old(api.Current()), "GET", FactoryInfosPath,
                                                  Some(DeviceIdsParams(devices.deviceIds.value)), None, now)
    {
      var deviceIds := DeviceIdsOf(devices);
      if deviceIds.Err? {
        return Err(deviceIds.error);
      }
      var deviceApi := new SmartHomeDeviceApi(api);
      r := deviceApi.GetFactoryInfo(deviceIds.value, now);
    }

    /** `get_device_log_in_batch(start_timestamp, end_timestamp, warn_on_empty_data, type_)`,
        device `i`'s pages being answered by `fetch[i]`. */
    method GetDeviceLogInBatch(startTimestamp: Timestamp, endTimestamp: Timestamp, fetch: seq<seq<Result<Object>>>,
                               logType: int := DefaultLogType)
      returns (r: Result<seq<(string, seq<Json>)>>)
      requires |fetch| == |devices.deviceMap| && AllEnd(fetch)
      ensures r == BatchLogs(devices.deviceMap, startTimestamp, endTimestamp, logType, fetch)
    {
      var items := devices.deviceMap;
      ghost var names := Names(items);
      ghost var logs := DeviceLogs(items, startTimestamp, endTimestamp, logType, fetch);
      var devicesLogMap: seq<(string, seq<Json>)> := [];
      assert names[0..] == names && logs[0..] == logs;
      PrependEntriesNothing(Batch(names, logs));
      for i := 0 to |items|
        invariant BatchLogs(items, startTimestamp, endTimestamp, logType, fetch)
                  == PrependEntries(devicesLogMap, Batch(names[i..], logs[i..]))
      {
        BatchStep(names, logs, i);
        var deviceLog := GetDeviceLog(items[i].1, startTimestamp, endTimestamp, fetch[i], logType);
        assert deviceLog == logs[i];
        if deviceLog.Err? {
          return Err(deviceLog.error);
        }
        PrependEntriesTwice(devicesLogMap, (items[i].0, deviceLog.value), Batch(names[i + 1..], logs[i + 1..]));
        devicesLogMap := devicesLogMap + [(items[i].0, deviceLog.value)];
      }
      assert names[|items|..] == [] && logs[|items|..] == [];
      assert devicesLogMap + [] == devicesLogMap;
      r := Ok(devicesLogMap);
    }

    /** `send_command_in_batch(commands)` */
    method SendCommandInBatch(commands: seq<Json>, now: nat) returns (r: Result<seq<(string, Object)>>)
      modifies api
      ensures (r, api.Current()) == SpecSendAll(api.Configuration(), old(api.Current()), devices.deviceMap, CommandsBody(commands), now)
    {
      var items := devices.deviceMap;
      ghost var step := SendCommandsStep(api.Configuration(), CommandsBody(commands), now);
      ghost var spec := SendEach(step, api.Current(), items);
      var deviceResponseMap: seq<(string, Object)> := [];
      assert items[0..] == items;
      PrependEntriesNothing(spec.0);
      for i := 0 to |items|
        invariant var rest := SendEach(step, api.Current(), items[i..]);
                  spec == (PrependEntries(deviceResponseMap, rest.0), rest.1)
      {
        assert items[i..][1..] == items[i + 1..];
        ghost var before := api.Current();
        var deviceApi := new SmartHomeDeviceApi(api);
        var deviceResponse := deviceApi.SendCommands(items[i].1, commands, now);
        assert (deviceResponse, api.Current()) == step(before, items[i].1);
        if deviceResponse.Err? {
          return Err(deviceResponse.error);
        }
        PrependEntriesTwice(deviceResponseMap, (items[i].0, deviceResponse.value), SendEach(step, api.Current(), items[i + 1..]).0);
        deviceResponseMap := deviceResponseMap + [(items[i].0, deviceResponse.value)];
      }
      assert items[|items|..] == [];
      assert deviceResponseMap + [] == deviceResponseMap;
      r := Ok(deviceResponseMap);
    }
  }
}
