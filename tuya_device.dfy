/** The Tuya smart-home device API (`SmartHomeDeviceAPI`): each call is one request
    through the Open API client, and a few of them reshape the decoded response before
    returning it. The reshaping is given as functions on the response; the walks over
    the device list are loops proved against them. */
module TuyaDevice {
  import opened Exceptions
  import opened Json
  import opened Text
  import opened Http
  import opened TuyaOpenApi

  const DevicesPath: string := "/v1.0/devices/"
  const FactoryInfosPath: string := "/v1.0/devices/factory-infos"

  function DevicePath(deviceId: string): string {
    "/v1.0/devices/" + deviceId
  }

  function DeviceFunctionsPath(deviceId: string): string {
    DevicePath(deviceId) + "/functions"
  }

  function CategoryFunctionsPath(categoryId: string): string {
    "/v1.0/functions/" + categoryId
  }

  function DeviceSpecificationPath(deviceId: string): string {
    DevicePath(deviceId) + "/specifications"
  }

  function CommandsPath(deviceId: string): string {
    DevicePath(deviceId) + "/commands"
  }

  /** `{"device_ids": ",".join(device_ids)}` */
  function DeviceIdsParams(deviceIds: seq<string>): Params {
    map["device_ids" := PStr(Join(deviceIds, ','))]
  }

  /** `{"commands": commands}` */
  function CommandsBody(commands: seq<Json>): Object {
    map["commands" := JArray(commands)]
  }

  /** A batch of device ids goes out as one parameter from which the ids can be read
      back, provided no id contains a comma. */
  lemma DeviceIdsParamsSplit(deviceIds: seq<string>)
    requires |deviceIds| > 0
    requires forall i :: 0 <= i < |deviceIds| ==> ',' !in deviceIds[i]
    ensures DeviceIdsParams(deviceIds).Keys == {"device_ids"}
    ensures Split(DeviceIdsParams(deviceIds)["device_ids"].s, ',') == deviceIds
  {
    SplitJoin(deviceIds, ',');
  }

  /** A request's result passed on to a reshaping of the response. */
  function Bind(response: Result<Object>, reshaped: Result<Object>): Result<Object> {
    if response.Err? then Err(response.error) else reshaped
  }

  /** `get_device_info`: the response as it came when the status is to be included,
      otherwise with `status` popped from `result`. */
  function DeviceInfoView(response: Object, includeDeviceStatus: bool): (r: Result<Object>)
    ensures includeDeviceStatus ==> r == Ok(response)
    ensures !includeDeviceStatus ==>
              (r.Ok? <==> "result" in response && response["result"].JObject? && "status" in response["result"].fields)
    ensures !includeDeviceStatus && "result" !in response ==> r == Err(KeyError("result"))
    ensures r.Ok? && !includeDeviceStatus ==>
              && r.value.Keys == response.Keys
              && (forall k :: k in response && k != "result" ==> r.value[k] == response[k])
              && r.value["result"] == JObject(response["result"].fields - {"status"})
  {
    if includeDeviceStatus then Ok(response)
    else
      var result :- Lookup(response, "result");
      var stripped :- Pop(result, "status");
      Ok(response["result" := JObject(stripped)])
  }

  /** `get_device_status`: `result` replaced by its `status`, everything else kept. */
  function DeviceStatusView(response: Object): (r: Result<Object>)
    ensures r.Ok? <==> "result" in response && response["result"].JObject? && "status" in response["result"].fields
    ensures "result" !in response ==> r == Err(KeyError("result"))
    ensures r.Ok? ==>
              && r.value.Keys == response.Keys
              && (forall k :: k in response && k != "result" ==> r.value[k] == response[k])
              && r.value["result"] == response["result"].fields["status"]
  {
    var result :- Lookup(response, "result");
    var status :- Index(result, "status");
    Ok(response["result" := status])
  }

  /** `info.pop("status")` for every device in turn; the first device that is not a
      dict or has no status stops the walk with its error. */
  function StrippedDevices(devices: seq<Json>): (r: Result<seq<Json>>)
    ensures r.Ok? <==> forall i :: 0 <= i < |devices| ==> Pop(devices[i], "status").Ok?
    ensures r.Ok? ==> |r.value| == |devices|
    ensures r.Ok? ==> forall i :: 0 <= i < |devices| ==> r.value[i] == JObject(devices[i].fields - {"status"})
    ensures r.Err? ==> exists i :: 0 <= i < |devices| && Pop(devices[i], "status") == Err(r.error)
                                   && forall j :: 0 <= j < i ==> Pop(devices[j], "status").Ok?
  {
    if |devices| == 0 then Ok([])
    else
      var head :- Pop(devices[0], "status");
      var rest :- StrippedDevices(devices[1..]);
      Ok([JObject(head)] + rest)
  }

  /** `{"id": info["id"], "status": info["status"]}` */
  function StatusEntry(info: Json): (r: Result<Json>)
    ensures r.Ok? <==> info.JObject? && "id" in info.fields && "status" in info.fields
    ensures r.Ok? ==> r.value == JObject(map["id" := info.fields["id"], "status" := info.fields["status"]])
    ensures info.JObject? && "id" !in info.fields ==> r == Err(KeyError("id"))
  {
    var id :- Index(info, "id");
    var status :- Index(info, "status");
    Ok(JObject(map["id" := id, "status" := status]))
  }

  /** The status entries of all devices, in order; the first device without one stops
      the walk with its error. */
  function StatusEntries(devices: seq<Json>): (r: Result<seq<Json>>)
    ensures r.Ok? <==> forall i :: 0 <= i < |devices| ==> StatusEntry(devices[i]).Ok?
    ensures r.Ok? ==> |r.value| == |devices|
    ensures r.Ok? ==> forall i :: 0 <= i < |devices| ==> Ok(r.value[i]) == StatusEntry(devices[i])
    ensures r.Err? ==> exists i :: 0 <= i < |devices| && StatusEntry(devices[i]) == Err(r.error)
                                   && forall j :: 0 <= j < i ==> StatusEntry(devices[j]).Ok?
  {
    if |devices| == 0 then Ok([])
    else
      var head :- StatusEntry(devices[0]);
      var rest :- StatusEntries(devices[1..]);
      Ok([head] + rest)
  }

  /** `acc` followed by the walk's result, or the walk's error. */
  function Prepend(acc: seq<Json>, r: Result<seq<Json>>): Result<seq<Json>> {
    if r.Err? then r else Ok(acc + r.value)
  }

  lemma PrependNothing(r: Result<seq<Json>>)
    ensures Prepend([], r) == r
  {
    if r.Ok? {
      assert [] + r.value == r.value;
    }
  }

  lemma PrependTwice(acc: seq<Json>, x: Json, r: Result<seq<Json>>)
    ensures Prepend(acc, Prepend([x], r)) == Prepend(acc + [x], r)
  {
    if r.Ok? {
      assert acc + ([x] + r.value) == acc + [x] + r.value;
    }
  }

  /** `for info in devices: info.pop("status")` */
  method StripStatusEach(devices: seq<Json>) returns (r: Result<seq<Json>>)
    ensures r == StrippedDevices(devices)
  {
    var acc: seq<Json> := [];
    assert devices[0..] == devices;
    PrependNothing(StrippedDevices(devices));
    for i := 0 to |devices|
      invariant StrippedDevices(devices) == Prepend(acc, StrippedDevices(devices[i..]))
    {
      assert devices[i..][1..] == devices[i + 1..];
      var stripped := Pop(devices[i], "status");
      if stripped.Err? {
        return Err(stripped.error);
      }
      PrependTwice(acc, JObject(stripped.value), StrippedDevices(devices[i + 1..]));
      acc := acc + [JObject(stripped.value)];
    }
    assert devices[|devices|..] == [];
    assert acc + [] == acc;
    r := Ok(acc);
  }

  /** `for info in devices: status_list.append({"id": ..., "status": ...})` */
  method CollectStatus(devices: seq<Json>) returns (r: Result<seq<Json>>)
    ensures r == StatusEntries(devices)
  {
    var statusList: seq<Json> := [];
    assert devices[0..] == devices;
    PrependNothing(StatusEntries(devices));
    for i := 0 to |devices|
      invariant StatusEntries(devices) == Prepend(statusList, StatusEntries(devices[i..]))
    {
      assert devices[i..][1..] == devices[i + 1..];
      var entry := StatusEntry(devices[i]);
      if entry.Err? {
        return Err(entry.error);
      }
      PrependTwice(statusList, entry.value, StatusEntries(devices[i + 1..]));
      statusList := statusList + [entry.value];
    }
    assert devices[|devices|..] == [];
    assert statusList + [] == statusList;
    r := Ok(statusList);
  }

  /** `get_device_list_info`: `response["success"]` is read first; only when it is truthy
      and the status is not wanted is `status` popped from every device of
      `result.devices`. */
  function DeviceListInfoView(response: Object, includeDeviceStatus: bool): (r: Result<Object>)
    ensures "success" !in response ==> r == Err(KeyError("success"))
    ensures "success" in response && (!Truthy(response["success"]) || includeDeviceStatus) ==> r == Ok(response)
  {
    var success :- Lookup(response, "success");
    if Truthy(success) && !includeDeviceStatus then
      var result :- Lookup(response, "result");
      var devicesJ :- Index(result, "devices");
      var devices :- Iterable(devicesJ);
      var stripped :- StrippedDevices(devices);
      if devicesJ.JArray? then Ok(response["result" := JObject(result.fields["devices" := JArray(stripped)])])
      else Ok(response)
    else Ok(response)
  }

  /** When the status is stripped from a device list, every device keeps all its
      fields but `status`, the devices keep their order, and nothing else in the
      response changes. */
  lemma DeviceListInfoStripsEveryDevice(response: Object, devices: seq<Json>)
    requires "success" in response && Truthy(response["success"])
    requires "result" in response && response["result"].JObject?
    requires "devices" in response["result"].fields && response["result"].fields["devices"] == JArray(devices)
    ensures var r := DeviceListInfoView(response, false);
            r.Ok? <==> forall i :: 0 <= i < |devices| ==> devices[i].JObject? && "status" in devices[i].fields
    ensures var r := DeviceListInfoView(response, false);
            r.Ok? ==>
              && r.value.Keys == response.Keys
              && (forall k :: k in response && k != "result" ==> r.value[k] == response[k])
              && r.value["result"].JObject?
              && r.value["result"].fields.Keys == response["result"].fields.Keys
              && (forall k :: k in response["result"].fields && k != "devices" ==>
                                r.value["result"].fields[k] == response["result"].fields[k])
              && r.value["result"].fields["devices"].JArray?
              && var out := r.value["result"].fields["devices"].items;
                 |out| == |devices| && forall i :: 0 <= i < |devices| ==> out[i] == JObject(devices[i].fields - {"status"})
  {
    var stripped := StrippedDevices(devices);
    if forall i :: 0 <= i < |devices| ==> devices[i].JObject? && "status" in devices[i].fields {
      assert stripped.Ok?;
    } else {
      var i :| 0 <= i < |devices| && !(devices[i].JObject? && "status" in devices[i].fields);
      assert Pop(devices[i], "status").Err?;
    }
  }

  /** `get_device_list_status`: `result` becomes the list of `{id, status}` of the
      devices when `success` is truthy, and the empty list otherwise. */
  function DeviceListStatusView(response: Object): (r: Result<Object>)
    ensures "success" !in response ==> r == Err(KeyError("success"))
    ensures "success" in response && !Truthy(response["success"]) ==> r == Ok(response["result" := JArray([])])
    ensures r.Ok? ==> r.value.Keys == response.Keys + {"result"}
                      && (forall k :: k in response && k != "result" ==> r.value[k] == response[k])
                      && r.value["result"].JArray?
  {
    var success :- Lookup(response, "success");
    var statusList :- if Truthy(success) then ListedStatus(response) else Ok([]);
    Ok(response["result" := JArray(statusList)])
  }

  /** The status entries of `response["result"]["devices"]`. */
  function ListedStatus(response: Object): Result<seq<Json>> {
    var result :- Lookup(response, "result");
    var devicesJ :- Index(result, "devices");
    var devices :- Iterable(devicesJ);
    StatusEntries(devices)
  }

  /** With a truthy `success` and a list of devices, the new `result` has one
      `{id, status}` entry per device, in the devices' order. */
  lemma DeviceListStatusEntries(response: Object, devices: seq<Json>)
    requires "success" in response && Truthy(response["success"])
    requires "result" in response && response["result"].JObject?
    requires "devices" in response["result"].fields && response["result"].fields["devices"] == JArray(devices)
    requires forall i :: 0 <= i < |devices| ==> devices[i].JObject? && "id" in devices[i].fields && "status" in devices[i].fields
    ensures var r := DeviceListStatusView(response);
            r.Ok? && r.value["result"].JArray?
            && var entries := r.value["result"].items;
               |entries| == |devices|
               && forall i :: 0 <= i < |devices| ==>
                    entries[i] == JObject(map["id" := devices[i].fields["id"], "status" := devices[i].fields["status"]])
  {
    var entries := StatusEntries(devices);
    assert entries.Ok?;
    forall i | 0 <= i < |devices|
      ensures entries.value[i] == JObject(map["id" := devices[i].fields["id"], "status" := devices[i].fields["status"]])
    {
      assert Ok(entries.value[i]) == StatusEntry(devices[i]);
    }
  }

  /** `SmartHomeDeviceAPI(api)`: device calls over one Open API client. */
  class SmartHomeDeviceApi {
    const api: TuyaOpenApiClient

    constructor (api: TuyaOpenApiClient)
      ensures this.api == api
    {
      this.api := api;
    }

    /** `get_device_info(device_id, include_device_status)` */
    method GetDeviceInfo(deviceId: string, now: nat, includeDeviceStatus: bool := true) returns (r: Result<Object>)
      modifies api
      ensures var out := SpecRequest(api.Configuration(), old(api.Current()), "GET", DevicePath(deviceId), None, None, now);
              api.Current() == out.1
              && r == Bind(out.0, if out.0.Ok? then DeviceInfoView(out.0.value, includeDeviceStatus) else Ok(map[]))
    {
      var response := api.Get(DevicePath(deviceId), None, now);
      if response.Err? {
        return Err(response.error);
      }
      r := DeviceInfoView(response.value, includeDeviceStatus);
    }

    /** `get_device_list_info(device_ids, include_device_status)` */
    method GetDeviceListInfo(deviceIds: seq<string>, now: nat, includeDeviceStatus: bool := true) returns (r: Result<Object>)
      modifies api
      ensures var out := SpecRequest(api.Configuration(), old(api.Current()), "GET", DevicesPath,
                                     Some(DeviceIdsParams(deviceIds)), None, now);
              api.Current() == out.1
              && r == Bind(out.0, if out.0.Ok? then DeviceListInfoView(out.0.value, includeDeviceStatus) else Ok(map[]))
    {
      var got := api.Get(DevicesPath, Some(DeviceIdsParams(deviceIds)), now);
      if got.Err? {
        return Err(got.error);
      }
      var response := got.value;
      if "success" !in response {
        return Err(KeyError("success"));
      }
      if Truthy(response["success"]) && !includeDeviceStatus {
        if "result" !in response {
          return Err(KeyError("result"));
        }
        var result := response["result"];
        var devicesJ := Index(result, "devices");
        if devicesJ.Err? {
          return Err(devicesJ.error);
        }
        var devices := Iterable(devicesJ.value);
        if devices.Err? {
          return Err(devices.error);
        }
        var stripped := StripStatusEach(devices.value);
        if stripped.Err? {
          return Err(stripped.error);
        }
        if devicesJ.value.JArray? {
          response := response["result" := JObject(result.fields["devices" := JArray(stripped.value)])];
        }
      }
      r := Ok(response);
    }

    /** `get_device_status(device_id)` */
    method GetDeviceStatus(deviceId: string, now: nat) returns (r: Result<Object>)
      modifies api
      ensures var out := SpecRequest(api.Configuration(), old(api.Current()), "GET", DevicePath(deviceId), None, None, now);
              api.Current() == out.1
              && r == Bind(out.0, if out.0.Ok? then DeviceStatusView(out.0.value) else Ok(map[]))
    {
      var response := api.Get(DevicePath(deviceId), None, now);
      if response.Err? {
        return Err(response.error);
      }
      r := DeviceStatusView(response.value);
    }

    /** `get_device_list_status(device_ids)` */
    method GetDeviceListStatus(deviceIds: seq<string>, now: nat) returns (r: Result<Object>)
      modifies api
      ensures var out := SpecRequest(api.Configuration(), old(api.Current()), "GET", DevicesPath,
                                     Some(DeviceIdsParams(deviceIds)), None, now);
              api.Current() == out.1
              && r == Bind(out.0, if out.0.Ok? then DeviceListStatusView(out.0.value) else Ok(map[]))
    {
      var got := api.Get(DevicesPath, Some(DeviceIdsParams(deviceIds)), now);
      if got.Err? {
        return Err(got.error);
      }
      var response := got.value;
      if "success" !in response {
        return Err(KeyError("success"));
      }
      var statusList: seq<Json> := [];
      if Truthy(response["success"]) {
        if "result" !in response {
          return Err(KeyError("result"));
        }
        var devicesJ := Index(response["result"], "devices");
        if devicesJ.Err? {
          return Err(devicesJ.error);
        }
        var devices := Iterable(devicesJ.value);
        if devices.Err? {
          return Err(devices.error);
        }
        var entries := CollectStatus(devices.value);
        if entries.Err? {
          return Err(entries.error);
        }
        statusList := entries.value;
      }
      response := response["result" := JArray(statusList)];
      r := Ok(response);
    }

    /** `get_factory_info(device_ids)` */
    method GetFactoryInfo(deviceIds: seq<string>, now: nat) returns (r: Result<Object>)
      modifies api
      ensures (r, api.Current()) == SpecRequest(api.Configuration(), old(api.Current()), "GET", FactoryInfosPath,
                                                Some(DeviceIdsParams(deviceIds)), None, now)
    {
      r := api.Get(FactoryInfosPath, Some(DeviceIdsParams(deviceIds)), now);
    }

    /** `get_device_functions(device_id)` */
    method GetDeviceFunctions(deviceId: string, now: nat) returns (r: Result<Object>)
      modifies api
      ensures (r, api.Current()) == SpecRequest(api.Configuration(), old(api.Current()), "GET", DeviceFunctionsPath(deviceId),
                                                None, None, now)
    {
      r := api.Get(DeviceFunctionsPath(deviceId), None, now);
    }

    /** `get_category_functions(category_id)` */
    method GetCategoryFunctions(categoryId: string, now: nat) returns (r: Result<Object>)
      modifies api
      ensures (r, api.Current()) == SpecRequest(api.Configuration(), old(api.Current()), "GET", CategoryFunctionsPath(categoryId),
                                                None, None, now)
    {
      r := api.Get(CategoryFunctionsPath(categoryId), None, now);
    }

    /** `get_device_specification(device_id)` */
    method GetDeviceSpecification(deviceId: string, now: nat) returns (r: Result<Object>)
      modifies api
      ensures (r, api.Current()) == SpecRequest(api.Configuration(), old(api.Current()), "GET", DeviceSpecificationPath(deviceId),
                                                None, None, now)
    {
      r := api.Get(DeviceSpecificationPath(deviceId), None, now);
    }

    /** `send_commands(device_id, commands)` */
    method SendCommands(deviceId: string, commands: seq<Json>, now: nat) returns (r: Result<Object>)
      modifies api
      ensures (r, api.Current()) == SpecRequest(api.Configuration(), old(api.Current()), "POST", CommandsPath(deviceId),
                                                None, Some(CommandsBody(commands)), now)
    {
      r := api.Post(CommandsPath(deviceId), Some(CommandsBody(commands)), now);
    }
  }
}
