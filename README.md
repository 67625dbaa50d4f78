# bestlab_platform cloud clients in Dafny

This project models the two cloud clients of `bestlab_platform` and proves properties of them.

**Tuya Open API client** (`tuya/openapi.py`):
- It caches an access token read from the token endpoint.
- Before each request it refreshes that token when a minute or less of its life is left, or connects first when none is cached.
- It signs every request with HMAC-SHA256 over a canonical string. The string is built from:
  - the method;
  - the SHA-256 of the JSON body;
  - an empty header line;
  - the path with its parameters, sorted by key.
- It sends each request once. On a failed reply (an HTTP error, or `success` missing or `False`) it drops the token and sends the identical request a second time. A second failure raises `ResponseError`.

**Tuya device layer** (`tuya/device.py`):
- `SmartHomeDeviceAPI` wraps single calls and reshapes their responses. For example, it can strip `status` from device info, or turn `result` into a list of `{id, status}` entries.
- It walks the paginated device log: the first page is always fetched, and `start_row_key` follows `next_row_key` while `has_next` is set.
- `TuyaDeviceManager` runs those calls over a set of named devices.

**HOBO web-services client** (`hobo/webapi.py`):
- It obtains an OAuth 2.0 client-credentials token (section 4.4 of RFC 6749), with a 60-second refresh margin.
- It sends that token as a bearer header (section 2.1 of RFC 6750). Failed replies are not retried.
- It builds the `get_data` query for a set of loggers.

## How the model is built

Each behaviour that goes through the client is given first as a function over the client's state. That state is the cached token plus the log of requests sent so far, a `seq<HttpRequest>`. The server is a parameter `Server = (nat, HttpRequest) -> HttpReply`: it gives the reply to the n-th request of a session. The clock is a parameter `now`, in milliseconds for Tuya and in seconds for HOBO.

The Python classes are Dafny classes of the same shape: `TuyaOpenApiClient`, `SmartHomeDeviceApi`, `TuyaDeviceManager` and `HoboApi`. Their methods that send requests through the client mutate the cached token and the request log the way the source does. The device-log walk is the exception: it is modelled as module-level methods over a sequence of page replies (see "## Left out"). Each method's `ensures` ties its result and new state to the spec function, applied to the old state. The spec functions carry the properties as lemmas.

The token endpoint and the refresh endpoint are reached through the same request routine that calls the refresh. The Tuya functions `SpecRequest`, `SpecRefresh` and `SpecConnect` are therefore mutually recursive. Termination is by the rank of the path: a login path never triggers a refresh.

SHA-256, HMAC-SHA256, UTF-8 encoding and `json.dumps` are opaque function values in a `Foreign` record. Nothing in the model depends on how they compute.

Python dicts whose insertion order shows in the result are sequences of `(name, value)` pairs with distinct names. These are the device map and the name-keyed batch results. Python exceptions are the `Err` side of a `Result`, so `raise`/`KeyError`/`AttributeError` paths are explicit.

| file | module |
|---|---|
| `exceptions.dfy` | `Error` (ResponseError, KeyError, TypeError, ValueError, AttributeError), `Option`, `Result` |
| `json.dfy` | decoded JSON values; dict indexing, `get` with default, `pop`, truthiness |
| `text.dfy` | `str.join`, splitting, `str(int)`, upper/lower case |
| `string_order.dfy` | code-point order of `str` and `sorted()` of a key set |
| `hex.dfy` | `hexdigest()` and its decoding |
| `http.dfy` | requests, replies (`ok` is a status outside 400–599), parameters |
| `tuya_token.dfy` | `TuyaTokenInfo` |
| `tuya_sign.dfy` | `_calculate_sign`'s canonical string and signature |
| `tuya_openapi.dfy` | `TuyaOpenAPI` |
| `tuya_device.dfy` | `SmartHomeDeviceAPI` single calls |
| `tuya_device_log.dfy` | `_yield_device_log_page`, `get_device_log` |
| `tuya_device_manager.dfy` | `TuyaDeviceManager` |
| `hobo_webapi.dfy` | `HoboTokenInfo`, `HoboAPI` |

## Model

| member | source | states |
|---|---|---|
| Hex.HexDigest | bestlab_platform/tuya/openapi.py:94-95 | a digest is written as two lower-case hex digits per byte |
| Hex.UnhexHexDigest | bestlab_platform/tuya/openapi.py:94-95 | the hex text of a digest decodes back to the digest's bytes |
| Hex.LowerHexDigest | bestlab_platform/tuya/openapi.py:94-95 | `.lower()` leaves a `hexdigest()` unchanged |
| Hex.UpperHexDigestShape | bestlab_platform/tuya/openapi.py:122-130 | the upper-cased HMAC digest has two upper-case hex digits per byte |
| Hex.UpperHexDigestDecodes | bestlab_platform/tuya/openapi.py:122-130 | upper-casing loses nothing: the signature still decodes to the HMAC bytes |
| StringOrder.SortedKeys | bestlab_platform/tuya/openapi.py:109 | `sorted(params.keys())` lists every key exactly once, in strictly increasing code-point order |
| StringOrder.SortedUnique | bestlab_platform/tuya/openapi.py:109 | two strictly sorted listings of the same keys are equal, so the sorted order is unique |
| StringOrder.LessTotal | bestlab_platform/tuya/openapi.py:109 | any two distinct keys are ordered one way or the other |
| Text.ParseNatToDecimal | bestlab_platform/tuya/openapi.py:218 | the `t` header, `str(t)`, reads back as the signing time |
| Text.SplitJoin | bestlab_platform/tuya/device.py:49 | a comma-joined id list splits back into the ids when no id holds a comma |
| TuyaToken.TokenInfoOfTokenReply | bestlab_platform/tuya/openapi.py:31-41 | reading a token reply recovers its access token, refresh token and uid, and the expiry is `t` plus the lifetime times 1000 |
| TuyaToken.Lifetime | bestlab_platform/tuya/openapi.py:37 | definition of the lifetime read: `expire`, else `expire_time`, else 0; the contract states the case with neither key, and `ExpireTimeFallback` the `expire_time` case |
| TuyaToken.TokenInfoOf | bestlab_platform/tuya/openapi.py:31-41 | reading fails exactly when `result` is not a dict or one of the fields read has the wrong type; otherwise the expiry is `t` (0 when absent) plus 1000 times the lifetime, so `t` itself when neither lifetime key is present, and each string field is its `result` entry or "" when absent |
| TuyaToken.ExpireTimeFallback | bestlab_platform/tuya/openapi.py:35-38 | without `result.expire`, the lifetime is taken from `result.expire_time` |
| TuyaToken.EmptyReplyDefaults | bestlab_platform/tuya/openapi.py:33-41 | a reply with neither `t` nor `result` gives expiry 0 and empty strings |
| TuyaToken.TokenInfoAccessToken | bestlab_platform/tuya/openapi.py:39 | the cached access token is the reply's `result.access_token` |
| TuyaSign.QueryPairs | bestlab_platform/tuya/openapi.py:111-112 | one `key=value` pair per key, in the keys' order |
| TuyaSign.SortedParamKeys | bestlab_platform/tuya/openapi.py:109 | the sorted key list holds every parameter key and only those, each once |
| TuyaSign.AmpersandTerminated | bestlab_platform/tuya/openapi.py:108-112 | a non-empty query builder ends in `&` |
| TuyaSign.DropTrailingAmpersand | bestlab_platform/tuya/openapi.py:113 | `query_builder[:-1]` is the pairs joined by `&` |
| TuyaSign.QueryStringOfBuilder | bestlab_platform/tuya/openapi.py:105-113 | the query part is `?` followed by the builder without its last `&` |
| TuyaSign.QueryStringFromAnySortedKeys | bestlab_platform/tuya/openapi.py:109-113 | the query part is `?` plus the pairs of any strictly sorted listing of the keys, joined by `&` |
| TuyaSign.QueryStringSplits | bestlab_platform/tuya/openapi.py:105-113 | the query part starts with `?` and splits on `&` back into the sorted pairs when no key or value holds `&` |
| TuyaSign.ContentHashHasNoLineBreak | bestlab_platform/tuya/openapi.py:89-96 | the content hash line holds no line break |
| TuyaSign.StringToSignLines | bestlab_platform/tuya/openapi.py:85-113 | the canonical string is exactly four lines: method, content hash, empty header line, path with query |
| TuyaSign.EmptyBodyAndParamsSignAlike | bestlab_platform/tuya/openapi.py:89-105 | an empty body or parameter dict signs exactly like an absent one, and the content hash is then the hash of "" |
| TuyaSign.SignatureIsUpperHexDigest | bestlab_platform/tuya/openapi.py:122-130 | the signature is the upper-cased hex of the HMAC, twice its length and decodable back to it |
| TuyaOpenApi.Transmit | bestlab_platform/tuya/openapi.py:230-256 | the request is logged first and at most one more send follows |
| TuyaOpenApi.SpecRequest | bestlab_platform/tuya/openapi.py:187-262 | a request only appends to the request log, and boundedly many entries |
| TuyaOpenApi.SpecRefresh | bestlab_platform/tuya/openapi.py:133-156 | the token step only appends to the request log, and boundedly many entries |
| TuyaOpenApi.SpecConnect | bestlab_platform/tuya/openapi.py:158-178 | `connect()` sends at most two requests and only appends to the log |
| TuyaOpenApi.RefreshPathIsLoginPath | bestlab_platform/tuya/openapi.py:133-138 | a refresh path starts with the login path, so the template check never decides anything the login check has not |
| TuyaOpenApi.ExemptRequestSkipsRefresh | bestlab_platform/tuya/openapi.py:133-138 | a token or refresh request does no token step and is sent in the state it began with |
| TuyaOpenApi.TransmitRetriesOnce | bestlab_platform/tuya/openapi.py:236-253 | success on the first reply sends once; a failure drops the token and re-sends the identical request; a second failure raises `ResponseError` with that reply's code and text |
| TuyaOpenApi.RefreshedLogPrecedes | bestlab_platform/tuya/openapi.py:209-232 | the token step's requests precede the request proper in the log |
| TuyaOpenApi.MissingTokenConnectsFirst | bestlab_platform/tuya/openapi.py:140-142 | with no cached token, the first request sent is the token request, signed with an empty access token |
| TuyaOpenApi.FreshTokenIsUsed | bestlab_platform/tuya/openapi.py:144-149 | a token with more than a minute left is used as it is |
| TuyaOpenApi.ExpiringTokenIsRefreshed | bestlab_platform/tuya/openapi.py:151-156 | a token with a minute or less left is refreshed first, by a request signed with the access token cleared; the request proper is then signed with the refreshed token |
| TuyaOpenApi.RefreshCachesToken | bestlab_platform/tuya/openapi.py:147-156 | after a successful refresh the cached token is `TuyaTokenInfo` of the reply to the refresh request sent with the access token cleared |
| TuyaOpenApi.ConnectSendsTokenRequest | bestlab_platform/tuya/openapi.py:166-173 | `connect()` first drops any cached token and sends the grant request |
| TuyaOpenApi.ConnectCachesToken | bestlab_platform/tuya/openapi.py:175-178 | a successful `connect()` caches the token read from the reply it returns |
| TuyaOpenApi.ConnectedAfterConnect | bestlab_platform/tuya/openapi.py:180-185 | after a `connect()` whose reply has a non-empty access token, `is_connect()` holds |
| TuyaOpenApi.MethodRouting | bestlab_platform/tuya/openapi.py:230-326 | every request `get` and `delete` send after the token step, the retry included, carries their params and no body; every one `post` and `put` send carries their body and no params; all go to endpoint + path |
| TuyaOpenApi.LoggedRequestsRouted | bestlab_platform/tuya/openapi.py:230-247 | every request `__request` sends after the token step, the retry included, has the call's method, endpoint + path, params and body |
| TuyaOpenApi.RequestHeaders | bestlab_platform/tuya/openapi.py:211-247 | every request sent after the token step, the retry included, carries client id, language, `str(now)`, the token the token step left cached, and a `sign` that is the signature of that request's own method, params and body with that token, even after the retry has dropped the token from the cache |
| TuyaOpenApi.RequestAfterTokenStep | bestlab_platform/tuya/openapi.py:209-247 | a failed token step raises with nothing more sent; otherwise the request sends the one signed request once, or twice when the first reply failed |
| TuyaOpenApi.FailedReplyDisconnects | bestlab_platform/tuya/openapi.py:180-244 | after a first reply that failed no token is cached, so `is_connect()` is false whatever the retry returns; after one that succeeded the token step's token stays |
| TuyaOpenApi.TuyaOpenApiClient.constructor | bestlab_platform/tuya/openapi.py:52-71 | a new client holds its configuration, with language "en" by default, no token and an empty log |
| TuyaOpenApi.TuyaOpenApiClient.Create | bestlab_platform/tuya/openapi.py:52-73 | with `auto_connect`, on by default, the new client's state is that after `connect()`, and `connect()`'s error is raised; without it the client is as constructed |
| TuyaOpenApi.TuyaOpenApiClient.Send | bestlab_platform/tuya/openapi.py:230-232 | one send appends the request to the log and returns the server's reply to it |
| TuyaOpenApi.TuyaOpenApiClient.QueryPart | bestlab_platform/tuya/openapi.py:105-113 | the loop over the sorted keys builds the query part of the canonical string |
| TuyaOpenApi.TuyaOpenApiClient.BuildPairs | bestlab_platform/tuya/openapi.py:108-112 | the builder is the `key=value&` pairs of the given keys, concatenated |
| TuyaOpenApi.TuyaOpenApiClient.CalculateSign | bestlab_platform/tuya/openapi.py:76-131 | the signature is the HMAC of the message over the canonical string, at time `now` |
| TuyaOpenApi.TuyaOpenApiClient.RefreshAccessTokenIfNeed | bestlab_platform/tuya/openapi.py:133-156 | the method's result and new state are those of the token step |
| TuyaOpenApi.TuyaOpenApiClient.Connect | bestlab_platform/tuya/openapi.py:158-178 | the method's result and new state are those of `connect()` |
| TuyaOpenApi.TuyaOpenApiClient.IsConnected | bestlab_platform/tuya/openapi.py:180-185 | the method answers the `is_connect()` predicate of the cached token, the one `ConnectedAfterConnect` and `FailedReplyDisconnects` are stated with |
| TuyaOpenApi.TuyaOpenApiClient.Request | bestlab_platform/tuya/openapi.py:187-262 | the method's result and new state are those of a request |
| TuyaOpenApi.TuyaOpenApiClient.Get | bestlab_platform/tuya/openapi.py:264-278 | a GET request with params and no body |
| TuyaOpenApi.TuyaOpenApiClient.Post | bestlab_platform/tuya/openapi.py:280-294 | a POST request with a body and no params |
| TuyaOpenApi.TuyaOpenApiClient.Put | bestlab_platform/tuya/openapi.py:296-310 | a PUT request with a body and no params |
| TuyaOpenApi.TuyaOpenApiClient.Delete | bestlab_platform/tuya/openapi.py:312-326 | a DELETE request with params and no body |
| TuyaDevice.DeviceIdsParamsSplit | bestlab_platform/tuya/device.py:49 | the only parameter is `device_ids`, and it splits back into the given ids |
| TuyaDevice.DeviceInfoView | bestlab_platform/tuya/device.py:34-37 | with status the response is unchanged; without, it succeeds exactly when `result` is a dict holding `status`, which alone is removed |
| TuyaDevice.DeviceStatusView | bestlab_platform/tuya/device.py:65-67 | succeeds exactly when `result.status` exists; `result` becomes it and nothing else changes |
| TuyaDevice.StrippedDevices | bestlab_platform/tuya/device.py:51-52 | every device loses `status` and keeps its other fields and its place; the first device without one raises its error |
| TuyaDevice.StatusEntry | bestlab_platform/tuya/device.py:82 | the entry holds exactly the device's `id` and `status`; a missing one is a KeyError |
| TuyaDevice.StatusEntries | bestlab_platform/tuya/device.py:79-82 | one entry per device, in order; the first device without one raises its error |
| TuyaDevice.StripStatusEach | bestlab_platform/tuya/device.py:51-52 | the loop strips exactly as the reshaping function states |
| TuyaDevice.CollectStatus | bestlab_platform/tuya/device.py:79-82 | the loop collects exactly the status entries |
| TuyaDevice.DeviceListInfoView | bestlab_platform/tuya/device.py:49-54 | `success` is read first (KeyError if absent); with a falsy `success` or with status wanted the response is unchanged |
| TuyaDevice.DeviceListInfoStripsEveryDevice | bestlab_platform/tuya/device.py:50-52 | with a truthy `success` it succeeds exactly when every device has a status, and then only the devices' `status` fields are removed |
| TuyaDevice.DeviceListStatusView | bestlab_platform/tuya/device.py:78-85 | `result` becomes a list (empty when `success` is falsy); every other field is kept |
| TuyaDevice.DeviceListStatusEntries | bestlab_platform/tuya/device.py:80-84 | with a truthy `success` the list holds one `{id, status}` per device, in the devices' order |
| TuyaDevice.SmartHomeDeviceApi.constructor | bestlab_platform/tuya/device.py:21-22 | the wrapper holds the given client |
| TuyaDevice.SmartHomeDeviceApi.GetDeviceInfo | bestlab_platform/tuya/device.py:24-37 | one GET of the device path, reshaped by `DeviceInfoView` |
| TuyaDevice.SmartHomeDeviceApi.GetDeviceListInfo | bestlab_platform/tuya/device.py:39-54 | one GET of the device list with the joined ids, reshaped by `DeviceListInfoView` |
| TuyaDevice.SmartHomeDeviceApi.GetDeviceStatus | bestlab_platform/tuya/device.py:56-67 | one GET of the device path, reshaped by `DeviceStatusView` |
| TuyaDevice.SmartHomeDeviceApi.GetDeviceListStatus | bestlab_platform/tuya/device.py:69-85 | one GET of the device list, reshaped by `DeviceListStatusView` |
| TuyaDevice.SmartHomeDeviceApi.GetFactoryInfo | bestlab_platform/tuya/device.py:87-99 | one GET of the factory-info path with the joined ids |
| TuyaDevice.SmartHomeDeviceApi.GetDeviceFunctions | bestlab_platform/tuya/device.py:107-116 | one GET of the device's functions path |
| TuyaDevice.SmartHomeDeviceApi.GetCategoryFunctions | bestlab_platform/tuya/device.py:118-131 | one GET of the category's functions path |
| TuyaDevice.SmartHomeDeviceApi.GetDeviceSpecification | bestlab_platform/tuya/device.py:134-143 | one GET of the device's specifications path |
| TuyaDevice.SmartHomeDeviceApi.SendCommands | bestlab_platform/tuya/device.py:159-173 | one POST of `{"commands": commands}` to the device's commands path |
| TuyaDeviceLog.RunFrom | bestlab_platform/tuya/device.py:207-231 | the first request uses the given params; there is at most one request per reply and one page per request, and one page per request when the walk succeeds |
| TuyaDeviceLog.NextRun | bestlab_platform/tuya/device.py:224-231 | definition of the next request's parameters: `start_row_key` set to the page's `next_row_key`; an unreadable key raises |
| TuyaDeviceLog.RunFromStep | bestlab_platform/tuya/device.py:213-231 | a page without `has_next` ends the walk after yielding its logs; a page with it yields its logs and continues from its `next_row_key` |
| TuyaDeviceLog.RunFromStops | bestlab_platform/tuya/device.py:221-231 | every page but the last says `has_next`, and a walk that ends normally ends on a page that does not |
| TuyaDeviceLog.RunFromCursor | bestlab_platform/tuya/device.py:225-226 | the j-th request after the first carries the `next_row_key` of page j-1 |
| TuyaDeviceLog.RunFromPages | bestlab_platform/tuya/device.py:219-227 | the j-th yielded page is the `logs` of the j-th reply |
| TuyaDeviceLog.YieldDeviceLogPages | bestlab_platform/tuya/device.py:175-231 | the generator's loop makes exactly the requests and yields exactly the pages of the walk |
| TuyaDeviceLog.FlattenAppend | bestlab_platform/tuya/device.py:279 | concatenating pages one by one gives the concatenation of all of them |
| TuyaDeviceLog.FlattenLength | bestlab_platform/tuya/device.py:269-279 | the device log holds as many entries as all pages together |
| TuyaDeviceLog.FlattenEmptyIff | bestlab_platform/tuya/device.py:281-282 | the log is empty exactly when every page is empty |
| TuyaDeviceLog.ConcatPages | bestlab_platform/tuya/device.py:268-285 | the accumulation loop returns the pages' logs concatenated, or the walk's error |
| TuyaDeviceLog.GetDeviceLog | bestlab_platform/tuya/device.py:233-285 | `get_device_log` is the concatenated walk with page size 100 and log type 7 by default |
| TuyaDeviceLog.DeviceLogOfFinishedRun | bestlab_platform/tuya/device.py:269-285 | a finished walk over list pages returns their concatenation, empty exactly when every page is |
| TuyaManager.DeviceIdsOf | bestlab_platform/tuya/device.py:320 | definition of reading `self.device_ids`: AttributeError exactly when it was never set |
| TuyaManager.IdentityMap | bestlab_platform/tuya/device.py:308 | the list's dict names each id by itself, once, and names exactly the listed ids |
| TuyaManager.IdentityMapOfDistinctList | bestlab_platform/tuya/device.py:308 | a list without repeats is named in its own order |
| TuyaManager.DevicesAsWritten | bestlab_platform/tuya/device.py:293-311 | as written, a manager built from a map has no `device_ids` |
| TuyaManager.NewDevices | bestlab_platform/tuya/device.py:293-311 | ValueError unless exactly one of map and list is non-empty; `device_ids` is always set, to the map's ids in order or to the list; the devices' names are distinct, from a map with distinct keys or from a list's identity map |
| TuyaManager.MapManagerLacksDeviceIds | bestlab_platform/tuya/device.py:304-306 | as written, any map manager raises AttributeError on `device_ids`; corrected, it reads the map's ids |
| TuyaManager.AsWrittenDiffersOnlyInDeviceIds | bestlab_platform/tuya/device.py:293-311 | the two constructors agree on errors, on the device map and on the whole list path |
| TuyaManager.Batch | bestlab_platform/tuya/device.py:349-361 | a batch result holds one entry per device, under its name and in map order, with that device's result |
| TuyaManager.BatchFails | bestlab_platform/tuya/device.py:349-361 | a batch fails exactly when some device fails, and then with the first failing device's error |
| TuyaManager.BatchStep | bestlab_platform/tuya/device.py:350-359 | a batch is the first device's entry followed by the batch of the rest |
| TuyaManager.DeviceLogs | bestlab_platform/tuya/device.py:350-358 | definition of the batch's per-device logs: the i-th is `get_device_log` of its id over its own replies |
| TuyaManager.BatchLogsKeys | bestlab_platform/tuya/device.py:349-361 | the log map has the manager's names in order, each with its own device's log |
| TuyaManager.SendEachNames | bestlab_platform/tuya/device.py:397-402 | the response map has the manager's names in order |
| TuyaManager.SendAllSingle | bestlab_platform/tuya/device.py:397-402 | for one device the response map is that device's command response under its name |
| TuyaManager.SendEachBinds | bestlab_platform/tuya/device.py:397-402 | over any number of devices: on success entry i is device i's name with its reply, sent in the state the first i requests left; on failure the error is the first failing device's and the batch stops in the state its request left |
| TuyaManager.SendAllBinds | bestlab_platform/tuya/device.py:388-402 | the same for `send_command_in_batch`: entry i is the reply to the commands POST for device i's id, and on failure the error is that of the first failing POST, after which no later device's request is sent |
| TuyaManager.TuyaDeviceManager.constructor | bestlab_platform/tuya/device.py:293-311 | the manager holds the client and the devices |
| TuyaManager.TuyaDeviceManager.Create | bestlab_platform/tuya/device.py:293-311 | a manager is made exactly when the corrected constructor succeeds, otherwise its ValueError is raised |
| TuyaManager.TuyaDeviceManager.GetDeviceStatusInBatch | bestlab_platform/tuya/device.py:313-321 | AttributeError with no request when `device_ids` is unset; otherwise `get_device_list_status` of the ids |
| TuyaManager.TuyaDeviceManager.GetDeviceInfoInBatch | bestlab_platform/tuya/device.py:363-375 | AttributeError with no request when `device_ids` is unset; otherwise `get_device_list_info` of the ids |
| TuyaManager.TuyaDeviceManager.GetFactoryInfoInBatch | bestlab_platform/tuya/device.py:377-386 | AttributeError with no request when `device_ids` is unset; otherwise `get_factory_info` of the ids |
| TuyaManager.TuyaDeviceManager.GetDeviceLogInBatch | bestlab_platform/tuya/device.py:323-361 | the loop's log map is the batch of every device's log, in map order |
| TuyaManager.TuyaDeviceManager.SendCommandInBatch | bestlab_platform/tuya/device.py:388-402 | the method's result and client state are those of `SpecSendAll`, whose meaning over any number of devices `SendAllBinds` states |
| HoboWebApi.HoboTokenInfoOf | bestlab_platform/hobo/webapi.py:36-44 | a present `access_token` or `token_type` is read as it is, the defaults are "", "bearer" and 600 seconds, and the token expires `expires_in` seconds after `now` |
| HoboWebApi.TokenLifetime | bestlab_platform/hobo/webapi.py:46-51 | an empty token always needs refreshing; a non-empty token is reused until 60 seconds before it expires |
| HoboWebApi.TokenRequest | bestlab_platform/hobo/webapi.py:142-161 | definition of the grant request: a POST of the form `grant_type=client_credentials` with client id and secret to the token path, with no headers |
| HoboWebApi.SpecAcquire | bestlab_platform/hobo/webapi.py:130-169 | a kept token sends nothing; otherwise one grant is sent; a failed reply raises `ResponseError` and keeps the old token; a success caches the token read from the reply |
| HoboWebApi.AuthHeaders | bestlab_platform/hobo/webapi.py:200-203 | definition of the request headers: an `Authorization: Bearer <token>` header exactly when a token is cached |
| HoboWebApi.SpecRequest | bestlab_platform/hobo/webapi.py:171-229 | a request sends at most the grant and the request itself |
| HoboWebApi.AuthenticatedRequestCarriesBearer | bestlab_platform/hobo/webapi.py:197-215 | a successful authenticated request is logged after the token step, carrying the bearer of the token it left cached |
| HoboWebApi.RequestOutcome | bestlab_platform/hobo/webapi.py:171-229 | a failed token step raises with no request sent; otherwise one request is logged, and its reply's decoded body is returned or its status and text raised as ResponseError |
| HoboWebApi.FailedReplyIsNotRetried | bestlab_platform/hobo/webapi.py:213-229 | the request is sent once; a successful reply's body is the result and a failed reply raises `ResponseError` with its code and text |
| HoboWebApi.ForcedAcquireAlwaysRequests | bestlab_platform/hobo/webapi.py:139 | a forced token step always sends a grant request |
| HoboWebApi.IdTexts | bestlab_platform/hobo/webapi.py:110 | definition of `str(id)` of every logger id, in order |
| HoboWebApi.LoggerList | bestlab_platform/hobo/webapi.py:106-112 | a str is taken as it is, an empty list gives "", and any other type raises TypeError; the non-empty list case is stated by `LoggerListSplits` |
| HoboWebApi.LoggerListSplits | bestlab_platform/hobo/webapi.py:110 | the joined logger list splits back into the ids' texts |
| HoboWebApi.DataParams | bestlab_platform/hobo/webapi.py:114-118 | definition of the `get_data` query: exactly `loggers`, `start_date_time` and `end_date_time` |
| HoboWebApi.SpecGetData | bestlab_platform/hobo/webapi.py:105-112 | a `loggers` of the wrong type raises TypeError before any request |
| HoboWebApi.GetDataRequest | bestlab_platform/hobo/webapi.py:114-128 | with a current token exactly one GET goes to the user's data path, with the three params and the bearer header, and its reply's body is returned or its failure raised |
| HoboWebApi.HoboApi.constructor | bestlab_platform/hobo/webapi.py:61-75 | a new client holds its configuration, the default endpoint unless one is given, `str(user_id)`, no token and an empty log |
| HoboWebApi.HoboApi.Create | bestlab_platform/hobo/webapi.py:61-76 | the new client's state is that after a forced token step, and that step's error is raised |
| HoboWebApi.HoboApi.GetAccessTokenIfNeeded | bestlab_platform/hobo/webapi.py:130-169 | the method's result and new state are those of the token step |
| HoboWebApi.HoboApi.Request | bestlab_platform/hobo/webapi.py:171-229 | the method's result and new state are those of a request |
| HoboWebApi.HoboApi.Get | bestlab_platform/hobo/webapi.py:231-245 | an authenticated GET with params and no body |
| HoboWebApi.HoboApi.Post | bestlab_platform/hobo/webapi.py:247-261 | an authenticated POST with a body and no params |
| HoboWebApi.HoboApi.GetData | bestlab_platform/hobo/webapi.py:78-128 | the method's result and new state are those of `get_data` |

## Left out

- Logging (`logger.debug/info/warning/error`, `filter_logger`) and the `warn_on_empty_data` warnings: they only write to the log. `FlattenEmptyIff` states when the empty-log warning would fire.
- `requests.Session` and the network: a request is logged, and its reply is a function of its position in the session and of the request.
- `time.time()`: `now` is a parameter, read once per call. Tuya times are whole milliseconds (`int(time.time() * 1000)`); HOBO times are whole seconds, where the source uses a float.
- SHA-256, HMAC-SHA256, UTF-8 encoding and `json.dumps` are opaque functions: the model does not fix how they compute.
- A reply body that is not a JSON object, or that `response.json()` cannot decode, is not modelled. Every body is a decoded JSON object.
- Float timestamps and float `expire`/`expires_in` values: timestamps are an int or a str, and lifetimes are ints.
- TuyaToken.TokenInfoOf: a `t`, `expire`, `access_token`, `refresh_token` or `uid` of an unexpected JSON type is an error when the token is read. Python would instead fail later, or keep the odd value.
- HoboWebApi.HoboTokenInfoOf: an `access_token` or `token_type` that is not a str, or an `expires_in` that is not an int, is an error. Python would keep it.
- TuyaDeviceLog.NextRowKey: a `next_row_key` other than a str or an int is an error. Python would pass it to `requests` as it is.
- TuyaDeviceLog.RunFrom: the model requires that some reply ends the walk. When the server always answers `has_next`, the Python generator never stops.
- TuyaDeviceLog.GetDeviceLog / TuyaDeviceLog.YieldDeviceLogPages: in the source these are methods of `SmartHomeDeviceAPI` that fetch each page with `self.api.get` (bestlab_platform/tuya/device.py:175-285). The model has them as module-level methods that read the k-th page from `replies[k]` and never touch the client. A walk therefore does not capture:
  - each page request's token step and retry;
  - the requests it appends to the client's log;
  - the client's token and log after the walk.
  In the source, a page whose `logs` is not a list raises in `device_logs + page` before the generator asks for the next page. The model's walk reads on through the replies and then returns the same error, so it does not show that no further page was requested.
- TuyaManager.TuyaDeviceManager.GetDeviceLogInBatch:
  - each device's pages are given as that device's own reply sequence, and the method does not go through the client;
  - the token steps and retries of those page requests are not modelled.
- TuyaManager.SpecSendAll: states no property in its own contract. What it returns over any number of devices is stated by `SendAllBinds`, and the names of its result by `SendEachNames`.
- Python's dict aliasing is not modelled. `get_device_info`, `get_device_status` and the list variants mutate the response dict in place; the model returns a new value equal to the mutated dict. `_refresh_access_token_if_need` mutates `token_info.access_token`; the model replaces the cached value.
- `TuyaDeviceManager` sets `device_map` only once and then reads it, so it is a `const` field.
- The second `raise ValueError("You must specify ...")` of `TuyaDeviceManager.__init__` (device.py:311) is unreachable, because the check before it already raised.
- Parameter values (`Http.ParamValue`) are only ints and strs. The query string formats any value with `f"{key}={params[key]}"` (bestlab_platform/tuya/openapi.py:112), so for instance a bool would sign as `True`; the model cannot pass one.
- `openlogging.py`, `exceptions.py` beyond `ResponseError`, and the package's other modules are not part of this model.

## Findings

| source | as written | input that shows it | evidently intended | confidence | as-written member | corrected member |
|---|---|---|---|---|---|---|
| bestlab_platform/tuya/device.py:306 | on the `device_map` path `__init__` assigns `self.device_idsL`, so `self.device_ids` is never set and `get_device_status_in_batch`, `get_device_info_in_batch` and `get_factory_info_in_batch` raise AttributeError | `TuyaDeviceManager(api, device_map={"PIR3": "abc"})`, then `get_device_status_in_batch()` | `self.device_ids = list(device_map.values())` | high (the name differs only by the trailing `L`; not executed) | TuyaManager.DevicesAsWritten | TuyaManager.NewDevices |
