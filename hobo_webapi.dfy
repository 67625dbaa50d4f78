/** The HOBO web-services client (`HoboAPI`): an OAuth 2.0 client-credentials token
    (section 4.4 of RFC 6749) cached with a 60-second margin, sent as a bearer token
    (section 2.1 of RFC 6750), and the query that `get_data` builds. Times are whole
    seconds. */
module HoboWebApi {
  import opened Exceptions
  import opened Json
  import opened Text
  import opened Http

  const HoboEndpoint: string := "https://webservice.hobolink.com"
  const HoboGetTokenApi: string := "/ws/auth/token"
  /** Seconds before expiry at which a token is replaced. */
  const RefreshMargin: int := 60
  /** Token lifetime in seconds when the reply gives none. */
  const DefaultExpiresIn: int := 600
  const LoggersTypeMessage: string := "Please check your input to get_data function"

  datatype HoboTokenInfo = HoboTokenInfo(accessToken: string, tokenType: string, expireTime: int)

  /** `HoboTokenInfo(token_response)` at time `now`: `access_token` defaults to "",
      `token_type` to "bearer", and the token expires `expires_in` (default 600)
      seconds from now. */
  function HoboTokenInfoOf(tokenResponse: Object, now: nat): (r: Result<HoboTokenInfo>)
    ensures r.Ok? <==> GetStr(tokenResponse, "access_token", "").Ok?
                       && GetStr(tokenResponse, "token_type", "bearer").Ok?
                       && GetInt(tokenResponse, "expires_in", DefaultExpiresIn).Ok?
    ensures r.Ok? && "access_token" !in tokenResponse ==> r.value.accessToken == ""
    ensures r.Ok? && "access_token" in tokenResponse ==> tokenResponse["access_token"] == JStr(r.value.accessToken)
    ensures r.Ok? && "token_type" in tokenResponse ==> tokenResponse["token_type"] == JStr(r.value.tokenType)
    ensures r.Ok? && "token_type" !in tokenResponse ==> r.value.tokenType == "bearer"
    ensures r.Ok? && "expires_in" !in tokenResponse ==> r.value.expireTime == now + 600
    ensures r.Ok? ==> r.value.expireTime - now == GetInt(tokenResponse, "expires_in", DefaultExpiresIn).value
  {
    var accessToken :- GetStr(tokenResponse, "access_token", "");
    var tokenType :- GetStr(tokenResponse, "token_type", "bearer");
    var expiresIn :- GetInt(tokenResponse, "expires_in", DefaultExpiresIn);
    Ok(HoboTokenInfo(accessToken, tokenType, now + expiresIn))
  }

  /** `need_refresh()` at time `now`. */
  predicate NeedRefresh(info: HoboTokenInfo, now: nat) {
    if info.accessToken != "" then now + RefreshMargin > info.expireTime else true
  }

  /** A token with a non-empty access token that lives `expires_in` seconds is reused
      up to `expires_in - 60` seconds after it was issued and replaced from then on;
      an empty access token is always replaced. */
  lemma TokenLifetime(tokenResponse: Object, issued: nat, now: nat)
    requires HoboTokenInfoOf(tokenResponse, issued).Ok?
    ensures var info := HoboTokenInfoOf(tokenResponse, issued).value;
            var expiresIn := GetInt(tokenResponse, "expires_in", DefaultExpiresIn).value;
            && (info.accessToken == "" ==> NeedRefresh(info, now))
            && (info.accessToken != "" ==> (!NeedRefresh(info, now) <==> now <= issued + expiresIn - RefreshMargin))
  {
  }

  /** `str(user_id)` */
  function UserIdText(userId: ParamValue): string {
    ParamText(userId)
  }

  datatype Config = Config(endpoint: string, clientId: string, clientSecret: string, userId: string, server: Server)

  /** The cached token and the requests sent so far. */
  datatype State = State(tokenInfo: Option<HoboTokenInfo>, sent: seq<HttpRequest>)

  /** The client-credentials grant of `_get_access_token_if_needed`, form-encoded. */
  function TokenRequest(cfg: Config): (req: HttpRequest)
    ensures req.httpMethod == "POST" && req.url == cfg.endpoint + HoboGetTokenApi
    ensures req.params.None? && req.json.None? && req.headers.None?
    ensures req.data == Some(map["grant_type" := JStr("client_credentials"),
                                 "client_id" := JStr(cfg.clientId),
                                 "client_secret" := JStr(cfg.clientSecret)])
  {
    HttpRequest("POST", cfg.endpoint + HoboGetTokenApi, None, None,
                Some(map["grant_type" := JStr("client_credentials"),
                         "client_id" := JStr(cfg.clientId),
                         "client_secret" := JStr(cfg.clientSecret)]),
                None)
  }

  /** Whether `_get_access_token_if_needed(force)` keeps the cached token. */
  predicate KeepsToken(st: State, force: bool, now: nat) {
    !force && st.tokenInfo.Some? && !NeedRefresh(st.tokenInfo.value, now)
  }

  /** `_get_access_token_if_needed(force)`: nothing when the cached token is kept;
      otherwise one grant request, and the token it returns replaces the cache. A
      failed reply raises ResponseError and keeps the old token. */
  function SpecAcquire(cfg: Config, st: State, force: bool, now: nat): (out: (Result<()>, State))
    ensures KeepsToken(st, force, now) ==> out == (Ok(()), st)
    ensures !KeepsToken(st, force, now) ==> out.1.sent == st.sent + [TokenRequest(cfg)]
    ensures out.0.Err? ==> out.1.tokenInfo == st.tokenInfo
    ensures !KeepsToken(st, force, now) && !cfg.server(|st.sent|, TokenRequest(cfg)).Ok() ==>
              var reply := cfg.server(|st.sent|, TokenRequest(cfg));
              out.0 == Err(ResponseError(reply.statusCode, reply.text))
    ensures out.0.Ok? ==> out.1.tokenInfo.Some?
    ensures out.0.Ok? && !KeepsToken(st, force, now) ==>
              HoboTokenInfoOf(cfg.server(|st.sent|, TokenRequest(cfg)).body, now) == Ok(out.1.tokenInfo.value)
  {
    if KeepsToken(st, force, now) then (Ok(()), st)
    else
      var req := TokenRequest(cfg);
      var response := cfg.server(|st.sent|, req);
      var st1 := st.(sent := st.sent + [req]);
      if !response.Ok() then (Err(ResponseError(response.statusCode, response.text)), st1)
      else
        var info := HoboTokenInfoOf(response.body, now);
        if info.Err? then (Err(info.error), st1)
        else (Ok(()), st1.(tokenInfo := Some(info.value)))
  }

  /** The headers of `__request`: a bearer token when one is cached, none otherwise. */
  function AuthHeaders(tokenInfo: Option<HoboTokenInfo>): (h: Option<Headers>)
    ensures h.Some? <==> tokenInfo.Some?
    ensures h.Some? ==> h.value.Keys == {"Authorization"}
                        && h.value["Authorization"] == "Bearer " + tokenInfo.value.accessToken
  {
    if tokenInfo.Some? then Some(map["Authorization" := "Bearer " + tokenInfo.value.accessToken]) else None
  }

  /** `__request(method, path, params, body, auth_required)`: the token step when
      authentication is required, then one request; a failed reply raises ResponseError
      and is not retried. */
  function SpecRequest(cfg: Config, st: State, httpMethod: string, path: string,
                       params: Option<Params>, body: Option<Object>, authRequired: bool, now: nat)
    : (out: (Result<Object>, State))
    ensures st.sent <= out.1.sent && |out.1.sent| <= |st.sent| + 2
  {
    var acquired := if authRequired then SpecAcquire(cfg, st, false, now) else (Ok(()), st);
    if acquired.0.Err? then (Err(acquired.0.error), acquired.1)
    else
      var st1 := acquired.1;
      var req := HttpRequest(httpMethod, cfg.endpoint + path, params, None, body, AuthHeaders(st1.tokenInfo));
      var response := cfg.server(|st1.sent|, req);
      var st2 := st1.(sent := st1.sent + [req]);
      if !response.Ok() then (Err(ResponseError(response.statusCode, response.text)), st2)
      else (Ok(response.body), st2)
  }

  /** What `__request` returns: a failed token step raises its error with no request
      sent; otherwise the one request is logged and a successful reply's decoded body is
      the result. */
  lemma RequestOutcome(cfg: Config, st: State, httpMethod: string, path: string,
                       params: Option<Params>, body: Option<Object>, authRequired: bool, now: nat)
    ensures var acquired := if authRequired then SpecAcquire(cfg, st, false, now) else (Ok(()), st);
            var req := HttpRequest(httpMethod, cfg.endpoint + path, params, None, body, AuthHeaders(acquired.1.tokenInfo));
            var reply := cfg.server(|acquired.1.sent|, req);
            var out := SpecRequest(cfg, st, httpMethod, path, params, body, authRequired, now);
            && (acquired.0.Err? ==> out == (Err(acquired.0.error), acquired.1))
            && (acquired.0.Ok? && reply.Ok() ==> out == (Ok(reply.body), acquired.1.(sent := acquired.1.sent + [req])))
            && (acquired.0.Ok? && !reply.Ok() ==>
                  out == (Err(ResponseError(reply.statusCode, reply.text)), acquired.1.(sent := acquired.1.sent + [req])))
  {
  }

  /** A request that needs authentication and gets through carries the bearer header of
      the token it ended with, goes to the endpoint once, and does not touch the token
      after the token step. */
  lemma AuthenticatedRequestCarriesBearer(cfg: Config, st: State, httpMethod: string, path: string,
                                          params: Option<Params>, body: Option<Object>, now: nat)
    requires SpecRequest(cfg, st, httpMethod, path, params, body, true, now).0.Ok?
    ensures var out := SpecRequest(cfg, st, httpMethod, path, params, body, true, now);
            && out.1.tokenInfo.Some?
            && out.1.sent == SpecAcquire(cfg, st, false, now).1.sent
                             + [HttpRequest(httpMethod, cfg.endpoint + path, params, None, body,
                                            Some(map["Authorization" := "Bearer " + out.1.tokenInfo.value.accessToken]))]
  {
  }

  /** A request whose reply fails is sent once and raises that reply's status and text. */
  lemma FailedReplyIsNotRetried(cfg: Config, st: State, httpMethod: string, path: string,
                                params: Option<Params>, body: Option<Object>, authRequired: bool, now: nat)
    requires !authRequired || KeepsToken(st, false, now)
    ensures var out := SpecRequest(cfg, st, httpMethod, path, params, body, authRequired, now);
            var req := HttpRequest(httpMethod, cfg.endpoint + path, params, None, body, AuthHeaders(st.tokenInfo));
            var reply := cfg.server(|st.sent|, req);
            && out.1 == st.(sent := st.sent + [req])
            && (reply.Ok() <==> out.0.Ok?)
            && (reply.Ok() ==> out.0 == Ok(reply.body))
            && (!reply.Ok() ==> out.0 == Err(ResponseError(reply.statusCode, reply.text)))
  {
  }

  /** A forced token step sends the grant request whatever is cached (the constructor
      forces one). */
  lemma ForcedAcquireAlwaysRequests(cfg: Config, st: State, now: nat)
    ensures SpecAcquire(cfg, st, true, now).1.sent == st.sent + [TokenRequest(cfg)]
  {
  }

  /** The `loggers` argument of `get_data`: a str, a list of ids, or anything else. */
  datatype Loggers = LoggersText(text: string) | LoggersList(ids: seq<ParamValue>) | LoggersOther

  function IdTexts(ids: seq<ParamValue>): (r: seq<string>)
    ensures |r| == |ids| && forall i :: 0 <= i < |ids| ==> r[i] == ParamText(ids[i])
  {
    seq(|ids|, i requires 0 <= i < |ids| => ParamText(ids[i]))
  }

  /** The comma-separated `logger_list` of `get_data`. */
  function LoggerList(loggers: Loggers): (r: Result<string>)
    ensures loggers.LoggersText? ==> r == Ok(loggers.text)
    ensures loggers.LoggersList? && |loggers.ids| == 0 ==> r == Ok("")
    ensures loggers.LoggersOther? <==> r == Err(TypeError(LoggersTypeMessage))
    ensures r.Err? ==> r.error == TypeError(LoggersTypeMessage)
  {
    match loggers
    case LoggersText(text) => Ok(text)
    case LoggersList(ids) => Ok(Join(IdTexts(ids), ','))
    case LoggersOther => Err(TypeError(LoggersTypeMessage))
  }

  /** Splitting a joined list at its commas gives back every id's text, in order, as
      long as no id contains a comma. */
  lemma LoggerListSplits(ids: seq<ParamValue>)
    requires |ids| >= 1
    requires forall i :: 0 <= i < |ids| ==> ',' !in ParamText(ids[i])
    ensures Split(LoggerList(LoggersList(ids)).value, ',') == IdTexts(ids)
  {
    SplitJoin(IdTexts(ids), ',');
  }

  /** The query of `get_data`. */
  function DataParams(loggerList: string, startDateTime: string, endDateTime: string): (p: Params)
    ensures p.Keys == {"loggers", "start_date_time", "end_date_time"}
    ensures p["loggers"] == PStr(loggerList)
    ensures p["start_date_time"] == PStr(startDateTime) && p["end_date_time"] == PStr(endDateTime)
  {
    map["loggers" := PStr(loggerList), "start_date_time" := PStr(startDateTime), "end_date_time" := PStr(endDateTime)]
  }

  function DataPath(userId: string): string {
    "/ws/data/file/JSON/user/" + userId
  }

  /** `get_data(loggers, start_date_time, end_date_time)`: a TypeError before any request
      for a `loggers` of the wrong type, otherwise an authenticated GET. */
  function SpecGetData(cfg: Config, st: State, loggers: Loggers, startDateTime: string, endDateTime: string, now: nat)
    : (out: (Result<Object>, State))
    ensures loggers.LoggersOther? ==> out == (Err(TypeError(LoggersTypeMessage)), st)
  {
    var loggerList := LoggerList(loggers);
    if loggerList.Err? then (Err(loggerList.error), st)
    else SpecRequest(cfg, st, "GET", DataPath(cfg.userId),
                     Some(DataParams(loggerList.value, startDateTime, endDateTime)), None, true, now)
  }

  /** With a current token, `get_data` sends exactly one request: a GET to the user's data
      path with the three query parameters and the bearer header. */
  lemma GetDataRequest(cfg: Config, st: State, loggers: Loggers, startDateTime: string, endDateTime: string, now: nat)
    requires !loggers.LoggersOther? && KeepsToken(st, false, now)
    ensures var out := SpecGetData(cfg, st, loggers, startDateTime, endDateTime, now);
            var req := out.1.sent[|st.sent|];
            && |out.1.sent| == |st.sent| + 1
            && req.httpMethod == "GET" && req.url == cfg.endpoint + "/ws/data/file/JSON/user/" + cfg.userId
            && req.params == Some(DataParams(LoggerList(loggers).value, startDateTime, endDateTime))
            && req.headers == Some(map["Authorization" := "Bearer " + st.tokenInfo.value.accessToken])
            && var reply := cfg.server(|st.sent|, req);
               out.0 == (if reply.Ok() then Ok(reply.body) else Err(ResponseError(reply.statusCode, reply.text)))
  {
    var loggerList := LoggerList(loggers).value;
    FailedReplyIsNotRetried(cfg, st, "GET", DataPath(cfg.userId),
                            Some(DataParams(loggerList, startDateTime, endDateTime)), None, true, now);
  }

  class HoboApi {
    const endpoint: string
    const clientId: string
    const clientSecret: string
    const userId: string
    /** The remote service behind `self.session`. */
    const server: Server
    var tokenInfo: Option<HoboTokenInfo>
    /** The requests `self.session` has sent, oldest first. */
    var sent: seq<HttpRequest>

    function Configuration(): Config {
      Config(endpoint, clientId, clientSecret, userId, server)
    }

    function Current(): State
      reads this
    {
      State(tokenInfo, sent)
    }

    constructor (clientId: string, clientSecret: string, userId: ParamValue, server: Server,
                 endpoint: string := HoboEndpoint)
      ensures Configuration() == Config(endpoint, clientId, clientSecret, UserIdText(userId), server)
      ensures Current() == State(None, [])
    {
      this.endpoint := endpoint;
      this.clientId := clientId;
      this.clientSecret := clientSecret;
      this.userId := UserIdText(userId);
      this.server := server;
      tokenInfo := None;
      sent := [];
    }

    /** `HoboAPI(client_id, client_secret, user_id, endpoint)`: always fetches a token;
        `raised` is the error `__init__` would raise. */
    static method Create(clientId: string, clientSecret: string, userId: ParamValue,
                         server: Server, now: nat, endpoint: string := HoboEndpoint)
      returns (api: HoboApi, raised: Option<Error>)
      ensures fresh(api)
      ensures api.Configuration() == Config(endpoint, clientId, clientSecret, UserIdText(userId), server)
      ensures var out := SpecAcquire(api.Configuration(), State(None, []), true, now);
              api.Current() == out.1 && raised == (if out.0.Err? then Some(out.0.error) else None)
    {
      api := new HoboApi(clientId, clientSecret, userId, server, endpoint);
      var acquired := api.GetAccessTokenIfNeeded(true, now);
      raised := if acquired.Err? then Some(acquired.error) else None;
    }

    /** `_get_access_token_if_needed(force)` */
    method GetAccessTokenIfNeeded(force: bool, now: nat) returns (r: Result<()>)
      modifies this
      ensures (r, Current()) == SpecAcquire(Configuration(), old(Current()), force, now)
    {
      if !force && tokenInfo.Some? && !NeedRefresh(tokenInfo.value, now) {
        return Ok(());
      }
      var payload := map[
        "grant_type" := JStr("client_credentials"),
        "client_id" := JStr(clientId),
        "client_secret" := JStr(clientSecret)];
      var req := HttpRequest("POST", endpoint + HoboGetTokenApi, None, None, Some(payload), None);
      var response := server(|sent|, req);
      sent := sent + [req];
      if !response.Ok() {
        return Err(ResponseError(response.statusCode, response.text));
      }
      var info := HoboTokenInfoOf(response.body, now);
      if info.Err? {
        return Err(info.error);
      }
      tokenInfo := Some(info.value);
      r := Ok(());
    }

    /** `__request(method, path, params, body, auth_required)` */
    method Request(httpMethod: string, path: string, params: Option<Params>, body: Option<Object>,
                   authRequired: bool, now: nat)
      returns (r: Result<Object>)
      modifies this
      ensures (r, Current()) == SpecRequest(Configuration(), old(Current()), httpMethod, path, params, body, authRequired, now)
    {
      if authRequired {
        var acquired := GetAccessTokenIfNeeded(false, now);
        if acquired.Err? {
          return Err(acquired.error);
        }
      }
      var headers: Option<Headers> := None;
      if tokenInfo.Some? {
        var accessToken := tokenInfo.value.accessToken;
        headers := Some(map["Authorization" := "Bearer " + accessToken]);
      }
      var req := HttpRequest(httpMethod, endpoint + path, params, None, body, headers);
      var response := server(|sent|, req);
      sent := sent + [req];
      if !response.Ok() {
        return Err(ResponseError(response.statusCode, response.text));
      }
      r := Ok(response.body);
    }

    /** `get(path, params)` */
    method Get(path: string, params: Option<Params>, now: nat) returns (r: Result<Object>)
      modifies this
      ensures (r, Current()) == SpecRequest(Configuration(), old(Current()), "GET", path, params, None, true, now)
    {
      r := Request("GET", path, params, None, true, now);
    }

    /** `post(path, body)` */
    method Post(path: string, body: Option<Object>, now: nat) returns (r: Result<Object>)
      modifies this
      ensures (r, Current()) == SpecRequest(Configuration(), old(Current()), "POST", path, None, body, true, now)
    {
      r := Request("POST", path, None, body, true, now);
    }

    /** `get_data(loggers, start_date_time, end_date_time, warn_on_empty_data)` */
    method GetData(loggers: Loggers, startDateTime: string, endDateTime: string, now: nat)
      returns (r: Result<Object>)
      modifies this
      ensures (r, Current()) == SpecGetData(Configuration(), old(Current()), loggers, startDateTime, endDateTime, now)
    {
      var loggerList: string := "";
      match loggers {
        case LoggersText(text) =>
          loggerList := text;
        case LoggersList(ids) =>
          loggerList := Join(IdTexts(ids), ',');
        case LoggersOther =>
          return Err(TypeError(LoggersTypeMessage));
      }
      var params := map[
        "loggers" := PStr(loggerList),
        "start_date_time" := PStr(startDateTime),
        "end_date_time" := PStr(endDateTime)];
      r := Get("/ws/data/file/JSON/user/" + userId, Some(params), now);
    }
  }
}
