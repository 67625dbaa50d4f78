/** The Tuya Open API client (`TuyaOpenAPI`): the cached token, its refresh before each
    request, signing, and the send-then-retry-once of every request.

    The behaviour is first given as functions over the client's state (the cached token
    and the requests sent so far); the class `TuyaOpenApiClient` then carries out the
    same steps imperatively and each of its methods is proved to agree with the
    corresponding function. The clock is a parameter `now` (milliseconds), read once per
    call. */
module TuyaOpenApi {
  import opened Exceptions
  import opened Json
  import opened Text
  import opened Http
  import opened TuyaToken
  import opened TuyaSign
  import opened Hex
  import opened StringOrder

  const GetTokenApi: string := "/v1.0/token"
  const RefreshTokenPrefix: string := "/v1.0/token/"
  /** A `str.format` template with one placeholder. */
  const RefreshTokenApi: string := RefreshTokenPrefix + "{}"
  /** Refresh is due when less than this much lifetime is left. */
  const RefreshMargin: int := 60 * 1000
  const SignMethod: string := "HMAC-SHA256"
  const DefaultLang: string := "en"

  /** `REFRESH_TOKEN_API.format(refresh_token)` */
  function RefreshTokenPath(refreshToken: string): string {
    RefreshTokenPrefix + refreshToken
  }

  /** The parameters of the token request. */
  function GrantParams(): Params {
    map["grant_type" := PInt(1)]
  }

  /** `path.startswith(self.__login_path)` */
  predicate IsLoginPath(path: string) {
    GetTokenApi <= path
  }

  /** `path.startswith(self.__refresh_token_path)`: the template itself, with its
      literal "{}". */
  predicate IsRefreshTemplatePath(path: string) {
    RefreshTokenApi <= path
  }

  /** Paths whose requests never refresh the token first. */
  predicate Exempt(path: string) {
    IsLoginPath(path) || IsRefreshTemplatePath(path)
  }

  /** Termination measure: a request on a non-exempt path may issue a request on an
      exempt one, never the other way round. */
  function Rank(path: string): nat {
    if Exempt(path) then 0 else 1
  }

  /** What a client is configured with; it never changes. */
  datatype Config = Config(
    endpoint: string,
    accessId: string,
    accessSecret: string,
    lang: string,
    foreign: Foreign,
    server: Server)

  /** What a client changes: the cached token and the requests its session has sent. */
  datatype State = State(tokenInfo: Option<TokenInfo>, sent: seq<HttpRequest>)

  /** The access token header value: the cached access token, or "" without a token. */
  function AccessTokenOf(tokenInfo: Option<TokenInfo>): string {
    if tokenInfo.Some? then tokenInfo.value.accessToken else ""
  }

  function SignedHeaders(cfg: Config, accessToken: string, sign: string, t: nat): Headers {
    map[
      "client_id" := cfg.accessId,
      "sign" := sign,
      "sign_method" := SignMethod,
      "access_token" := accessToken,
      "t" := NatToDecimal(t),
      "lang" := cfg.lang]
  }

  /** The request `__request` puts on the wire once the token step is done, signed at
      time `now` with the token cached at that moment. */
  function BuildRequest(cfg: Config, tokenInfo: Option<TokenInfo>, httpMethod: string, path: string,
                        params: Option<Params>, body: Option<Object>, now: nat): HttpRequest
  {
    var strToSign := StringToSign(httpMethod, path, params, body, cfg.foreign);
    var sign := Signature(cfg.accessSecret, SignMessage(cfg.accessId, tokenInfo, now, strToSign), cfg.foreign);
    HttpRequest(httpMethod, cfg.endpoint + path, params, body, None, Some(SignedHeaders(cfg, AccessTokenOf(tokenInfo), sign, now)))
  }

  /** A reply counts as failed when it is not ok or its `success` field is missing or
      is `false` (`response.json().get("success", False) is False`). */
  predicate Failed(reply: HttpReply) {
    !reply.Ok() || "success" !in reply.body || reply.body["success"] == JBool(false)
  }

  /** Sending a built request: once, and after a failed reply, drop the cached token and
      send the identical request once more. */
  function Transmit(cfg: Config, st: State, req: HttpRequest): (out: (Result<Object>, State))
    ensures out.1.sent == st.sent + [req] || out.1.sent == st.sent + [req, req]
  {
    var first := cfg.server(|st.sent|, req);
    var st1 := st.(sent := st.sent + [req]);
    if !Failed(first) then (Ok(first.body), st1)
    else
      var second := cfg.server(|st1.sent|, req);
      var st2 := State(None, st1.sent + [req]);
      if Failed(second) then (Err(ResponseError(second.statusCode, second.text)), st2)
      else (Ok(second.body), st2)
  }

  /** `__request(method, path, params, body)`: the token step, then sign and transmit. */
  function SpecRequest(cfg: Config, st: State, httpMethod: string, path: string,
                       params: Option<Params>, body: Option<Object>, now: nat): (out: (Result<Object>, State))
    ensures st.sent <= out.1.sent
    ensures |out.1.sent| <= |st.sent| + 2 + 2 * Rank(path)
    decreases Rank(path), 2
  {
    var refreshed := SpecRefresh(cfg, st, path, now);
    if refreshed.0.Err? then (Err(refreshed.0.error), refreshed.1)
    else
      var st1 := refreshed.1;
      Transmit(cfg, st1, BuildRequest(cfg, st1.tokenInfo, httpMethod, path, params, body, now))
  }

  /** `_refresh_access_token_if_need(path)` */
  function SpecRefresh(cfg: Config, st: State, path: string, now: nat): (out: (Result<()>, State))
    ensures st.sent <= out.1.sent
    ensures |out.1.sent| <= |st.sent| + 2 * Rank(path)
    decreases Rank(path), 1
  {
    if IsLoginPath(path) then (Ok(()), st)
    else if IsRefreshTemplatePath(path) then (Ok(()), st)
    else if st.tokenInfo.None? then
      var connected := SpecConnect(cfg, st, now);
      (if connected.0.Ok? then Ok(()) else Err(connected.0.error), connected.1)
    else if st.tokenInfo.value.expireTime - RefreshMargin > now then (Ok(()), st)
    else
      var token := st.tokenInfo.value;
      var cleared := st.(tokenInfo := Some(token.(accessToken := "")));
      RefreshPathIsLoginPath(token.refreshToken);
      var response := SpecRequest(cfg, cleared, "GET", RefreshTokenPath(token.refreshToken), None, None, now);
      if response.0.Err? then (Err(response.0.error), response.1)
      else
        var info := TokenInfoOf(response.0.value);
        if info.Err? then (Err(info.error), response.1)
        else (Ok(()), response.1.(tokenInfo := Some(info.value)))
  }

  /** `connect()`: drop the cached token, ask for a new one, cache it. */
  function SpecConnect(cfg: Config, st: State, now: nat): (out: (Result<Object>, State))
    ensures st.sent <= out.1.sent
    ensures |out.1.sent| <= |st.sent| + 2
    decreases 1, 0
  {
    var response := SpecRequest(cfg, st.(tokenInfo := None), "GET", GetTokenApi, Some(GrantParams()), None, now);
    if response.0.Err? then response
    else
      var info := TokenInfoOf(response.0.value);
      if info.Err? then (Err(info.error), response.1)
      else (response.0, response.1.(tokenInfo := Some(info.value)))
  }

  /** A refresh path starts with the login path, so the login-path check already
      exempts it; the template check never decides anything the login check has not. */
  lemma RefreshPathIsLoginPath(refreshToken: string)
    ensures IsLoginPath(RefreshTokenPath(refreshToken))
    ensures forall path :: IsRefreshTemplatePath(path) ==> IsLoginPath(path)
  {
    assert GetTokenApi <= RefreshTokenPrefix;
    forall path | IsRefreshTemplatePath(path)
      ensures IsLoginPath(path)
    {
      assert GetTokenApi <= RefreshTokenApi;
    }
  }

  /** The token request and refresh requests never trigger a refresh: the state they
      are signed and sent in is the state the request began with. */
  lemma ExemptRequestSkipsRefresh(cfg: Config, st: State, httpMethod: string, path: string,
                                  params: Option<Params>, body: Option<Object>, now: nat)
    requires Exempt(path)
    ensures SpecRefresh(cfg, st, path, now) == (Ok(()), st)
    ensures SpecRequest(cfg, st, httpMethod, path, params, body, now)
            == Transmit(cfg, st, BuildRequest(cfg, st.tokenInfo, httpMethod, path, params, body, now))
  {
  }

  /** A request is sent at most twice; the second send repeats the first request
      exactly, happens only after a failed reply, and first drops the cached token; a
      second failure raises `ResponseError` with that reply's status and text. */
  lemma TransmitRetriesOnce(cfg: Config, st: State, req: HttpRequest)
    ensures var out := Transmit(cfg, st, req);
            var first := cfg.server(|st.sent|, req);
            var second := cfg.server(|st.sent| + 1, req);
            && (!Failed(first) ==> out == (Ok(first.body), st.(sent := st.sent + [req])))
            && (Failed(first) ==> out.1 == State(None, st.sent + [req, req]))
            && (Failed(first) && !Failed(second) ==> out.0 == Ok(second.body))
            && (Failed(first) && Failed(second) ==> out.0 == Err(ResponseError(second.statusCode, second.text)))
  {
    assert st.sent + [req] + [req] == st.sent + [req, req];
  }

  /** The requests sent by the token step come first: the request proper is sent after
      them. */
  lemma RefreshedLogPrecedes(cfg: Config, st: State, httpMethod: string, path: string,
                             params: Option<Params>, body: Option<Object>, now: nat)
    ensures SpecRefresh(cfg, st, path, now).1.sent <= SpecRequest(cfg, st, httpMethod, path, params, body, now).1.sent
  {
  }

  /** With no cached token, a request on any other path first connects: the first
      request sent is the token request, signed without an access token. */
  lemma MissingTokenConnectsFirst(cfg: Config, st: State, httpMethod: string, path: string,
                                  params: Option<Params>, body: Option<Object>, now: nat)
    requires !Exempt(path) && st.tokenInfo.None?
    ensures var out := SpecRequest(cfg, st, httpMethod, path, params, body, now);
            |out.1.sent| > |st.sent|
            && out.1.sent[|st.sent|] == BuildRequest(cfg, None, "GET", GetTokenApi, Some(GrantParams()), None, now)
            && out.1.sent[|st.sent|].headers.value["access_token"] == ""
  {
    var tokenReq := BuildRequest(cfg, None, "GET", GetTokenApi, Some(GrantParams()), None, now);
    ConnectSendsTokenRequest(cfg, st, now);
    var connected := SpecConnect(cfg, st, now);
    var refreshed := SpecRefresh(cfg, st, path, now);
    assert refreshed.1 == connected.1;
    RefreshedLogPrecedes(cfg, st, httpMethod, path, params, body, now);
    assert tokenReq.headers.value["access_token"] == "";
  }

  /** A cached token with more than a minute left is used as it is. */
  lemma FreshTokenIsUsed(cfg: Config, st: State, httpMethod: string, path: string,
                         params: Option<Params>, body: Option<Object>, now: nat)
    requires !Exempt(path) && st.tokenInfo.Some? && st.tokenInfo.value.expireTime - RefreshMargin > now
    ensures SpecRequest(cfg, st, httpMethod, path, params, body, now)
            == Transmit(cfg, st, BuildRequest(cfg, st.tokenInfo, httpMethod, path, params, body, now))
  {
  }

  /** A cached token with a minute or less left is refreshed first: the access token is
      cleared, the refresh request for the cached refresh token is sent signed without
      it, and the request proper is signed with the token the refresh returned. */
  lemma ExpiringTokenIsRefreshed(cfg: Config, st: State, httpMethod: string, path: string,
                                 params: Option<Params>, body: Option<Object>, now: nat)
    requires !Exempt(path) && st.tokenInfo.Some? && st.tokenInfo.value.expireTime - RefreshMargin <= now
    ensures var token := st.tokenInfo.value;
            var out := SpecRequest(cfg, st, httpMethod, path, params, body, now);
            var refreshReq := BuildRequest(cfg, Some(token.(accessToken := "")), "GET",
                                           RefreshTokenPath(token.refreshToken), None, None, now);
            |out.1.sent| > |st.sent|
            && out.1.sent[|st.sent|] == refreshReq
            && refreshReq.headers.value["access_token"] == ""
    ensures var refreshed := SpecRefresh(cfg, st, path, now);
            refreshed.0.Ok? ==> refreshed.1.tokenInfo.Some?
                                && SpecRequest(cfg, st, httpMethod, path, params, body, now)
                                   == Transmit(cfg, refreshed.1, BuildRequest(cfg, refreshed.1.tokenInfo, httpMethod, path, params, body, now))
  {
    var token := st.tokenInfo.value;
    var cleared := st.(tokenInfo := Some(token.(accessToken := "")));
    var refreshPath := RefreshTokenPath(token.refreshToken);
    var refreshReq := BuildRequest(cfg, Some(token.(accessToken := "")), "GET", refreshPath, None, None, now);
    RefreshPathIsLoginPath(token.refreshToken);
    ExemptRequestSkipsRefresh(cfg, cleared, "GET", refreshPath, None, None, now);
    var response := SpecRequest(cfg, cleared, "GET", refreshPath, None, None, now);
    assert response.1.sent[|st.sent|] == refreshReq;
    var refreshed := SpecRefresh(cfg, st, path, now);
    assert refreshed.1.sent == response.1.sent;
    RefreshedLogPrecedes(cfg, st, httpMethod, path, params, body, now);
    assert refreshReq.headers.value["access_token"] == "";
  }

  /** After a successful refresh the cached token is the one read from the refresh
      reply, which was requested with the access token cleared. */
  lemma RefreshCachesToken(cfg: Config, st: State, path: string, now: nat)
    requires !Exempt(path) && st.tokenInfo.Some? && st.tokenInfo.value.expireTime - RefreshMargin <= now
    ensures var token := st.tokenInfo.value;
            var response := SpecRequest(cfg, st.(tokenInfo := Some(token.(accessToken := ""))), "GET",
                                        RefreshTokenPath(token.refreshToken), None, None, now);
            var refreshed := SpecRefresh(cfg, st, path, now);
            refreshed.0.Ok? ==> response.0.Ok? && TokenInfoOf(response.0.value).Ok?
                                && refreshed.1.tokenInfo == Some(TokenInfoOf(response.0.value).value)
  {
    RefreshPathIsLoginPath(st.tokenInfo.value.refreshToken);
  }

  /** `connect()` signs its token request without a token, whatever was cached, and
      sends it first. */
  lemma ConnectSendsTokenRequest(cfg: Config, st: State, now: nat)
    ensures var out := SpecConnect(cfg, st, now);
            var tokenReq := BuildRequest(cfg, None, "GET", GetTokenApi, Some(GrantParams()), None, now);
            |out.1.sent| > |st.sent| && out.1.sent[|st.sent|] == tokenReq
  {
    var st0 := st.(tokenInfo := None);
    var tokenReq := BuildRequest(cfg, None, "GET", GetTokenApi, Some(GrantParams()), None, now);
    var sent := SpecRequest(cfg, st0, "GET", GetTokenApi, Some(GrantParams()), None, now).1.sent;
    assert SpecConnect(cfg, st, now).1.sent == sent;
    assert st.sent + [tokenReq] <= sent by {
      ExemptRequestSkipsRefresh(cfg, st0, "GET", GetTokenApi, Some(GrantParams()), None, now);
      assert st0.sent + [tokenReq] <= Transmit(cfg, st0, tokenReq).1.sent;
    }
    assert (st.sent + [tokenReq])[|st.sent|] == tokenReq;
  }

  /** A successful `connect()` caches the token read from the reply it returns. */
  lemma ConnectCachesToken(cfg: Config, st: State, now: nat)
    ensures var out := SpecConnect(cfg, st, now);
            out.0.Ok? ==> TokenInfoOf(out.0.value).Ok? && out.1.tokenInfo == Some(TokenInfoOf(out.0.value).value)
  {
  }

  /** After a successful `connect()` whose reply carries a non-empty access token,
      `is_connect()` holds. */
  lemma ConnectedAfterConnect(cfg: Config, st: State, now: nat)
    requires var out := SpecConnect(cfg, st, now);
             out.0.Ok? && "result" in out.0.value && out.0.value["result"].JObject?
             && var result := out.0.value["result"].fields;
                "access_token" in result && result["access_token"].JStr? && result["access_token"].s != ""
    ensures IsConnect(SpecConnect(cfg, st, now).1.tokenInfo)
  {
    var out := SpecConnect(cfg, st, now);
    ConnectCachesToken(cfg, st, now);
    TokenInfoAccessToken(out.0.value);
  }

  /** The token step's outcome and the request `__request` then signs and sends. */
  lemma RequestAfterTokenStep(cfg: Config, st: State, httpMethod: string, path: string,
                              params: Option<Params>, body: Option<Object>, now: nat)
    ensures var refreshed := SpecRefresh(cfg, st, path, now);
            var out := SpecRequest(cfg, st, httpMethod, path, params, body, now);
            var req := BuildRequest(cfg, refreshed.1.tokenInfo, httpMethod, path, params, body, now);
            && (refreshed.0.Err? ==> out == (Err(refreshed.0.error), refreshed.1))
            && (refreshed.0.Ok? ==> (out.1.sent == refreshed.1.sent + [req] || out.1.sent == refreshed.1.sent + [req, req]))
  {
  }

  /** Whether a request is the one `__request` puts on the wire for a method, URL,
      parameters and JSON body. */
  predicate Routed(req: HttpRequest, httpMethod: string, url: string, params: Option<Params>, json: Option<Object>) {
    req.httpMethod == httpMethod && req.url == url && req.params == params && req.json == json && req.data.None?
  }

  /** Every request that `get` and `delete` send after the token step carries the
      parameters and no body, every request that `post` and `put` send carries the body
      and no parameters, and all go to the endpoint followed by the path. */
  lemma MethodRouting(cfg: Config, st: State, path: string, params: Option<Params>, body: Option<Object>, now: nat)
    ensures var refreshed := SpecRefresh(cfg, st, path, now);
            var sent := SpecRequest(cfg, st, "GET", path, params, None, now).1.sent;
            refreshed.0.Ok? ==> forall k :: |refreshed.1.sent| <= k < |sent| ==> Routed(sent[k], "GET", cfg.endpoint + path, params, None)
    ensures var refreshed := SpecRefresh(cfg, st, path, now);
            var sent := SpecRequest(cfg, st, "DELETE", path, params, None, now).1.sent;
            refreshed.0.Ok? ==> forall k :: |refreshed.1.sent| <= k < |sent| ==> Routed(sent[k], "DELETE", cfg.endpoint + path, params, None)
    ensures var refreshed := SpecRefresh(cfg, st, path, now);
            var sent := SpecRequest(cfg, st, "POST", path, None, body, now).1.sent;
            refreshed.0.Ok? ==> forall k :: |refreshed.1.sent| <= k < |sent| ==> Routed(sent[k], "POST", cfg.endpoint + path, None, body)
    ensures var refreshed := SpecRefresh(cfg, st, path, now);
            var sent := SpecRequest(cfg, st, "PUT", path, None, body, now).1.sent;
            refreshed.0.Ok? ==> forall k :: |refreshed.1.sent| <= k < |sent| ==> Routed(sent[k], "PUT", cfg.endpoint + path, None, body)
  {
    LoggedRequestsRouted(cfg, st, "GET", path, params, None, now);
    LoggedRequestsRouted(cfg, st, "DELETE", path, params, None, now);
    LoggedRequestsRouted(cfg, st, "POST", path, None, body, now);
    LoggedRequestsRouted(cfg, st, "PUT", path, None, body, now);
  }

  lemma LoggedRequestsRouted(cfg: Config, st: State, httpMethod: string, path: string,
                             params: Option<Params>, body: Option<Object>, now: nat)
    ensures var refreshed := SpecRefresh(cfg, st, path, now);
            var sent := SpecRequest(cfg, st, httpMethod, path, params, body, now).1.sent;
            refreshed.0.Ok? ==> forall k :: |refreshed.1.sent| <= k < |sent| ==> Routed(sent[k], httpMethod, cfg.endpoint + path, params, body)
  {
    RequestAfterTokenStep(cfg, st, httpMethod, path, params, body, now);
  }

  /** Every request sent after the token step, the retry included, carries the client
      id, the language, the time `now` in decimal, the access token the token step left
      cached, and a signature over its own method, parameters and body with that token,
      even when the retry has dropped the token from the cache. */
  lemma RequestHeaders(cfg: Config, st: State, httpMethod: string, path: string,
                       params: Option<Params>, body: Option<Object>, now: nat)
    ensures var refreshed := SpecRefresh(cfg, st, path, now);
            var token := refreshed.1.tokenInfo;
            var sent := SpecRequest(cfg, st, httpMethod, path, params, body, now).1.sent;
            refreshed.0.Ok? ==>
              forall k :: |refreshed.1.sent| <= k < |sent| ==>
                && sent[k].headers.Some?
                && var h := sent[k].headers.value;
                   && h["client_id"] == cfg.accessId && h["lang"] == cfg.lang && h["sign_method"] == "HMAC-SHA256"
                   && h["t"] == NatToDecimal(now)
                   && h["access_token"] == AccessTokenOf(token)
                   && h["sign"] == Signature(cfg.accessSecret,
                                             SignMessage(cfg.accessId, token, now,
                                                         StringToSign(sent[k].httpMethod, path, sent[k].params, sent[k].json, cfg.foreign)),
                                             cfg.foreign)
  {
    RequestAfterTokenStep(cfg, st, httpMethod, path, params, body, now);
  }

  /** A first reply that fails leaves no token cached, so `is_connect()` is false after
      the request whatever the retry returns; a first reply that succeeds keeps the token
      the token step left. */
  lemma FailedReplyDisconnects(cfg: Config, st: State, httpMethod: string, path: string,
                               params: Option<Params>, body: Option<Object>, now: nat)
    ensures var refreshed := SpecRefresh(cfg, st, path, now);
            var req := BuildRequest(cfg, refreshed.1.tokenInfo, httpMethod, path, params, body, now);
            var out := SpecRequest(cfg, st, httpMethod, path, params, body, now);
            refreshed.0.Ok? && Failed(cfg.server(|refreshed.1.sent|, req)) ==> out.1.tokenInfo.None? && !IsConnect(out.1.tokenInfo)
    ensures var refreshed := SpecRefresh(cfg, st, path, now);
            var req := BuildRequest(cfg, refreshed.1.tokenInfo, httpMethod, path, params, body, now);
            var out := SpecRequest(cfg, st, httpMethod, path, params, body, now);
            refreshed.0.Ok? && !Failed(cfg.server(|refreshed.1.sent|, req)) ==> out.1.tokenInfo == refreshed.1.tokenInfo
  {
  }

  class TuyaOpenApiClient {
    const endpoint: string
    const accessId: string
    const accessSecret: string
    const lang: string
    const foreign: Foreign
    /** The remote service behind `self.session`. */
    const server: Server
    var tokenInfo: Option<TokenInfo>
    /** The requests `self.session` has sent, oldest first. */
    var sent: seq<HttpRequest>

    function Configuration(): Config {
      Config(endpoint, accessId, accessSecret, lang, foreign, server)
    }

    function Current(): State
      reads this
    {
      State(tokenInfo, sent)
    }

    /** `TuyaOpenAPI(endpoint, access_id, access_secret, lang="en", auto_connect=False)` */
    constructor (endpoint: string, accessId: string, accessSecret: string, foreign: Foreign, server: Server,
                 lang: string := DefaultLang)
      ensures Configuration() == Config(endpoint, accessId, accessSecret, lang, foreign, server)
      ensures Current() == State(None, [])
    {
      this.endpoint := endpoint;
      this.accessId := accessId;
      this.accessSecret := accessSecret;
      this.lang := lang;
      this.foreign := foreign;
      this.server := server;
      tokenInfo := None;
      sent := [];
    }

    /** `TuyaOpenAPI(...)` with `auto_connect`: connects at once; `raised` is the error
        `__init__` would raise. */
    static method Create(endpoint: string, accessId: string, accessSecret: string,
                         foreign: Foreign, server: Server, now: nat,
                         lang: string := DefaultLang, autoConnect: bool := true)
      returns (api: TuyaOpenApiClient, raised: Option<Error>)
      ensures fresh(api)
      ensures api.Configuration() == Config(endpoint, accessId, accessSecret, lang, foreign, server)
      ensures !autoConnect ==> api.Current() == State(None, []) && raised == None
      ensures autoConnect ==>
                var out := SpecConnect(api.Configuration(), State(None, []), now);
                api.Current() == out.1 && raised == (if out.0.Err? then Some(out.0.error) else None)
    {
      api := new TuyaOpenApiClient(endpoint, accessId, accessSecret, foreign, server, lang);
      raised := None;
      if autoConnect {
        var response := api.Connect(now);
        if response.Err? {
          raised := Some(response.error);
        }
      }
    }

    /** `self.session.request(...)` */
    method Send(req: HttpRequest) returns (reply: HttpReply)
      modifies this
      ensures sent == old(sent) + [req] && tokenInfo == old(tokenInfo)
      ensures reply == server(|old(sent)|, req)
    {
      reply := server(|sent|, req);
      sent := sent + [req];
    }

    /** The query part of `_calculate_sign`: "?" and the sorted `key=value&` pairs with
        the last "&" cut off, or nothing without parameters. */
    static method QueryPart(params: Option<Params>) returns (query: string)
      ensures query == QueryString(params)
    {
      query := "";
      if params.Some? && |params.value| > 0 {
        query := query + "?";
        assert query == "?";
        var paramsKeys := SortedParamKeys(params.value);
        QueryStringOfBuilder(params.value);
        var queryBuilder := BuildPairs(paramsKeys, params.value);
        query := query + queryBuilder[..|queryBuilder| - 1];
        assert params == Some(params.value);
      }
    }

    /** The `for key in params_keys` loop of `_calculate_sign`: every `key=value`
        followed by "&". */
    static method BuildPairs(paramsKeys: seq<string>, params: Params) returns (queryBuilder: string)
      requires forall i :: 0 <= i < |paramsKeys| ==> paramsKeys[i] in params
      ensures queryBuilder == AmpersandTerminated(QueryPairs(paramsKeys, params)[..|paramsKeys|])
    {
      ghost var pairs := QueryPairs(paramsKeys, params);
      queryBuilder := "";
      for i := 0 to |paramsKeys|
        invariant queryBuilder == AmpersandTerminated(pairs[..i])
      {
        AmpersandTerminatedSnoc(pairs, i);
        queryBuilder := queryBuilder + (paramsKeys[i] + "=" + ParamText(params[paramsKeys[i]])) + "&";
      }
    }

    /** `_calculate_sign(method, path, params, body)` at time `now`. */
    method CalculateSign(httpMethod: string, path: string, params: Option<Params>, body: Option<Object>, now: nat)
      returns (sign: string, t: nat)
      ensures t == now
      ensures sign == Signature(accessSecret,
                                SignMessage(accessId, tokenInfo, t, StringToSign(httpMethod, path, params, body, foreign)),
                                foreign)
    {
      var strToSign := httpMethod;
      strToSign := strToSign + "\n";

      var contentToSha256 := if body.None? || |body.value| == 0 then "" else foreign.jsonDumps(JObject(body.value));
      strToSign := strToSign + Lower(HexDigest(foreign.sha256(foreign.utf8(contentToSha256))));
      strToSign := strToSign + "\n";

      strToSign := strToSign + "\n";

      strToSign := strToSign + path;
      ghost var head := httpMethod + "\n" + ContentHash(body, foreign) + "\n" + "\n" + path;
      assert strToSign == head;

      var query := QueryPart(params);
      strToSign := strToSign + query;
      assert strToSign == StringToSign(httpMethod, path, params, body, foreign);

      t := now;

      var message := accessId;
      if tokenInfo.Some? {
        message := message + tokenInfo.value.accessToken;
      }
      message := message + NatToDecimal(t) + strToSign;
      assert accessId + "" == accessId;
      assert message == SignMessage(accessId, tokenInfo, t, strToSign);
      sign := Upper(HexDigest(foreign.hmacSha256(foreign.utf8(accessSecret), foreign.utf8(message))));
    }

    /** `_refresh_access_token_if_need(path)` */
    method RefreshAccessTokenIfNeed(path: string, now: nat) returns (r: Result<()>)
      modifies this
      ensures (r, Current()) == SpecRefresh(Configuration(), old(Current()), path, now)
      decreases Rank(path), 1
    {
      if GetTokenApi <= path {
        return Ok(());
      }
      if RefreshTokenApi <= path {
        return Ok(());
      }
      if tokenInfo.None? {
        var connected := Connect(now);
        return if connected.Ok? then Ok(()) else Err(connected.error);
      }
      var expiredTime := tokenInfo.value.expireTime;
      if expiredTime - RefreshMargin > now {
        return Ok(());
      }
      tokenInfo := Some(tokenInfo.value.(accessToken := ""));
      RefreshPathIsLoginPath(tokenInfo.value.refreshToken);
      var response := Get(RefreshTokenPath(tokenInfo.value.refreshToken), None, now);
      if response.Err? {
        return Err(response.error);
      }
      var info := TokenInfoOf(response.value);
      if info.Err? {
        return Err(info.error);
      }
      tokenInfo := Some(info.value);
      return Ok(());
    }

    /** `connect()` */
    method Connect(now: nat) returns (r: Result<Object>)
      modifies this
      ensures (r, Current()) == SpecConnect(Configuration(), old(Current()), now)
      decreases 1, 0
    {
      tokenInfo := None;
      var response := Get(GetTokenApi, Some(GrantParams()), now);
      if response.Err? {
        return response;
      }
      var info := TokenInfoOf(response.value);
      if info.Err? {
        return Err(info.error);
      }
      tokenInfo := Some(info.value);
      return response;
    }

    /** `is_connect()` */
    method IsConnected() returns (b: bool)
      ensures b == IsConnect(tokenInfo)
    {
      b := tokenInfo.Some? && |tokenInfo.value.accessToken| > 0;
    }

    /** `__request(method, path, params, body)` */
    method Request(httpMethod: string, path: string, params: Option<Params>, body: Option<Object>, now: nat)
      returns (r: Result<Object>)
      modifies this
      ensures (r, Current()) == SpecRequest(Configuration(), old(Current()), httpMethod, path, params, body, now)
      decreases Rank(path), 2
    {
      var refreshed := RefreshAccessTokenIfNeed(path, now);
      if refreshed.Err? {
        return Err(refreshed.error);
      }
      ghost var st1 := Current();

      var accessToken := if tokenInfo.Some? then tokenInfo.value.accessToken else "";
      var sign, t := CalculateSign(httpMethod, path, params, body, now);
      var headers := map[
        "client_id" := accessId,
        "sign" := sign,
        "sign_method" := SignMethod,
        "access_token" := accessToken,
        "t" := NatToDecimal(t),
        "lang" := lang];
      var req := HttpRequest(httpMethod, endpoint + path, params, body, None, Some(headers));
      assert req == BuildRequest(Configuration(), st1.tokenInfo, httpMethod, path, params, body, now);

      var response := Send(req);
      if Failed(response) {
        tokenInfo := None;
        response := Send(req);
        if Failed(response) {
          return Err(ResponseError(response.statusCode, response.text));
        }
      }
      r := Ok(response.body);
    }

    /** `get(path, params)` */
    method Get(path: string, params: Option<Params>, now: nat) returns (r: Result<Object>)
      modifies this
      ensures (r, Current()) == SpecRequest(Configuration(), old(Current()), "GET", path, params, None, now)
      decreases Rank(path), 3
    {
      r := Request("GET", path, params, None, now);
    }

    /** `post(path, body)` */
    method Post(path: string, body: Option<Object>, now: nat) returns (r: Result<Object>)
      modifies this
      ensures (r, Current()) == SpecRequest(Configuration(), old(Current()), "POST", path, None, body, now)
      decreases Rank(path), 3
    {
      r := Request("POST", path, None, body, now);
    }

    /** `put(path, body)` */
    method Put(path: string, body: Option<Object>, now: nat) returns (r: Result<Object>)
      modifies this
      ensures (r, Current()) == SpecRequest(Configuration(), old(Current()), "PUT", path, None, body, now)
      decreases Rank(path), 3
    {
      r := Request("PUT", path, None, body, now);
    }

    /** `delete(path, params)` */
    method Delete(path: string, params: Option<Params>, now: nat) returns (r: Result<Object>)
      modifies this
      ensures (r, Current()) == SpecRequest(Configuration(), old(Current()), "DELETE", path, params, None, now)
      decreases Rank(path), 3
    {
      r := Request("DELETE", path, params, None, now);
    }
  }
}
