/** The Tuya access token as the client caches it (`TuyaTokenInfo`), read from the
    decoded reply of the token endpoint. Times are in milliseconds. */
module TuyaToken {
  import opened Exceptions
  import opened Json

  datatype TokenInfo = TokenInfo(expireTime: int, accessToken: string, refreshToken: string, uid: string)

  /** `token_response.get("result", {})` when it is a dict. */
  function ResultFields(response: Object): Object {
    if "result" in response && response["result"].JObject? then response["result"].fields else map[]
  }

  /** The lifetime in seconds: `result.get("expire", result.get("expire_time", 0))`. */
  function Lifetime(result: Object): (r: Result<int>)
    ensures "expire" !in result && "expire_time" !in result ==> r == Ok(0)
  {
    if "expire" in result then AsInt(result["expire"]) else GetInt(result, "expire_time", 0)
  }

  /** `TuyaTokenInfo(token_response)`: expiry is the reply's `t` (default 0) plus the
      lifetime `result.expire` in seconds, falling back to `result.expire_time` and then
      to 0, times 1000; the strings default to "". A field of the wrong JSON type is an
      error. */
  function TokenInfoOf(response: Object): (r: Result<TokenInfo>)
    ensures "result" in response && !response["result"].JObject? ==> r == Err(WrongType)
    ensures var result := ResultFields(response);
            r.Ok? <==> && ("result" !in response || response["result"].JObject?)
                       && GetInt(response, "t", 0).Ok?
                       && Lifetime(result).Ok?
                       && GetStr(result, "access_token", "").Ok?
                       && GetStr(result, "refresh_token", "").Ok?
                       && GetStr(result, "uid", "").Ok?
    ensures r.Ok? ==> r.value.expireTime == GetInt(response, "t", 0).value + 1000 * Lifetime(ResultFields(response)).value
    ensures r.Ok? && "t" !in response ==> r.value.expireTime == 1000 * Lifetime(ResultFields(response)).value
    ensures var result := ResultFields(response);
            r.Ok? && "expire" !in result && "expire_time" !in result ==> r.value.expireTime == GetInt(response, "t", 0).value
    ensures var result := ResultFields(response);
            r.Ok? ==> && ("access_token" !in result ==> r.value.accessToken == "")
                      && ("access_token" in result ==> result["access_token"] == JStr(r.value.accessToken))
                      && ("refresh_token" !in result ==> r.value.refreshToken == "")
                      && ("refresh_token" in result ==> result["refresh_token"] == JStr(r.value.refreshToken))
                      && ("uid" !in result ==> r.value.uid == "")
                      && ("uid" in result ==> result["uid"] == JStr(r.value.uid))
  {
    var result :- if "result" in response then AsObject(response["result"]) else Ok(map[]);
    var t :- GetInt(response, "t", 0);
    var expire :- Lifetime(result);
    var accessToken :- GetStr(result, "access_token", "");
    var refreshToken :- GetStr(result, "refresh_token", "");
    var uid :- GetStr(result, "uid", "");
    Ok(TokenInfo(t + expire * 1000, accessToken, refreshToken, uid))
  }

  /** The token endpoint's reply for a token issued at `t` (ms) that lives `expire`
      seconds; this is the shape the vendor documents for the token endpoint. */
  function TokenReply(t: int, expire: int, accessToken: string, refreshToken: string, uid: string): Object {
    map[
      "success" := JBool(true),
      "t" := JInt(t),
      "result" := JObject(map[
        "expire" := JInt(expire),
        "access_token" := JStr(accessToken),
        "refresh_token" := JStr(refreshToken),
        "uid" := JStr(uid)])]
  }

  /** Reading a token reply recovers its strings, and the expiry is the issue time plus
      the lifetime converted from seconds to milliseconds. */
  lemma TokenInfoOfTokenReply(t: int, expire: int, accessToken: string, refreshToken: string, uid: string)
    ensures TokenInfoOf(TokenReply(t, expire, accessToken, refreshToken, uid))
            == Ok(TokenInfo(t + 1000 * expire, accessToken, refreshToken, uid))
  {
  }

  /** Without `expire`, the lifetime is read from `expire_time`. */
  lemma ExpireTimeFallback(response: Object, result: Object)
    requires "result" in response && response["result"] == JObject(result)
    requires "expire" !in result && "expire_time" in result && result["expire_time"].JInt?
    requires TokenInfoOf(response).Ok?
    ensures TokenInfoOf(response).value.expireTime
            == (if "t" in response then AsInt(response["t"]).value else 0) + 1000 * result["expire_time"].i
  {
  }

  /** A reply without `t` and without `result` gives the all-default token. */
  lemma EmptyReplyDefaults(response: Object)
    requires "t" !in response && "result" !in response
    ensures TokenInfoOf(response) == Ok(TokenInfo(0, "", "", ""))
  {
  }

  /** A token read from a reply whose `result` holds a str `access_token` carries that
      access token. */
  lemma TokenInfoAccessToken(response: Object)
    requires TokenInfoOf(response).Ok?
    requires "result" in response && response["result"].JObject?
    requires "access_token" in response["result"].fields && response["result"].fields["access_token"].JStr?
    ensures TokenInfoOf(response).value.accessToken == response["result"].fields["access_token"].s
  {
  }

  /** `TuyaOpenAPI.is_connect`: a token is cached and its access token is non-empty
      (expired or not). */
  predicate IsConnect(tokenInfo: Option<TokenInfo>) {
    tokenInfo.Some? && |tokenInfo.value.accessToken| > 0
  }
}
