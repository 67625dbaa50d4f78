/** Tuya request signing: the canonical string-to-sign, the signed message and the
    signature (HMAC-SHA256, upper-case hex). Hashing, HMAC, UTF-8 encoding and
    `json.dumps` are foreign primitives, passed in as a `Foreign` record; only the way
    their inputs and outputs are assembled is modelled. */
module TuyaSign {
  import opened Exceptions
  import opened Json
  import opened Text
  import opened Hex
  import opened StringOrder
  import opened Http
  import opened TuyaToken

  datatype Foreign = Foreign(
    /** `s.encode("utf8")` */
    utf8: string -> seq<byte>,
    /** `hashlib.sha256(data).digest()` (FIPS 180-4) */
    sha256: seq<byte> -> seq<byte>,
    /** `hmac.new(key, msg, hashlib.sha256).digest()` (RFC 2104) */
    hmacSha256: (seq<byte>, seq<byte>) -> seq<byte>,
    /** `json.dumps(value)` */
    jsonDumps: Json -> string)

  /** The text whose SHA-256 goes into the string-to-sign: "" for no body or an empty
      body, otherwise the body's JSON serialisation. */
  function ContentToSha256(body: Option<Object>, f: Foreign): string {
    if body.None? || |body.value| == 0 then "" else f.jsonDumps(JObject(body.value))
  }

  /** The lower-case hex SHA-256 of the content. */
  function ContentHash(body: Option<Object>, f: Foreign): string {
    Lower(HexDigest(f.sha256(f.utf8(ContentToSha256(body, f)))))
  }

  /** `f"{key}={params[key]}"` for each key, in the given order. */
  function QueryPairs(keys: seq<string>, params: Params): (r: seq<string>)
    requires forall i :: 0 <= i < |keys| ==> keys[i] in params
    ensures |r| == |keys|
    ensures forall i :: 0 <= i < |keys| ==> r[i] == keys[i] + "=" + ParamText(params[keys[i]])
  {
    if |keys| == 0 then [] else [keys[0] + "=" + ParamText(params[keys[0]])] + QueryPairs(keys[1..], params)
  }

  /** `sorted(params.keys())`: every parameter's key exactly once, ascending. */
  function SortedParamKeys(params: Params): (keys: seq<string>)
    ensures |keys| == |params|
    ensures forall i :: 0 <= i < |keys| ==> keys[i] in params
    ensures forall k :: k in params ==> k in keys
  {
    var keys := SortedKeys(params.Keys);
    forall i | 0 <= i < |keys|
      ensures keys[i] in params
    {
      assert keys[i] in keys;
    }
    keys
  }

  /** The query part of the string-to-sign: "" without parameters, otherwise "?" and
      the `key=value` pairs in ascending key order joined by "&". */
  function QueryString(params: Option<Params>): string {
    if params.None? || |params.value| == 0 then ""
    else "?" + Join(QueryPairs(SortedParamKeys(params.value), params.value), '&')
  }

  /** The canonical string-to-sign: method, content hash, an empty header block, then
      the path with its query. */
  function StringToSign(httpMethod: string, path: string, params: Option<Params>, body: Option<Object>, f: Foreign): string {
    httpMethod + "\n" + ContentHash(body, f) + "\n" + "\n" + path + QueryString(params)
  }

  /** The signed message: client id, then the cached access token if a token is cached,
      then the timestamp in decimal, then the string-to-sign. */
  function SignMessage(accessId: string, tokenInfo: Option<TokenInfo>, t: nat, strToSign: string): string {
    accessId + (if tokenInfo.Some? then tokenInfo.value.accessToken else "") + NatToDecimal(t) + strToSign
  }

  /** The signature: upper-case hex of HMAC-SHA256 keyed by the client secret. */
  function Signature(accessSecret: string, message: string, f: Foreign): string {
    Upper(HexDigest(f.hmacSha256(f.utf8(accessSecret), f.utf8(message))))
  }

  /** The query text the source assembles: each pair followed by "&". */
  function AmpersandTerminated(pairs: seq<string>): (r: string)
    ensures |pairs| > 0 ==> |r| > 0 && r[|r| - 1] == '&'
  {
    if |pairs| == 0 then "" else AmpersandTerminated(pairs[..|pairs| - 1]) + pairs[|pairs| - 1] + "&"
  }

  /** Dropping the last character of the "&"-terminated pairs gives the pairs joined by
      "&": exactly one "&" between neighbours and none after the last pair. */
  lemma {:induction false} DropTrailingAmpersand(pairs: seq<string>)
    requires |pairs| > 0
    ensures var q := AmpersandTerminated(pairs); q[..|q| - 1] == Join(pairs, '&')
  {
    var q := AmpersandTerminated(pairs);
    if |pairs| == 1 {
      assert pairs[..0] == [];
      assert q == pairs[0] + "&";
    } else {
      var init := pairs[..|pairs| - 1];
      DropTrailingAmpersand(init);
      var qi := AmpersandTerminated(init);
      JoinSnoc(init, pairs[|pairs| - 1], '&');
      assert init + [pairs[|pairs| - 1]] == pairs;
      assert q == qi + pairs[|pairs| - 1] + "&";
      assert q[..|q| - 1] == qi + pairs[|pairs| - 1];
      assert qi == qi[..|qi| - 1] + "&";
    }
  }

  lemma {:induction false} JoinSnoc(parts: seq<string>, last: string, sep: char)
    requires |parts| > 0
    ensures Join(parts + [last], sep) == Join(parts, sep) + [sep] + last
  {
    if |parts| == 1 {
      assert (parts + [last])[1..] == [last];
    } else {
      JoinSnoc(parts[1..], last, sep);
      assert (parts + [last])[1..] == parts[1..] + [last];
    }
  }

  lemma AmpersandTerminatedSnoc(pairs: seq<string>, i: nat)
    requires i < |pairs|
    ensures AmpersandTerminated(pairs[..i + 1]) == AmpersandTerminated(pairs[..i]) + pairs[i] + "&"
  {
    assert pairs[..i + 1][..i] == pairs[..i];
  }

  /** The "&"-terminated pairs of a non-empty parameter map, last character dropped and
      "?" in front, are its query. */
  lemma QueryStringOfBuilder(params: Params)
    requires |params| > 0
    ensures var keys := SortedParamKeys(params);
            var q := AmpersandTerminated(QueryPairs(keys, params)[..|keys|]);
            |q| > 0 && QueryString(Some(params)) == "?" + q[..|q| - 1]
  {
    var keys := SortedParamKeys(params);
    var pairs := QueryPairs(keys, params);
    assert |pairs| == |keys| > 0;
    assert pairs[..|keys|] == pairs;
    DropTrailingAmpersand(pairs);
    assert QueryString(Some(params)) == "?" + Join(pairs, '&');
  }

  /** The query lists every parameter exactly once, in ascending key order: for any
      ascending repeat-free enumeration of the keys, the query is built from it. */
  lemma QueryStringFromAnySortedKeys(params: Params, keys: seq<string>)
    requires |params| > 0
    requires StrictlySorted(keys) && forall k :: k in keys <==> k in params
    ensures QueryString(Some(params)) == "?" + Join(QueryPairs(keys, params), '&')
  {
    assert SortedParamKeys(params) == SortedKeys(params.Keys);
    SortedUnique(keys, SortedParamKeys(params));
  }

  /** Splitting the query at "&" recovers one `key=value` pair per parameter, in
      ascending key order, when no key or value contains "&". */
  lemma QueryStringSplits(params: Params)
    requires |params| > 0
    requires forall k :: k in params ==> '&' !in k && '&' !in ParamText(params[k])
    ensures var q := QueryString(Some(params));
            |q| > 0 && q[0] == '?' && Split(q[1..], '&') == QueryPairs(SortedParamKeys(params), params)
  {
    var keys := SortedParamKeys(params);
    var pairs := QueryPairs(keys, params);
    forall i | 0 <= i < |pairs|
      ensures '&' !in pairs[i]
    {
      assert keys[i] in params;
    }
    SplitJoin(pairs, '&');
    var joined := Join(pairs, '&');
    assert ("?" + joined)[1..] == joined;
  }

  /** The content hash is hex, so it never contains a line break. */
  lemma ContentHashHasNoLineBreak(body: Option<Object>, f: Foreign)
    ensures '\n' !in ContentHash(body, f)
  {
    var digest := f.sha256(f.utf8(ContentToSha256(body, f)));
    LowerHexDigest(digest);
    var h := ContentHash(body, f);
    forall i | 0 <= i < |h|
      ensures h[i] != '\n'
    {
      assert IsLowerHexDigit(h[i]);
    }
  }

  lemma RegroupLines(a: string, b: string, p: string, q: string)
    ensures a + "\n" + b + "\n" + "\n" + p + q == a + ['\n'] + (b + ['\n'] + (['\n'] + (p + q)))
  {
  }

  lemma SplitFourLines(a: string, b: string, p: string, q: string)
    requires '\n' !in a && '\n' !in b && '\n' !in p + q
    ensures Split(a + "\n" + b + "\n" + "\n" + p + q, '\n') == [a, b, "", p + q]
  {
    var c := p + q;
    var tail := ['\n'] + c;
    SplitWithoutSep(c, '\n');
    SplitAtFirstSep("", '\n', c);
    assert "" + ['\n'] + c == tail;
    var mid := b + ['\n'] + tail;
    SplitAtFirstSep(b, '\n', tail);
    SplitAtFirstSep(a, '\n', mid);
    RegroupLines(a, b, p, q);
  }

  /** The string-to-sign has exactly four lines (method, content hash, an empty header
      line, path with query) when neither the method nor the path and query contain a
      line break. */
  lemma StringToSignLines(httpMethod: string, path: string, params: Option<Params>, body: Option<Object>, f: Foreign)
    requires '\n' !in httpMethod && '\n' !in path + QueryString(params)
    ensures Split(StringToSign(httpMethod, path, params, body, f), '\n')
            == [httpMethod, ContentHash(body, f), "", path + QueryString(params)]
  {
    ContentHashHasNoLineBreak(body, f);
    SplitFourLines(httpMethod, ContentHash(body, f), path, QueryString(params));
  }

  /** A missing body and an empty body are signed alike, and so are missing and empty
      parameters. */
  lemma EmptyBodyAndParamsSignAlike(httpMethod: string, path: string, f: Foreign)
    ensures StringToSign(httpMethod, path, None, None, f) == StringToSign(httpMethod, path, Some(map[]), Some(map[]), f)
    ensures StringToSign(httpMethod, path, None, None, f)
            == httpMethod + "\n" + Lower(HexDigest(f.sha256(f.utf8("")))) + "\n" + "\n" + path
  {
  }

  /** The signature is the HMAC digest written in upper-case hex: twice as long as the
      digest, only `0-9A-F`, and decoding it gives the digest back. */
  lemma SignatureIsUpperHexDigest(accessSecret: string, message: string, f: Foreign)
    ensures var digest := f.hmacSha256(f.utf8(accessSecret), f.utf8(message));
            var sign := Signature(accessSecret, message, f);
            |sign| == 2 * |digest| && IsUpperHex(sign) && Unhex(sign) == digest
  {
    UpperHexDigestShape(f.hmacSha256(f.utf8(accessSecret), f.utf8(message)));
    UpperHexDigestDecodes(f.hmacSha256(f.utf8(accessSecret), f.utf8(message)));
  }
}
