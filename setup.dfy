/**
 * The setup page route (src/app/api/setup/route.ts, `GET`): it resolves the
 * `token` query parameter through the access-token store, checks the
 * signature of the stored token, decodes it and embeds three of its claims in
 * an HTML page that loads the Connect SDK. Every check that fails gives the
 * same 400 answer.
 *
 * The access-token store is a map from id to token, signature checking is
 * the oracle `verify(token, key)`, and `decode` is what `jwt.decode` returns.
 */
module Setup {
  import opened Wrappers
  import opened Text
  import opened JsObject
  import opened Json
  import opened Config
  import opened Credentials

  /** What `jwt.decode(token, { complete: true })` yields, as far as the route looks at it. */
  datatype Decoded =
    | NoPayload                       // `null`, or a falsy `payload`
    | TextPayload(text: string)       // a string payload
    | ObjectPayload(claims: Object<Json>)

  /** A response: status, `Content-Type` and body text. */
  datatype SetupResponse = SetupResponse(status: int, contentType: string, body: string)

  /** A response, or an exception that escapes the handler. */
  datatype RouteResult = Responded(response: SetupResponse) | Crashed

  /** The oracle calls of the handler, in the order it makes them. */
  datatype Step = LookUp(id: string) | Verify(token: string) | Decode(token: string)

  /** `NextResponse.json({ error: "Invalid token" }, { status: 400 })`. */
  const INVALID_TOKEN := SetupResponse(400, "application/json", Stringify(JObj([("error", JStr("Invalid token"))])))

  /** A property that is `undefined` is left out by `JSON.stringify`. */
  function Defined(name: string, v: Option<Json>): Object<Json> {
    if v.Some? then [(name, v.value)] else []
  }

  /** `tokenInfo`: three properties read from the inner `payload` claim. */
  function TokenInfo(inner: Json): Json {
    JObj(Defined("projectId", Member(inner, "projectId"))
      + Defined("loginToken", Member(inner, "loginToken"))
      + Defined("integrationName", Member(inner, "integrationName")))
  }

  const PAGE_START := "\n      <html>\n        <head>\n          "
  const LINE_BREAK := "\n          "
  const PAGE_END := "\n          <script type=\"text/javascript\" src=\"/static/js/index.js\"></script>\n"
    + "        </head>\n        <body>\n        </body>\n      </html>\n    "

  function SdkScript(cdnUrl: string): string {
    "<script src=\"" + cdnUrl + "\"></script>"
  }

  function TokenInfoScript(json: string): string {
    "<script id=\"token-info\" type=\"application/json\">" + json + "</script>"
  }

  /** The setup page. */
  function SetupPage(cdnUrl: string, tokenInfo: Json): string {
    PAGE_START + SdkScript(cdnUrl) + LINE_BREAK + TokenInfoScript(Stringify(tokenInfo)) + PAGE_END
  }

  /**
   * `GET(req)`, returning its result together with the oracle calls it made.
   * A signing key that cannot be read throws while the arguments of
   * `jwt.verify` are evaluated, so `verify` is not called then. Reading
   * `payload.projectId` throws when the inner `payload` claim is missing or
   * `null`.
   */
  function SetupGet(tokenId: Option<string>, store: map<string, string>, env: Envs, files: map<string, string>,
                    verify: (string, string) -> bool, decode: string -> Decoded): (r: (RouteResult, seq<Step>))
    ensures !Present(tokenId) ==> r == (Responded(INVALID_TOKEN), [])
    ensures Present(tokenId) && (tokenId.value !in store || store[tokenId.value] == "") ==>
      r == (Responded(INVALID_TOKEN), [LookUp(tokenId.value)])
    ensures Present(tokenId) && tokenId.value in store && store[tokenId.value] != "" ==>
      var token := store[tokenId.value];
      var key := GetSigningKey(env, files);
      && (key.Failure? ==> r == (Responded(INVALID_TOKEN), [LookUp(tokenId.value)]))
      && (key.Success? && !verify(token, key.value) ==>
            r == (Responded(INVALID_TOKEN), [LookUp(tokenId.value), Verify(token)]))
      && (key.Success? && verify(token, key.value) ==>
            && r.1 == [LookUp(tokenId.value), Verify(token), Decode(token)]
            && (!decode(token).ObjectPayload? ==> r.0 == Responded(INVALID_TOKEN)))
  {
    if !Present(tokenId) then (Responded(INVALID_TOKEN), [])
    else
      var id := tokenId.value;
      if id !in store || store[id] == "" then (Responded(INVALID_TOKEN), [LookUp(id)])
      else
        var token := store[id];
        var key := GetSigningKey(env, files);
        if key.Failure? then (Responded(INVALID_TOKEN), [LookUp(id)])
        else if !verify(token, key.value) then (Responded(INVALID_TOKEN), [LookUp(id), Verify(token)])
        else
          var steps := [LookUp(id), Verify(token), Decode(token)];
          match decode(token)
          case NoPayload => (Responded(INVALID_TOKEN), steps)
          case TextPayload(_) => (Responded(INVALID_TOKEN), steps)
          case ObjectPayload(claims) =>
            var inner := Get(claims, "payload");
            if inner.None? || inner.value == JNull then (Crashed, steps)
            else (Responded(SetupResponse(200, "text/html", SetupPage(env.connectSdkCdnUrl, TokenInfo(inner.value)))), steps)
  }

  /**
   * The steps run in order and each needs the one before it: the calls made
   * are always a prefix of look-up, verify, decode, on the same token.
   */
  lemma StepsInOrder(tokenId: Option<string>, store: map<string, string>, env: Envs, files: map<string, string>,
                     verify: (string, string) -> bool, decode: string -> Decoded)
    ensures var steps := SetupGet(tokenId, store, env, files, verify, decode).1;
      && |steps| <= 3
      && (|steps| >= 1 ==> Present(tokenId) && steps[0] == LookUp(tokenId.value))
      && (|steps| >= 2 ==> tokenId.value in store && GetSigningKey(env, files).Success?
                           && steps[1] == Verify(store[tokenId.value]))
      && (|steps| >= 3 ==> verify(store[tokenId.value], GetSigningKey(env, files).value)
                           && steps[2] == Decode(store[tokenId.value]))
  {
  }

  /**
   * Every answer other than the page is the same 400 body, so no failure
   * reason is revealed; a 200 answer is always the HTML page.
   */
  lemma OneFailureAnswer(tokenId: Option<string>, store: map<string, string>, env: Envs, files: map<string, string>,
                         verify: (string, string) -> bool, decode: string -> Decoded)
    ensures var r := SetupGet(tokenId, store, env, files, verify, decode).0;
      r.Responded? ==> (r.response == INVALID_TOKEN || (r.response.status == 200 && r.response.contentType == "text/html"))
    ensures var r := SetupGet(tokenId, store, env, files, verify, decode);
      r.0.Responded? && r.0.response.status == 200 ==> |r.1| == 3 && decode(store[tokenId.value]).ObjectPayload?
  {
  }

  /** The page loads the SDK from the configured CDN and embeds the token information as JSON. */
  lemma PageEmbeds(cdnUrl: string, tokenInfo: Json)
    ensures Contains(SetupPage(cdnUrl, tokenInfo), SdkScript(cdnUrl))
    ensures Contains(SetupPage(cdnUrl, tokenInfo), TokenInfoScript(Stringify(tokenInfo)))
  {
    var src := SdkScript(cdnUrl);
    var info := TokenInfoScript(Stringify(tokenInfo));
    var page := SetupPage(cdnUrl, tokenInfo);
    assert page == PAGE_START + src + (LINE_BREAK + info + PAGE_END);
    ContainsInfix(PAGE_START, src, LINE_BREAK + info + PAGE_END);
    assert page == (PAGE_START + src + LINE_BREAK) + info + PAGE_END;
    ContainsInfix(PAGE_START + src + LINE_BREAK, info, PAGE_END);
  }

  lemma GetDefined(name: string, v: Option<Json>, k: string)
    ensures Get(Defined(name, v), k) == if k == name then v else None
  {
  }

  /** `tokenInfo` has exactly the three properties, each as the inner payload has it. */
  lemma TokenInfoFields(inner: Json)
    ensures forall k :: k in Keys(TokenInfo(inner).members) ==> k == "projectId" || k == "loginToken" || k == "integrationName"
    ensures Member(TokenInfo(inner), "projectId") == Member(inner, "projectId")
    ensures Member(TokenInfo(inner), "loginToken") == Member(inner, "loginToken")
    ensures Member(TokenInfo(inner), "integrationName") == Member(inner, "integrationName")
  {
    var a := Defined("projectId", Member(inner, "projectId"));
    var b := Defined("loginToken", Member(inner, "loginToken"));
    var c := Defined("integrationName", Member(inner, "integrationName"));
    var m := TokenInfo(inner).members;
    assert m == a + (b + c);
    forall k ensures Get(m, k) == if k == "projectId" then Member(inner, "projectId")
                                  else if k == "loginToken" then Member(inner, "loginToken")
                                  else if k == "integrationName" then Member(inner, "integrationName")
                                  else None
    {
      GetAppend(a, b + c, k);
      GetAppend(b, c, k);
      GetDefined("projectId", Member(inner, "projectId"), k);
      GetDefined("loginToken", Member(inner, "loginToken"), k);
      GetDefined("integrationName", Member(inner, "integrationName"), k);
    }
    forall k | k in Keys(m) ensures k == "projectId" || k == "loginToken" || k == "integrationName" {
      assert Get(m, k).Some?;
    }
  }

  /** A verified token whose decoded claims carry a non-null `payload` opens the page. */
  lemma SetupSucceeds(id: string, store: map<string, string>, env: Envs, files: map<string, string>,
                      verify: (string, string) -> bool, decode: string -> Decoded, inner: Json)
    requires id != "" && id in store && store[id] != ""
    requires GetSigningKey(env, files).Success? && verify(store[id], GetSigningKey(env, files).value)
    requires decode(store[id]).ObjectPayload? && Get(decode(store[id]).claims, "payload") == Some(inner)
    requires inner != JNull
    ensures SetupGet(Some(id), store, env, files, verify, decode).0
      == Responded(SetupResponse(200, "text/html", SetupPage(env.connectSdkCdnUrl, TokenInfo(inner))))
  {
  }

  /**
   * A setup link opens its page: when the store holds the link token under
   * the link's id, the signature checks out, and decoding gives back the
   * signed claims, the page embeds the project id, the login token and the
   * integration name that `GenerateSetupLink` put in the token (each when
   * truthy).
   */
  lemma SetupLinkOpens(props: LinkConnectionProps, nowMs1: int, nowMs2: int, env: Envs,
                       files: map<string, string>, sign: SignCall -> string, id: string,
                       store: map<string, string>, verify: (string, string) -> bool, decode: string -> Decoded)
    requires GenerateSetupLink(props, nowMs1, nowMs2, env, files, sign, id).Success?
    requires var link := GenerateSetupLink(props, nowMs1, nowMs2, env, files, sign, id).value;
      && id != "" && id in store && store[id] == link.token && link.token != ""
      && verify(link.token, GetSigningKey(env, files).value)
    requires var key := GetSigningKey(env, files).value;
      var login := BuildClaims(LoginProps(props), nowMs1);
      var claims := BuildClaims(LinkProps(props, sign(SignCall(login, key, "RS256"))), nowMs2);
      decode(sign(SignCall(claims, key, "RS256"))) == ObjectPayload(ClaimsJson(claims).members)
    ensures var key := GetSigningKey(env, files).value;
      var login := BuildClaims(LoginProps(props), nowMs1);
      var loginToken := sign(SignCall(login, key, "RS256"));
      var claims := BuildClaims(LinkProps(props, loginToken), nowMs2);
      var inner := JObj(StringMembers(claims.payload));
      && SetupGet(Some(id), store, env, files, verify, decode).0
         == Responded(SetupResponse(200, "text/html", SetupPage(env.connectSdkCdnUrl, TokenInfo(inner))))
      && Member(TokenInfo(inner), "projectId") == (if Present(props.projectId) then Some(JStr(props.projectId.value)) else None)
      && Member(TokenInfo(inner), "integrationName") == (if Present(props.integrationName) then Some(JStr(props.integrationName.value)) else None)
      && Member(TokenInfo(inner), "loginToken") == (if loginToken != "" then Some(JStr(loginToken)) else None)
  {
    var key := GetSigningKey(env, files).value;
    var login := BuildClaims(LoginProps(props), nowMs1);
    var loginToken := sign(SignCall(login, key, "RS256"));
    var linkProps := LinkProps(props, loginToken);
    var claims := BuildClaims(linkProps, nowMs2);
    var inner := JObj(StringMembers(claims.payload));
    SetupLinkClaims(props, nowMs1, nowMs2, env, files, sign, id);
    var members := ClaimsJson(claims).members;
    assert members[0] == ("payload", inner);
    SetupSucceeds(id, store, env, files, verify, decode, inner);
    LinkTokenInfo(props, loginToken, nowMs2);
  }

  /** The token information of a link token: project id, login token and integration name, each when truthy. */
  lemma LinkTokenInfo(props: LinkConnectionProps, loginToken: string, nowMs: int)
    ensures var inner := JObj(StringMembers(BuildClaims(LinkProps(props, loginToken), nowMs).payload));
      && Member(TokenInfo(inner), "projectId") == (if Present(props.projectId) then Some(JStr(props.projectId.value)) else None)
      && Member(TokenInfo(inner), "integrationName") == (if Present(props.integrationName) then Some(JStr(props.integrationName.value)) else None)
      && Member(TokenInfo(inner), "loginToken") == (if loginToken != "" then Some(JStr(loginToken)) else None)
  {
    var linkProps := LinkProps(props, loginToken);
    var inner := JObj(StringMembers(BuildClaims(linkProps, nowMs).payload));
    InnerFields(linkProps, nowMs);
    TokenInfoFields(inner);
    assert "projectId" in PAYLOAD_FIELDS && "integrationName" in PAYLOAD_FIELDS && "loginToken" in PAYLOAD_FIELDS;
    assert FieldValue(linkProps, "projectId") == props.projectId;
    assert FieldValue(linkProps, "integrationName") == props.integrationName;
    assert FieldValue(linkProps, "loginToken") == Some(loginToken);
  }

  /** The decoded inner payload holds each truthy payload field as a JSON string, and nothing else. */
  lemma InnerFields(props: LinkConnectionProps, nowMs: int)
    ensures var inner := JObj(StringMembers(BuildClaims(props, nowMs).payload));
      forall f :: Member(inner, f) == if f in PAYLOAD_FIELDS && Present(FieldValue(props, f)) then Some(JStr(FieldValue(props, f).value)) else None
  {
    var payload := BuildClaims(props, nowMs).payload;
    var inner := JObj(StringMembers(payload));
    PayloadFields(props);
    forall f ensures Member(inner, f) == if f in PAYLOAD_FIELDS && Present(FieldValue(props, f)) then Some(JStr(FieldValue(props, f).value)) else None {
      GetStringMembers(payload, f);
    }
  }
}
