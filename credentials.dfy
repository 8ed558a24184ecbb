/**
 * The credential helpers of src/utils/util.ts: where the private signing key
 * comes from (`getSigningKey`), the claims a signed token carries (`signJwt`),
 * and the two tokens and the URL of a setup link (`generateSetupLink`).
 * Signing itself (RS256) is the parameter `sign`; file reading is a map from
 * readable paths to their contents.
 */
module Credentials {
  import opened Wrappers
  import opened JsObject
  import opened Json
  import opened Config

  datatype KeyError = KeyFileUnreadable | NoSigningKey {
    function Description(): string {
      match this
      case KeyFileUnreadable => "Failed to read signing key file"
      case NoSigningKey => "Neither SIGNING_KEY nor SIGNING_KEY_PATH is set"
    }
  }

  // ---------------------------------------------------------------------------
  // getSigningKey

  /** `s.replaceAll("\\n", "\n")`: each backslash-n pair, left to right, becomes a newline. */
  function UnescapeNewlines(s: string): string
    decreases |s|
  {
    if |s| == 0 then ""
    else if |s| >= 2 && s[0] == '\\' && s[1] == 'n' then "\n" + UnescapeNewlines(s[2..])
    else [s[0]] + UnescapeNewlines(s[1..])
  }

  /** A backslash immediately followed by the letter n starts at index `i`. */
  ghost predicate EscapedNewlineAt(s: string, i: int) {
    0 <= i < |s| - 1 && s[i] == '\\' && s[i + 1] == 'n'
  }

  /** The number of pairs `replaceAll` replaces. */
  function EscapeCount(s: string): nat
    decreases |s|
  {
    if |s| == 0 then 0
    else if |s| >= 2 && s[0] == '\\' && s[1] == 'n' then 1 + EscapeCount(s[2..])
    else EscapeCount(s[1..])
  }

  /** No backslash-n pair survives, and each replacement shortens the text by one character. */
  lemma {:induction false} UnescapedHasNoEscapes(s: string)
    ensures forall i :: !EscapedNewlineAt(UnescapeNewlines(s), i)
    ensures |UnescapeNewlines(s)| == |s| - EscapeCount(s)
    decreases |s|
  {
    if |s| >= 2 && s[0] == '\\' && s[1] == 'n' {
      UnescapedHasNoEscapes(s[2..]);
      var r := UnescapeNewlines(s);
      forall i ensures !EscapedNewlineAt(r, i) {
        if 1 <= i < |r| - 1 {
          assert r[i] == UnescapeNewlines(s[2..])[i - 1] && r[i + 1] == UnescapeNewlines(s[2..])[i];
          assert !EscapedNewlineAt(UnescapeNewlines(s[2..]), i - 1);
        }
      }
    } else if |s| > 0 {
      UnescapedHasNoEscapes(s[1..]);
      var t := UnescapeNewlines(s[1..]);
      var r := UnescapeNewlines(s);
      assert r == [s[0]] + t;
      forall i ensures !EscapedNewlineAt(r, i) {
        if i == 0 && |r| >= 2 && s[0] == '\\' {
          UnescapeHead(s[1..]);
          assert r[1] == t[0];
        } else if 1 <= i < |r| - 1 {
          assert !EscapedNewlineAt(t, i - 1);
        }
      }
    }
  }

  /** The first character `replaceAll` leaves: a newline for a replaced pair, the character itself otherwise. */
  lemma UnescapeHead(s: string)
    requires |s| > 0
    ensures |UnescapeNewlines(s)| > 0
    ensures UnescapeNewlines(s)[0] == if |s| >= 2 && s[0] == '\\' && s[1] == 'n' then '\n' else s[0]
  {
  }

  /** Key material without escaped newlines is used exactly as it is. */
  lemma {:induction false} UnescapeIdentity(s: string)
    requires forall i :: !EscapedNewlineAt(s, i)
    ensures UnescapeNewlines(s) == s
    decreases |s|
  {
    if |s| > 0 {
      assert !EscapedNewlineAt(s, 0);
      forall i ensures !EscapedNewlineAt(s[1..], i) {
        assert !EscapedNewlineAt(s, i + 1);
      }
      UnescapeIdentity(s[1..]);
    }
  }

  /** Unescaping twice is unescaping once. */
  lemma UnescapeIdempotent(s: string)
    ensures UnescapeNewlines(UnescapeNewlines(s)) == UnescapeNewlines(s)
  {
    UnescapedHasNoEscapes(s);
    UnescapeIdentity(UnescapeNewlines(s));
  }

  /**
   * `getSigningKey()`: a set key path wins, and a file that cannot be read is an
   * error, never a fall-back to SIGNING_KEY; with neither set it is an error.
   */
  function GetSigningKey(env: Envs, files: map<string, string>): (r: Result<string, KeyError>)
    ensures Present(env.signingKeyPath) ==>
      r == if env.signingKeyPath.value in files
           then Success(UnescapeNewlines(files[env.signingKeyPath.value]))
           else Failure(KeyFileUnreadable)
    ensures !Present(env.signingKeyPath) && !Present(env.signingKey) ==> r == Failure(NoSigningKey)
    ensures !Present(env.signingKeyPath) && Present(env.signingKey) ==>
      r == Success(UnescapeNewlines(env.signingKey.value))
  {
    if Present(env.signingKeyPath) then
      var path := env.signingKeyPath.value;
      if path in files then Success(UnescapeNewlines(files[path])) else Failure(KeyFileUnreadable)
    else if !Present(env.signingKey) then Failure(NoSigningKey)
    else Success(UnescapeNewlines(env.signingKey.value))
  }

  /** The key handed to the signer never contains a backslash-n pair. */
  lemma SigningKeyUnescaped(env: Envs, files: map<string, string>)
    requires GetSigningKey(env, files).Success?
    ensures forall i :: !EscapedNewlineAt(GetSigningKey(env, files).value, i)
  {
    if Present(env.signingKeyPath) {
      UnescapedHasNoEscapes(files[env.signingKeyPath.value]);
    } else {
      UnescapedHasNoEscapes(env.signingKey.value);
    }
  }

  /** The key does not depend on SIGNING_KEY whenever SIGNING_KEY_PATH is set. */
  lemma KeyPathShadowsKey(env: Envs, files: map<string, string>, otherKey: Option<string>)
    requires Present(env.signingKeyPath)
    ensures GetSigningKey(env.(signingKey := otherKey), files) == GetSigningKey(env, files)
  {
  }

  // ---------------------------------------------------------------------------
  // signJwt

  datatype LinkConnectionProps = LinkConnectionProps(
    userId: Option<string>,
    personaId: Option<string>,
    integrationId: Option<string>,
    integrationName: Option<string>,
    projectId: Option<string>,
    loginToken: Option<string>)

  /** The claims object `signJwt` signs; `sub` is `None` when `userId` is undefined. */
  datatype Claims = Claims(payload: Object<string>, sub: Option<string>, iat: int, exp: int)

  /** The arguments of `jwt.sign`. */
  datatype SignCall = SignCall(claims: Claims, key: string, algorithm: string)

  const WEEK_SECONDS := 60 * 60 * 24 * 7
  const PAYLOAD_FIELDS := ["personaId", "integrationId", "integrationName", "projectId", "loginToken"]

  /** The input field that the payload property `name` comes from. */
  function FieldValue(props: LinkConnectionProps, name: string): Option<string> {
    if name == "personaId" then props.personaId
    else if name == "integrationId" then props.integrationId
    else if name == "integrationName" then props.integrationName
    else if name == "projectId" then props.projectId
    else if name == "loginToken" then props.loginToken
    else None
  }

  /** `...(x && { x })`: the property is spread in only when its value is truthy. */
  function Optional(name: string, value: Option<string>): Object<string> {
    if Present(value) then [(name, value.value)] else []
  }

  /** The optional properties named in `names`, spread in that order. */
  function Optionals(props: LinkConnectionProps, names: seq<string>): Object<string>
    decreases |names|
  {
    if |names| == 0 then []
    else Optional(names[0], FieldValue(props, names[0])) + Optionals(props, names[1..])
  }

  function ClaimsPayload(props: LinkConnectionProps): Object<string> {
    Optionals(props, PAYLOAD_FIELDS)
  }

  lemma {:induction false} OptionalsSpec(props: LinkConnectionProps, names: seq<string>, f: string)
    ensures Get(Optionals(props, names), f) ==
      if f in names && Present(FieldValue(props, f)) then FieldValue(props, f) else None
    ensures f in Keys(Optionals(props, names)) ==> f in names
    decreases |names|
  {
    if |names| > 0 {
      var head := Optional(names[0], FieldValue(props, names[0]));
      OptionalsSpec(props, names[1..], f);
      GetAppend(head, Optionals(props, names[1..]), f);
      assert names == [names[0]] + names[1..];
      assert Keys(head + Optionals(props, names[1..])) == Keys(head) + Keys(Optionals(props, names[1..]));
    }
  }

  lemma {:induction false} OptionalsDistinct(props: LinkConnectionProps, names: seq<string>)
    requires forall i, j :: 0 <= i < j < |names| ==> names[i] != names[j]
    ensures DistinctKeys(Optionals(props, names))
    decreases |names|
  {
    if |names| > 0 {
      var head := Optional(names[0], FieldValue(props, names[0]));
      var tail := Optionals(props, names[1..]);
      OptionalsDistinct(props, names[1..]);
      if |head| == 1 {
        forall j | 0 <= j < |tail| ensures tail[j].0 != names[0] {
          assert Keys(tail)[j] == tail[j].0;
          OptionalsSpec(props, names[1..], tail[j].0);
        }
        assert head + tail == [head[0]] + tail;
      } else {
        assert head + tail == tail;
      }
    }
  }

  /** `Math.floor(Date.now() / 1000)`: the clock in milliseconds floored to seconds. */
  function IssuedAt(nowMs: int): (t: int)
    ensures t * 1000 <= nowMs < t * 1000 + 1000
  {
    nowMs / 1000
  }

  function BuildClaims(props: LinkConnectionProps, nowMs: int): Claims {
    Claims(ClaimsPayload(props), props.userId, IssuedAt(nowMs), IssuedAt(nowMs) + WEEK_SECONDS)
  }

  /**
   * The payload holds each optional field exactly when its input is truthy,
   * with the input's value; nothing else, and each name at most once.
   */
  lemma PayloadFields(props: LinkConnectionProps)
    ensures forall f ::
      Get(ClaimsPayload(props), f) == if f in PAYLOAD_FIELDS && Present(FieldValue(props, f)) then FieldValue(props, f) else None
    ensures forall k :: k in Keys(ClaimsPayload(props)) ==> k in PAYLOAD_FIELDS
    ensures DistinctKeys(ClaimsPayload(props))
  {
    forall f ensures Get(ClaimsPayload(props), f) ==
      if f in PAYLOAD_FIELDS && Present(FieldValue(props, f)) then FieldValue(props, f) else None
    {
      OptionalsSpec(props, PAYLOAD_FIELDS, f);
    }
    forall k | k in Keys(ClaimsPayload(props)) ensures k in PAYLOAD_FIELDS {
      OptionalsSpec(props, PAYLOAD_FIELDS, k);
    }
    OptionalsDistinct(props, PAYLOAD_FIELDS);
  }

  /** `jwt.sign`'s arguments: the claims, the signing key, RS256; an error when there is no key. */
  function SignJwtCall(props: LinkConnectionProps, nowMs: int, env: Envs, files: map<string, string>)
    : (r: Result<SignCall, KeyError>)
    ensures r.Success? <==> GetSigningKey(env, files).Success?
    ensures r.Failure? ==> r.error == GetSigningKey(env, files).error
    ensures r.Success? ==> r.value.key == GetSigningKey(env, files).value && r.value.algorithm == "RS256"
    ensures r.Success? ==> r.value.claims.sub == props.userId
    ensures r.Success? ==> r.value.claims.exp == r.value.claims.iat + 604800
    ensures r.Success? ==> r.value.claims.iat * 1000 <= nowMs < r.value.claims.iat * 1000 + 1000
  {
    match GetSigningKey(env, files)
    case Failure(e) => Failure(e)
    case Success(key) => Success(SignCall(BuildClaims(props, nowMs), key, "RS256"))
  }

  /** `signJwt(props)`: the token `sign` produces from that call. */
  function SignJwt(props: LinkConnectionProps, nowMs: int, env: Envs, files: map<string, string>,
                   sign: SignCall -> string): (r: Result<string, KeyError>)
    ensures r.Success? <==> SignJwtCall(props, nowMs, env, files).Success?
    ensures r.Success? ==> r.value == sign(SignCall(BuildClaims(props, nowMs), GetSigningKey(env, files).value, "RS256"))
  {
    match SignJwtCall(props, nowMs, env, files)
    case Failure(e) => Failure(e)
    case Success(call) => Success(sign(call))
  }

  /** The claims as the JSON object the token carries (`undefined` properties are left out). */
  function ClaimsJson(c: Claims): Json {
    JObj([("payload", JObj(StringMembers(c.payload)))]
      + (if c.sub.Some? then [("sub", JStr(c.sub.value))] else [])
      + [("iat", JNum(c.iat)), ("exp", JNum(c.exp))])
  }

  function StringMembers(o: Object<string>): (r: Object<Json>)
    ensures |r| == |o| && forall i :: 0 <= i < |o| ==> r[i] == (o[i].0, JStr(o[i].1))
  {
    seq(|o|, i requires 0 <= i < |o| => (o[i].0, JStr(o[i].1)))
  }

  lemma GetStringMembers(o: Object<string>, k: string)
    ensures Get(StringMembers(o), k) == if Get(o, k).Some? then Some(JStr(Get(o, k).value)) else None
    decreases |o|
  {
    if |o| > 0 {
      assert StringMembers(o)[1..] == StringMembers(o[1..]);
      GetStringMembers(o[1..], k);
    }
  }

  // ---------------------------------------------------------------------------
  // generateSetupLink

  /** A generated setup link: the URL, and the token stored under `id` in the access-token store. */
  datatype SetupLink = SetupLink(url: string, id: string, token: string)

  function LoginProps(props: LinkConnectionProps): LinkConnectionProps {
    LinkConnectionProps(props.userId, None, None, None, None, None)
  }

  function LinkProps(props: LinkConnectionProps, loginToken: string): LinkConnectionProps {
    LinkConnectionProps(None, None, None, props.integrationName, props.projectId, Some(loginToken))
  }

  /**
   * `generateSetupLink(props)`: a login token for the user (signed at time
   * `nowMs1`), then a link token carrying the integration name, the project id
   * and that login token (signed at `nowMs2`), stored under the id `id` that
   * the access-token store chose.
   */
  function GenerateSetupLink(props: LinkConnectionProps, nowMs1: int, nowMs2: int, env: Envs,
                             files: map<string, string>, sign: SignCall -> string, id: string)
    : (r: Result<SetupLink, KeyError>)
    ensures r.Success? <==> GetSigningKey(env, files).Success?
    ensures r.Success? ==> r.value.url == env.mcpServerUrl + "/setup?token=" + id && r.value.id == id
  {
    match SignJwt(LoginProps(props), nowMs1, env, files, sign)
    case Failure(e) => Failure(e)
    case Success(loginToken) =>
      match SignJwt(LinkProps(props, loginToken), nowMs2, env, files, sign)
      case Failure(e) => Failure(e)
      case Success(token) => Success(SetupLink(env.mcpServerUrl + "/setup?token=" + id, id, token))
  }

  /**
   * What the two tokens of a setup link say: the login token names the user
   * and carries an empty payload; the link token names no user and carries the
   * integration name, the project id and the login token, each when truthy.
   */
  lemma SetupLinkClaims(props: LinkConnectionProps, nowMs1: int, nowMs2: int, env: Envs,
                        files: map<string, string>, sign: SignCall -> string, id: string)
    requires GenerateSetupLink(props, nowMs1, nowMs2, env, files, sign, id).Success?
    ensures var key := GetSigningKey(env, files).value;
      var login := BuildClaims(LoginProps(props), nowMs1);
      var link := BuildClaims(LinkProps(props, sign(SignCall(login, key, "RS256"))), nowMs2);
      && login.sub == props.userId && login.payload == []
      && link.sub == None
      && var loginToken := sign(SignCall(login, key, "RS256"));
      && Get(link.payload, "loginToken") == (if loginToken != "" then Some(loginToken) else None)
      && Get(link.payload, "projectId") == (if Present(props.projectId) then props.projectId else None)
      && Get(link.payload, "integrationName") == (if Present(props.integrationName) then props.integrationName else None)
      && GenerateSetupLink(props, nowMs1, nowMs2, env, files, sign, id).value.token == sign(SignCall(link, key, "RS256"))
  {
    var key := GetSigningKey(env, files).value;
    var login := BuildClaims(LoginProps(props), nowMs1);
    var loginToken := sign(SignCall(login, key, "RS256"));
    PayloadFields(LinkProps(props, loginToken));
    assert "loginToken" in PAYLOAD_FIELDS && "projectId" in PAYLOAD_FIELDS && "integrationName" in PAYLOAD_FIELDS;
  }
}
