/**
 * The deployment configuration read from the process environment
 * (src/config/config.ts): string settings with defaults, the required project
 * id, the NODE_ENV mode, and the two comma-separated allow-lists.
 */
module Config {
  import opened Wrappers
  import opened Text
  import opened Seqs

  datatype NodeEnv = Development | Production

  datatype ConfigError = MissingProjectId | InvalidNodeEnv(value: string)

  datatype Envs = Envs(
    mcpServerUrl: string,
    projectId: string,
    signingKey: Option<string>,
    signingKeyPath: Option<string>,
    port: string,
    zeusBaseUrl: string,
    proxyBaseUrl: string,
    connectSdkCdnUrl: string,
    actionkitBaseUrl: string,
    nodeEnv: NodeEnv,
    limitToIntegrations: seq<string>,
    limitToTools: seq<string>)

  const DEFAULT_MCP_SERVER_URL := "http://localhost:3001"
  const DEFAULT_PORT := "3001"
  const DEFAULT_ZEUS_BASE_URL := "https://zeus.useparagon.com"
  const DEFAULT_PROXY_BASE_URL := "https://proxy.useparagon.com"
  const DEFAULT_CONNECT_SDK_CDN_URL := "https://cdn.useparagon.com/latest/sdk/index.js"
  const DEFAULT_ACTIONKIT_BASE_URL := "https://actionkit.useparagon.com"

  // ---------------------------------------------------------------------------
  // The allow-list transform: split at commas, trim each piece, drop empty ones.

  function TrimAll(parts: seq<string>): (r: seq<string>)
    ensures |r| == |parts| && forall i :: 0 <= i < |parts| ==> r[i] == Trim(parts[i])
  {
    seq(|parts|, i requires 0 <= i < |parts| => Trim(parts[i]))
  }

  /** `filter(Boolean)` on strings. */
  function KeepNonEmpty(parts: seq<string>): seq<string>
    decreases |parts|
  {
    if |parts| == 0 then []
    else if parts[0] == "" then KeepNonEmpty(parts[1..])
    else [parts[0]] + KeepNonEmpty(parts[1..])
  }

  /** An unset variable defaults to "" before the transform. */
  function ParseAllowList(raw: Option<string>): seq<string> {
    KeepNonEmpty(TrimAll(Split(raw.GetOr(""), ',')))
  }

  /**
   * What the filter keeps: exactly the non-empty pieces, each as often as it
   * occurs, in their original order, and never more pieces than it was given.
   */
  lemma {:induction false} KeepNonEmptySpec(parts: seq<string>)
    ensures forall x :: x in KeepNonEmpty(parts) <==> x in parts && x != ""
    ensures multiset(KeepNonEmpty(parts)) == multiset(parts)["" := 0]
    ensures IsSubsequence(KeepNonEmpty(parts), parts)
    ensures |KeepNonEmpty(parts)| <= |parts|
    decreases |parts|
  {
    KeepNonEmptyCounts(parts);
    if |parts| > 0 {
      KeepNonEmptySpec(parts[1..]);
      assert parts == [parts[0]] + parts[1..];
      if parts[0] == "" {
        SubsequenceSkip(parts[0], KeepNonEmpty(parts[1..]), parts[1..]);
      } else {
        SubsequenceKeep(parts[0], KeepNonEmpty(parts[1..]), parts[1..]);
      }
    }
  }

  /** The filter keeps every non-empty piece as often as it occurs and drops every empty one. */
  lemma {:induction false} KeepNonEmptyCounts(parts: seq<string>)
    ensures multiset(KeepNonEmpty(parts)) == multiset(parts)["" := 0]
    decreases |parts|
  {
    if |parts| > 0 {
      var p, rest := parts[0], parts[1..];
      KeepNonEmptyCounts(rest);
      assert parts == [p] + rest;
      assert multiset(parts) == multiset([p]) + multiset(rest);
      if p == "" {
        assert multiset(parts)["" := 0] == multiset(rest)["" := 0];
      } else {
        assert multiset(parts)["" := 0] == multiset([p]) + multiset(rest)["" := 0];
      }
    }
  }

  /** Every entry of an allow-list is non-empty, has no surrounding whitespace and no comma. */
  lemma AllowListEntriesClean(raw: Option<string>, x: string)
    requires x in ParseAllowList(raw)
    ensures x != ""
    ensures !IsJsWhitespace(x[0]) && !IsJsWhitespace(x[|x| - 1])
    ensures ',' !in x
  {
    var pieces := Split(raw.GetOr(""), ',');
    KeepNonEmptySpec(TrimAll(pieces));
    var i :| 0 <= i < |pieces| && TrimAll(pieces)[i] == x;
    SplitPartsAvoidSeparator(raw.GetOr(""), ',');
    assert pieces[i] in pieces;
    TrimAvoids(pieces[i], ',');
  }

  /**
   * The entries keep the order of the comma-separated input, every non-empty
   * trimmed piece is kept as often as it occurs, and there are at most as
   * many entries as pieces.
   */
  lemma AllowListOrder(raw: Option<string>)
    ensures IsSubsequence(ParseAllowList(raw), TrimAll(Split(raw.GetOr(""), ',')))
    ensures multiset(ParseAllowList(raw)) == multiset(TrimAll(Split(raw.GetOr(""), ',')))["" := 0]
    ensures forall p :: p in Split(raw.GetOr(""), ',') && Trim(p) != "" ==> Trim(p) in ParseAllowList(raw)
    ensures |ParseAllowList(raw)| <= CountChar(raw.GetOr(""), ',') + 1
  {
    var pieces := Split(raw.GetOr(""), ',');
    KeepNonEmptySpec(TrimAll(pieces));
    SplitLength(raw.GetOr(""), ',');
    forall p | p in pieces && Trim(p) != "" ensures Trim(p) in ParseAllowList(raw) {
      var i :| 0 <= i < |pieces| && pieces[i] == p;
      assert TrimAll(pieces)[i] == Trim(p);
    }
  }

  /** An unset or empty variable allows nothing to be restricted: the list is empty. */
  lemma AllowListUnsetOrEmpty(raw: Option<string>)
    requires raw == None || raw == Some("")
    ensures ParseAllowList(raw) == []
  {
    assert Split("", ',') == [""];
    assert Trim("") == "";
    assert TrimAll([""]) == [""];
  }

  // ---------------------------------------------------------------------------
  // Reading the environment.

  function Lookup(env: map<string, string>, name: string): Option<string> {
    if name in env then Some(env[name]) else None
  }

  /** `z.enum(["development", "production"]).default("development")`. */
  function ParseNodeEnv(raw: Option<string>): (r: Result<NodeEnv, ConfigError>)
    ensures raw == None ==> r == Success(Development)
    ensures r.Success? <==> raw in {None, Some("development"), Some("production")}
    ensures r == Success(Production) <==> raw == Some("production")
  {
    match raw
    case None => Success(Development)
    case Some(v) =>
      if v == "development" then Success(Development)
      else if v == "production" then Success(Production)
      else Failure(InvalidNodeEnv(v))
  }

  /** `z.string().default(d)`: the default replaces only an unset variable, never an empty one. */
  function WithDefault(env: map<string, string>, name: string, d: string): (r: string)
    ensures name in env ==> r == env[name]
    ensures name !in env ==> r == d
  {
    Lookup(env, name).GetOr(d)
  }

  /** The parsed environment; parsing fails when PROJECT_ID is unset or NODE_ENV is not a known mode. */
  function ParseEnvs(env: map<string, string>): (r: Result<Envs, ConfigError>)
    ensures r.Success? <==> "PROJECT_ID" in env && ParseNodeEnv(Lookup(env, "NODE_ENV")).Success?
    ensures r.Success? ==> r.value.projectId == env["PROJECT_ID"]
    ensures r.Success? ==> r.value.nodeEnv == ParseNodeEnv(Lookup(env, "NODE_ENV")).value
    ensures r.Success? && "NODE_ENV" !in env ==> r.value.nodeEnv == Development
    ensures r.Success? ==> (r.value.nodeEnv == Production <==> Lookup(env, "NODE_ENV") == Some("production"))
    ensures r.Success? ==> r.value.mcpServerUrl == WithDefault(env, "MCP_SERVER_URL", DEFAULT_MCP_SERVER_URL)
    ensures r.Success? ==> r.value.zeusBaseUrl == WithDefault(env, "ZEUS_BASE_URL", DEFAULT_ZEUS_BASE_URL)
    ensures r.Success? ==> r.value.actionkitBaseUrl == WithDefault(env, "ACTIONKIT_BASE_URL", DEFAULT_ACTIONKIT_BASE_URL)
    ensures r.Success? ==> r.value.connectSdkCdnUrl == WithDefault(env, "CONNECT_SDK_CDN_URL", DEFAULT_CONNECT_SDK_CDN_URL)
    ensures r.Success? ==> r.value.port == WithDefault(env, "PORT", DEFAULT_PORT)
    ensures r.Success? ==> r.value.signingKey == Lookup(env, "SIGNING_KEY")
    ensures r.Success? ==> r.value.signingKeyPath == Lookup(env, "SIGNING_KEY_PATH")
    ensures r.Success? ==> r.value.proxyBaseUrl == WithDefault(env, "PROXY_BASE_URL", DEFAULT_PROXY_BASE_URL)
    ensures r.Success? ==> r.value.limitToIntegrations == ParseAllowList(Lookup(env, "LIMIT_TO_INTEGRATIONS"))
    ensures r.Success? ==> r.value.limitToTools == ParseAllowList(Lookup(env, "LIMIT_TO_TOOLS"))
  {
    if "PROJECT_ID" !in env then Failure(MissingProjectId)
    else
      match ParseNodeEnv(Lookup(env, "NODE_ENV"))
      case Failure(e) => Failure(e)
      case Success(mode) =>
        Success(Envs(
          mcpServerUrl := WithDefault(env, "MCP_SERVER_URL", DEFAULT_MCP_SERVER_URL),
          projectId := env["PROJECT_ID"],
          signingKey := Lookup(env, "SIGNING_KEY"),
          signingKeyPath := Lookup(env, "SIGNING_KEY_PATH"),
          port := WithDefault(env, "PORT", DEFAULT_PORT),
          zeusBaseUrl := WithDefault(env, "ZEUS_BASE_URL", DEFAULT_ZEUS_BASE_URL),
          proxyBaseUrl := WithDefault(env, "PROXY_BASE_URL", DEFAULT_PROXY_BASE_URL),
          connectSdkCdnUrl := WithDefault(env, "CONNECT_SDK_CDN_URL", DEFAULT_CONNECT_SDK_CDN_URL),
          actionkitBaseUrl := WithDefault(env, "ACTIONKIT_BASE_URL", DEFAULT_ACTIONKIT_BASE_URL),
          nodeEnv := mode,
          limitToIntegrations := ParseAllowList(Lookup(env, "LIMIT_TO_INTEGRATIONS")),
          limitToTools := ParseAllowList(Lookup(env, "LIMIT_TO_TOOLS"))))
  }
}
