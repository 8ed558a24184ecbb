/**
 * The ActionKit request builders of src/utils/actionkit.ts. The central one is
 * `performOpenApiAction`: it looks up the OpenAPI request of a tool, fills the
 * `{word}` placeholders of its path, keeps the truthy query parameters, and
 * sends everything to the proxy endpoint with the real target in the
 * `X-Paragon-Proxy-Url` header.
 */
module ActionKit {
  import opened Wrappers
  import opened Text
  import opened Seqs
  import opened JsObject
  import opened Json
  import opened FormEncoding
  import opened Config
  import opened Http
  import opened ResponseErrors
  import opened ToolRegistry

  // ---------------------------------------------------------------------------
  // The path template: `path.replace(/\{(\w+)\}/g, (_, w) => params[w])`.

  /** The regular-expression class `\w`. */
  predicate IsWordChar(c: char) {
    ('a' <= c <= 'z') || ('A' <= c <= 'Z') || ('0' <= c <= '9') || c == '_'
  }

  /** A non-empty run of word characters: what `(\w+)` captures. */
  predicate IsWord(w: string) {
    |w| > 0 && forall m :: 0 <= m < |w| ==> IsWordChar(w[m])
  }

  /** The length of the longest prefix of word characters. */
  function WordRun(s: string): (n: nat)
    ensures n <= |s| && forall k :: 0 <= k < n ==> IsWordChar(s[k])
    ensures n < |s| ==> !IsWordChar(s[n])
    decreases |s|
  {
    if |s| > 0 && IsWordChar(s[0]) then 1 + WordRun(s[1..]) else 0
  }

  /** The length of the placeholder `{w}` at the start of `t`, or 0 when `t` does not start with one. */
  function PlaceholderLength(t: string): (n: nat)
    ensures n == 0 || (3 <= n <= |t| && t[0] == '{' && t[n - 1] == '}')
  {
    if |t| > 0 && t[0] == '{' && 0 < WordRun(t[1..]) && 1 + WordRun(t[1..]) < |t| && t[1 + WordRun(t[1..])] == '}'
    then 2 + WordRun(t[1..])
    else 0
  }

  /** A template read as literal characters and placeholders. */
  datatype Segment = Lit(c: char) | Hole(name: string)

  /** The segment a non-empty template starts with: a placeholder where the pattern matches, else one character. */
  function FirstSegment(t: string): Segment
    requires |t| > 0
  {
    if PlaceholderLength(t) > 0 then Hole(t[1..PlaceholderLength(t) - 1]) else Lit(t[0])
  }

  /** How many characters the first segment spans; the scan resumes after them. */
  function SegmentLength(t: string): (n: nat)
    requires |t| > 0
    ensures 1 <= n <= |t|
  {
    if PlaceholderLength(t) > 0 then PlaceholderLength(t) else 1
  }

  /** The template text of one segment. */
  function SegmentText(g: Segment): string {
    match g
    case Lit(c) => [c]
    case Hole(w) => "{" + w + "}"
  }

  /** The text one segment becomes: itself, or `String(params[w])`. */
  function SegmentValue(g: Segment, params: Object<Json>): string {
    match g
    case Lit(c) => [c]
    case Hole(w) => ToJsString(Get(params, w))
  }

  /** The path with every placeholder replaced, scanning left to right as a global `replace` does. */
  function Fill(t: string, params: Object<Json>): string
    decreases |t|
  {
    if |t| == 0 then "" else SegmentValue(FirstSegment(t), params) + Fill(t[SegmentLength(t)..], params)
  }

  function Parse(t: string): seq<Segment>
    decreases |t|
  {
    if |t| == 0 then [] else [FirstSegment(t)] + Parse(t[SegmentLength(t)..])
  }

  function Unparse(segs: seq<Segment>): string
    decreases |segs|
  {
    if |segs| == 0 then "" else SegmentText(segs[0]) + Unparse(segs[1..])
  }

  function Render(segs: seq<Segment>, params: Object<Json>): string
    decreases |segs|
  {
    if |segs| == 0 then "" else SegmentValue(segs[0], params) + Render(segs[1..], params)
  }

  /** Reading a template into segments loses no text. */
  lemma {:induction false} UnparseParse(t: string)
    ensures Unparse(Parse(t)) == t
    decreases |t|
  {
    if |t| > 0 {
      var k := SegmentLength(t);
      UnparseStep(t);
      UnparseParse(t[k..]);
      assert t == t[..k] + t[k..];
    }
  }

  /** Unparsing a parsed template writes the first segment's text, then the rest. */
  lemma UnparseStep(t: string)
    requires |t| > 0
    ensures Unparse(Parse(t)) == t[..SegmentLength(t)] + Unparse(Parse(t[SegmentLength(t)..]))
  {
    var g, p := FirstSegment(t), Parse(t[SegmentLength(t)..]);
    assert Parse(t) == [g] + p;
    FirstSegmentText(t);
    UnparseCons(g, p);
  }

  /** Unparsing a segment in front of others writes its text first. */
  lemma UnparseCons(g: Segment, segs: seq<Segment>)
    ensures Unparse([g] + segs) == SegmentText(g) + Unparse(segs)
  {
    assert ([g] + segs)[1..] == segs;
  }

  lemma FirstSegmentText(t: string)
    requires |t| > 0
    ensures SegmentText(FirstSegment(t)) == t[..SegmentLength(t)]
  {
    var n := PlaceholderLength(t);
    if n > 0 {
      assert t[..n] == [t[0]] + t[1..n - 1] + [t[n - 1]];
    }
  }

  /** Every placeholder found is a non-empty word. */
  lemma {:induction false} HolesAreWords(t: string)
    ensures forall k :: 0 <= k < |Parse(t)| && Parse(t)[k].Hole? ==>
      Parse(t)[k].name != "" && forall m :: 0 <= m < |Parse(t)[k].name| ==> IsWordChar(Parse(t)[k].name[m])
    decreases |t|
  {
    if |t| > 0 {
      HolesAreWords(t[SegmentLength(t)..]);
      var segs := Parse(t);
      assert segs[1..] == Parse(t[SegmentLength(t)..]);
      forall k | 0 <= k < |segs| && segs[k].Hole?
        ensures segs[k].name != "" && forall m :: 0 <= m < |segs[k].name| ==> IsWordChar(segs[k].name[m])
      {
        if k == 0 {
          var w := segs[0].name;
          assert w == t[1..PlaceholderLength(t) - 1];
          forall m | 0 <= m < |w| ensures IsWordChar(w[m]) {
            assert w[m] == t[1..][m];
          }
        } else {
          assert segs[k] == segs[1..][k - 1];
        }
      }
    }
  }

  /** The fill keeps every literal character and replaces every placeholder by its parameter's string. */
  lemma {:induction false} FillRenders(t: string, params: Object<Json>)
    ensures Fill(t, params) == Render(Parse(t), params)
    decreases |t|
  {
    if |t| > 0 {
      FillRenders(t[SegmentLength(t)..], params);
      var segs := Parse(t);
      assert segs[0] == FirstSegment(t) && segs[1..] == Parse(t[SegmentLength(t)..]);
    }
  }

  /** A template that does not start with `{` starts with a literal character. */
  lemma FillLiteralHead(t: string, params: Object<Json>)
    requires |t| > 0 && t[0] != '{'
    ensures Fill(t, params) == [t[0]] + Fill(t[1..], params)
  {
    assert PlaceholderLength(t) == 0;
    assert SegmentLength(t) == 1;
  }

  /** A path without `{` is sent unchanged. */
  lemma {:induction false} FillWithoutBraces(t: string, params: Object<Json>)
    requires '{' !in t
    ensures Fill(t, params) == t
    decreases |t|
  {
    if |t| > 0 {
      FillLiteralHead(t, params);
      FillWithoutBraces(t[1..], params);
      assert t == [t[0]] + t[1..];
    }
  }

  /** Text before any `{` is copied as it is and the rest is filled on its own. */
  lemma {:induction false} FillLiteralPrefix(a: string, b: string, params: Object<Json>)
    requires '{' !in a
    ensures Fill(a + b, params) == Fill(a, params) + Fill(b, params)
    decreases |a|
  {
    if |a| > 0 {
      var ab := a + b;
      assert ab[0] == a[0] && ab[1..] == a[1..] + b;
      FillLiteralHead(ab, params);
      FillLiteralHead(a, params);
      FillLiteralPrefix(a[1..], b, params);
      calc {
        Fill(ab, params);
        [a[0]] + Fill(a[1..] + b, params);
        [a[0]] + (Fill(a[1..], params) + Fill(b, params));
        ([a[0]] + Fill(a[1..], params)) + Fill(b, params);
        Fill(a, params) + Fill(b, params);
      }
    } else {
      assert a + b == b;
    }
  }

  /** A run of word characters ends at the first character that is not one. */
  lemma {:induction false} WordRunStops(w: string, rest: string)
    requires forall m :: 0 <= m < |w| ==> IsWordChar(w[m])
    requires |rest| > 0 && !IsWordChar(rest[0])
    ensures WordRun(w + rest) == |w|
    decreases |w|
  {
    if |w| > 0 {
      assert (w + rest)[1..] == w[1..] + rest;
      WordRunStops(w[1..], rest);
    } else {
      assert w + rest == rest;
    }
  }

  /** A template that starts with `{w}` for a word `w` renders `String(params[w])` first. */
  lemma FillPlaceholderHead(w: string, b: string, params: Object<Json>)
    requires IsWord(w)
    ensures Fill("{" + w + "}" + b, params) == ToJsString(Get(params, w)) + Fill(b, params)
  {
    var t := "{" + w + "}" + b;
    assert t[1..] == w + ("}" + b);
    WordRunStops(w, "}" + b);
    assert t[1 + |w|] == '}';
    assert PlaceholderLength(t) == |w| + 2;
    assert t[1..|w| + 1] == w;
    assert t[|w| + 2..] == b;
  }

  /** A path with one placeholder between brace-free texts fills to the texts around the parameter's string. */
  lemma FillOneHole(a: string, w: string, b: string, params: Object<Json>)
    requires '{' !in a && '{' !in b
    requires IsWord(w)
    ensures Fill(a + "{" + w + "}" + b, params) == a + ToJsString(Get(params, w)) + b
  {
    var hole := "{" + w + "}" + b;
    HoleRegroups(a, w, b);
    FillAfterLiteral(a, hole, params);
    FillPlaceholderHead(w, b, params);
    FillWithoutBraces(b, params);
    assert a + (ToJsString(Get(params, w)) + b) == a + ToJsString(Get(params, w)) + b;
  }

  /** A brace-free text in front of a template is copied before the template's fill. */
  lemma FillAfterLiteral(a: string, rest: string, params: Object<Json>)
    requires '{' !in a
    ensures Fill(a + rest, params) == a + Fill(rest, params)
  {
    FillLiteralPrefix(a, rest, params);
    FillWithoutBraces(a, params);
  }

  lemma HoleRegroups(a: string, w: string, b: string)
    ensures a + "{" + w + "}" + b == a + ("{" + w + "}" + b)
  {
  }

  /** A placeholder whose parameter is missing becomes the text "undefined". */
  lemma FillMissingParameter(w: string, b: string, params: Object<Json>)
    requires IsWord(w) && Get(params, w).None?
    ensures Fill("{" + w + "}" + b, params) == "undefined" + Fill(b, params)
  {
    FillPlaceholderHead(w, b, params);
  }

  /** A `{` that does not open a placeholder `{w}` of a non-empty word `w` is copied, and the scan goes on after it. */
  lemma NonWordBracesKept(t: string, params: Object<Json>)
    requires |t| > 0 && t[0] == '{'
    requires forall w, b :: IsWord(w) ==> t != "{" + w + "}" + b
    ensures Fill(t, params) == "{" + Fill(t[1..], params)
  {
    if PlaceholderLength(t) > 0 {
      PlaceholderShape(t);
      assert false;
    }
  }

  /** A placeholder match at the start is `{`, a non-empty word, `}`, then the rest. */
  lemma PlaceholderShape(t: string)
    requires PlaceholderLength(t) > 0
    ensures var n := PlaceholderLength(t);
      IsWord(t[1..n - 1]) && t == "{" + t[1..n - 1] + "}" + t[n..]
  {
    var n := PlaceholderLength(t);
    var w := t[1..n - 1];
    forall m | 0 <= m < |w| ensures IsWordChar(w[m]) {
      assert w[m] == t[1..][m];
    }
    assert t == [t[0]] + t[1..n - 1] + [t[n - 1]] + t[n..];
  }

  // ---------------------------------------------------------------------------
  // Query parameters.

  /** One entry of an OpenAPI request's `params`; `location` is the descriptor's `in`. */
  datatype ParamDescriptor = ParamDescriptor(name: string, location: string)

  /** The query descriptors whose value in `params` is truthy, in descriptor order. */
  function SelectQuery(descs: seq<ParamDescriptor>, params: Object<Json>): seq<ParamDescriptor>
    decreases |descs|
  {
    if |descs| == 0 then []
    else if descs[0].location == "query" && Truthy(Get(params, descs[0].name))
    then [descs[0]] + SelectQuery(descs[1..], params)
    else SelectQuery(descs[1..], params)
  }

  /** Each selected descriptor with its value converted by `String(v)`. */
  function QueryPairs(descs: seq<ParamDescriptor>, params: Object<Json>): (r: seq<(string, string)>)
    ensures |r| == |SelectQuery(descs, params)|
  {
    var sel := SelectQuery(descs, params);
    seq(|sel|, i requires 0 <= i < |sel| => (sel[i].name, ToJsString(Get(params, sel[i].name))))
  }

  /**
   * Exactly the query descriptors with a truthy value are kept, each as often
   * as it occurs, in their original order.
   */
  lemma {:induction false} SelectQuerySpec(descs: seq<ParamDescriptor>, params: Object<Json>)
    ensures forall d :: d in SelectQuery(descs, params) <==>
      d in descs && d.location == "query" && Truthy(Get(params, d.name))
    ensures forall d ::
      multiset(SelectQuery(descs, params))[d] == (if d.location == "query" && Truthy(Get(params, d.name)) then multiset(descs)[d] else 0)
    ensures IsSubsequence(SelectQuery(descs, params), descs)
    decreases |descs|
  {
    if |descs| > 0 {
      SelectQuerySpec(descs[1..], params);
      assert descs == [descs[0]] + descs[1..];
      assert multiset(descs) == multiset([descs[0]]) + multiset(descs[1..]);
      if descs[0].location == "query" && Truthy(Get(params, descs[0].name)) {
        SubsequenceKeep(descs[0], SelectQuery(descs[1..], params), descs[1..]);
      } else {
        SubsequenceSkip(descs[0], SelectQuery(descs[1..], params), descs[1..]);
      }
    }
  }

  lemma QueryPairsSpec(descs: seq<ParamDescriptor>, params: Object<Json>)
    ensures forall i :: 0 <= i < |QueryPairs(descs, params)| ==>
      var d := SelectQuery(descs, params)[i];
      && d in descs && d.location == "query" && Truthy(Get(params, d.name))
      && QueryPairs(descs, params)[i] == (d.name, ToJsString(Get(params, d.name)))
  {
    SelectQuerySpec(descs, params);
  }

  // ---------------------------------------------------------------------------
  // performOpenApiAction

  /** One entry of `openApiRequests`; `baseUrl` is `None` when the entry has none. */
  datatype OpenApiRequest = OpenApiRequest(httpMethod: string, path: string, baseUrl: Option<string>,
                                           params: seq<ParamDescriptor>)

  /** `actionParams`: the values for path and query parameters, and the request body. */
  datatype ActionParams = ActionParams(params: Object<Json>, body: Option<Json>)

  datatype ActionError = NoRequestFound(actionName: string) {
    function Description(): string {
      "No request found for action " + actionName
    }
  }

  /** The target path: the base URL (or "") followed by the filled template. */
  function ResolvedPath(request: OpenApiRequest, params: Object<Json>): string {
    (if Present(request.baseUrl) then request.baseUrl.value else "") + Fill(request.path, params)
  }

  function ProxyUrlHeader(request: OpenApiRequest, params: Object<Json>): string {
    ResolvedPath(request, params) + "?" + Serialize(QueryPairs(request.params, params))
  }

  /** The body rule: none for a GET, in any letter case; otherwise the JSON of the body. */
  function OpenApiBody(httpMethod: string, body: Option<Json>): (r: Option<string>)
    ensures AsciiLower(httpMethod) == "get" ==> r.None?
    ensures AsciiLower(httpMethod) != "get" ==> r == StringifyOpt(body)
  {
    if AsciiLower(httpMethod) == "get" then None else StringifyOpt(body)
  }

  /** The request `performOpenApiAction` sends, or the error it throws before sending anything. */
  function PerformOpenApiAction(action: Tool, actionParams: ActionParams, jwt: string, env: Envs,
                                openApiRequests: map<string, OpenApiRequest>): (r: Result<Request, ActionError>)
    ensures r.Failure? <==> action.name !in openApiRequests
    ensures r.Failure? ==> r.error == NoRequestFound(action.name)
    ensures r.Success? ==>
      && r.value.url == ProxyEndpoint(env, action.integrationName)
      && r.value.httpMethod == openApiRequests[action.name].httpMethod
      && r.value.body == OpenApiBody(openApiRequests[action.name].httpMethod, actionParams.body)
  {
    if action.name !in openApiRequests then Failure(NoRequestFound(action.name))
    else
      var request := openApiRequests[action.name];
      Success(Request(
        ProxyEndpoint(env, action.integrationName),
        request.httpMethod,
        [CONTENT_TYPE_JSON,
         BearerAuth(jwt),
         ("X-Paragon-Proxy-Url", ProxyUrlHeader(request, actionParams.params)),
         ("X-Paragon-Use-Raw-Response", "true")],
        OpenApiBody(request.httpMethod, actionParams.body)))
  }

  /**
   * The headers of the OpenAPI request: JSON content, the caller's bearer
   * token, the raw-response flag, and the forwarding URL, which is the
   * resolved path, a `?` that is there even for an empty query, and the query.
   */
  lemma OpenApiHeaders(action: Tool, actionParams: ActionParams, jwt: string, env: Envs,
                       openApiRequests: map<string, OpenApiRequest>)
    requires action.name in openApiRequests
    ensures var request := openApiRequests[action.name];
      var h := PerformOpenApiAction(action, actionParams, jwt, env, openApiRequests).value.headers;
      var path := ResolvedPath(request, actionParams.params);
      && Get(h, "Content-Type") == Some("application/json")
      && Get(h, "Authorization") == Some("Bearer " + jwt)
      && Get(h, "X-Paragon-Use-Raw-Response") == Some("true")
      && Get(h, "X-Paragon-Proxy-Url").Some?
      && var fwd := Get(h, "X-Paragon-Proxy-Url").value;
         && |fwd| > |path| && fwd[..|path|] == path && fwd[|path|] == '?'
         && fwd[|path| + 1..] == Serialize(QueryPairs(request.params, actionParams.params))
  {
    var request := openApiRequests[action.name];
    var h := PerformOpenApiAction(action, actionParams, jwt, env, openApiRequests).value.headers;
    assert DistinctKeys(h);
    GetDistinctAt(h, 0);
    GetDistinctAt(h, 1);
    GetDistinctAt(h, 2);
    GetDistinctAt(h, 3);
  }

  // ---------------------------------------------------------------------------
  // getActions, performAction, getAllIntegrations

  function JsonHeaders(jwt: string): Object<string> {
    [CONTENT_TYPE_JSON, BearerAuth(jwt)]
  }

  function GetActionsRequest(env: Envs, jwt: string): (r: Request)
    ensures r.url == env.actionkitBaseUrl + "/projects/" + env.projectId + "/actions?limit_to_available=false"
    ensures r.httpMethod == "GET" && r.body.None? && r.headers == JsonHeaders(jwt)
  {
    Request(env.actionkitBaseUrl + "/projects/" + env.projectId + "/actions?limit_to_available=false",
            "GET", JsonHeaders(jwt), None)
  }

  /**
   * What `getActions` returns for the registry's response: the parsed body, or
   * `None` (`null`) when the response is an error or its body is not JSON.
   */
  function GetActionsResult(response: Response, parse: string -> Option<Json>): (r: Option<Json>)
    ensures HandleResponseErrors(response, parse).Fail? ==> r.None?
    ensures r.Some? ==> response.Ok() && parse(BodyText(response)) == r && r.value != JNull
  {
    if HandleResponseErrors(response, parse).Fail? then None
    else
      match parse(BodyText(response))
      case Some(JNull) => None
      case v => v
  }

  /** The body of `performAction`: `parameters` is left out when it is `undefined`. */
  function ActionBody(actionName: string, actionParams: Option<Json>): Json {
    JObj([("action", JStr(actionName))]
      + (if actionParams.Some? then [("parameters", actionParams.value)] else []))
  }

  function PerformActionRequest(env: Envs, actionName: string, actionParams: Option<Json>, jwt: string): (r: Request)
    ensures r.httpMethod == "POST" && r.headers == JsonHeaders(jwt)
    ensures r.url == env.actionkitBaseUrl + "/projects/" + env.projectId + "/actions"
    ensures r.body == Some(Stringify(ActionBody(actionName, actionParams)))
  {
    Request(env.actionkitBaseUrl + "/projects/" + env.projectId + "/actions", "POST", JsonHeaders(jwt),
            Some(Stringify(ActionBody(actionName, actionParams))))
  }

  /** The body names the action and carries the parameters as given. */
  lemma ActionBodyFields(actionName: string, actionParams: Option<Json>)
    ensures Member(ActionBody(actionName, actionParams), "action") == Some(JStr(actionName))
    ensures Member(ActionBody(actionName, actionParams), "parameters") == actionParams
  {
    var members := ActionBody(actionName, actionParams).members;
    if actionParams.Some? {
      assert members[1..] == [("parameters", actionParams.value)];
      assert Get(members[1..], "parameters") == actionParams;
      assert Get(members, "parameters") == Get(members[1..], "parameters");
    } else {
      assert members == [("action", JStr(actionName))];
    }
  }

  /** Why a `performAction` call throws: an error response, or a body that is not JSON. */
  datatype CallError = ResponseError(error: ClassifiedError) | InvalidJson

  /** What `performAction` returns for the response, or the error it rethrows. */
  function PerformActionResult(response: Response, parse: string -> Option<Json>): (r: Result<Json, CallError>)
    ensures r.Success? <==> response.Ok() && parse(BodyText(response)).Some?
    ensures r.Success? ==> parse(BodyText(response)) == Some(r.value)
    ensures !response.Ok() ==> r == Failure(ResponseError(HandleResponseErrors(response, parse).error))
  {
    match HandleResponseErrors(response, parse)
    case Fail(e) => Failure(ResponseError(e))
    case Pass =>
      match parse(BodyText(response))
      case None => Failure(InvalidJson)
      case Some(v) => Success(v)
  }

  /**
   * `getActions` and `performAction` read a response alike, except that
   * `getActions` turns every error, and a JSON `null`, into `null`.
   */
  lemma ActionsSwallowErrors(response: Response, parse: string -> Option<Json>)
    ensures GetActionsResult(response, parse).None?
      <==> PerformActionResult(response, parse).Failure? || PerformActionResult(response, parse).value == JNull
    ensures GetActionsResult(response, parse).Some? ==>
      GetActionsResult(response, parse).value == PerformActionResult(response, parse).value
  {
  }

  function GetAllIntegrationsRequest(env: Envs, jwt: string): (r: Request)
    ensures r.url == env.zeusBaseUrl + "/projects/" + env.projectId + "/sdk/integrations"
    ensures r.httpMethod == "GET" && r.body.None? && r.headers == JsonHeaders(jwt)
  {
    Request(env.zeusBaseUrl + "/projects/" + env.projectId + "/sdk/integrations", "GET", JsonHeaders(jwt), None)
  }

  /**
   * What `getAllIntegrations` returns: the parsed body, or `null` when it is
   * not JSON. The status is never checked.
   */
  function GetAllIntegrationsResult(response: Response, parse: string -> Option<Json>): (r: Option<Json>)
    ensures r.Some? <==> parse(BodyText(response)).Some?
    ensures r.Some? ==> parse(BodyText(response)) == Some(r.value)
  {
    parse(BodyText(response))
  }

  /**
   * The status never matters: the same body gives the same result, so an
   * error response with a JSON body is returned as if it were the list, where
   * `getActions` would return `null`.
   */
  lemma IntegrationsIgnoreStatus(response: Response, parse: string -> Option<Json>, status: int)
    ensures GetAllIntegrationsResult(Response(status, response.body), parse) == GetAllIntegrationsResult(response, parse)
    ensures !response.Ok() && parse(BodyText(response)).Some? ==>
      GetAllIntegrationsResult(response, parse).Some? && GetActionsResult(response, parse).None?
  {
  }
}
