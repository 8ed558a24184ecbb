/**
 * The generic proxy tool of src/utils/proxy-api.ts: its tool description
 * (`createProxyApiTool`) and the request it sends (`performProxyApiRequest`):
 * a query string built from the stringified query parameters, the target
 * URL in `X-Paragon-Proxy-Url`, a Slack-only marker header, and the caller's
 * headers merged over the defaults.
 */
module ProxyApi {
  import opened Wrappers
  import opened Text
  import opened JsObject
  import opened Json
  import opened FormEncoding
  import opened Config
  import opened Http
  import opened ResponseErrors
  import opened ToolRegistry

  // ---------------------------------------------------------------------------
  // createProxyApiTool

  /** An integration of the project; only its `type` is read here. */
  datatype Integration = Integration(integrationType: string)

  const PROXY_TOOL_NAME := "CALL_API_REQUEST"
  const PROXY_TOOL_DESCRIPTION :=
    "Call an API if no tool is available for an integration that matches the user's request. Always follow the following guidelines:\n"
    + "- Before using this tool, respond with a plan that outlines the requests that you will need to make to fulfill the user's goal.\n"
    + "- If you find that you need to make multiple requests to fulfill the user's goal, you can use this tool multiple times.\n"
    + "- If there are errors, don't give up! Try to fix them by using the response to look at the error and adjust the request body accordingly."
  const REQUIRED_FIELDS := JArr([JStr("integration"), JStr("url"), JStr("httpMethod")])

  /** `integrations.map((i) => i.type)`. */
  function IntegrationNames(integrations: seq<Integration>): (r: seq<Json>)
    ensures |r| == |integrations|
    ensures forall i :: 0 <= i < |integrations| ==> r[i] == JStr(integrations[i].integrationType)
  {
    seq(|integrations|, i requires 0 <= i < |integrations| => JStr(integrations[i].integrationType))
  }

  function IntegrationProperty(integrations: seq<Integration>): Json {
    JObj([("type", JStr("string")),
          ("description", JStr("The name of the integration to use for this request.")),
          ("enum", JArr(IntegrationNames(integrations)))])
  }

  const URL_PROPERTY := JObj([
    ("type", JStr("string")),
    ("description", JStr("Use the full URL when specifying the `url` parameter, including the base URL. It should NEVER be a relative path - always a full URL."))])
  const HTTP_METHOD_PROPERTY := JObj([
    ("type", JStr("string")),
    ("enum", JArr([JStr("GET"), JStr("POST"), JStr("PUT"), JStr("PATCH"), JStr("DELETE")]))])
  const QUERY_PARAMS_PROPERTY := JObj([("type", JStr("object")), ("additionalProperties", JBool(true))])
  const HEADERS_PROPERTY := JObj([
    ("type", JStr("object")),
    ("additionalProperties", JObj([("type", JStr("string"))])),
    ("description", JStr("Do not include any Authorization headers."))])
  const BODY_PROPERTY := JObj([("type", JStr("object")), ("additionalProperties", JBool(true))])

  function SchemaProperties(integrations: seq<Integration>): Json {
    JObj([("integration", IntegrationProperty(integrations)),
          ("url", URL_PROPERTY),
          ("httpMethod", HTTP_METHOD_PROPERTY),
          ("queryParams", QUERY_PARAMS_PROPERTY),
          ("headers", HEADERS_PROPERTY),
          ("body", BODY_PROPERTY)])
  }

  function InputSchema(integrations: seq<Integration>): Json {
    JObj([("type", JStr("object")),
          ("properties", SchemaProperties(integrations)),
          ("required", REQUIRED_FIELDS),
          ("additionalProperties", JBool(false))])
  }

  function CreateProxyApiTool(integrations: seq<Integration>): (t: Tool)
    ensures t.name == PROXY_TOOL_NAME && t.integrationName == "general"
    ensures t.integrationId.None? && !t.isOpenApiTool
    ensures t.requiredFields == Some(REQUIRED_FIELDS)
  {
    Tool(PROXY_TOOL_NAME, PROXY_TOOL_DESCRIPTION, "general", None, Some(REQUIRED_FIELDS), false,
         InputSchema(integrations))
  }

  /**
   * The `integration` argument may name exactly the given integrations, in
   * their order, and the tool's required fields are the schema's `required`.
   */
  lemma ProxyToolSchema(integrations: seq<Integration>)
    ensures var schema := CreateProxyApiTool(integrations).inputSchema;
      && Member(schema, "required") == CreateProxyApiTool(integrations).requiredFields
      && Member(schema, "properties") == Some(SchemaProperties(integrations))
      && Member(SchemaProperties(integrations), "integration") == Some(IntegrationProperty(integrations))
      && Member(IntegrationProperty(integrations), "enum") == Some(JArr(IntegrationNames(integrations)))
  {
    SchemaMembers(integrations);
    IntegrationEnum(integrations);
  }

  lemma SchemaMembers(integrations: seq<Integration>)
    ensures Member(InputSchema(integrations), "required") == Some(REQUIRED_FIELDS)
    ensures Member(InputSchema(integrations), "properties") == Some(SchemaProperties(integrations))
  {
    var props := SchemaProperties(integrations);
    var schema := [("type", JStr("object")), ("properties", props), ("required", REQUIRED_FIELDS),
                   ("additionalProperties", JBool(false))];
    assert InputSchema(integrations) == JObj(schema);
    assert DistinctKeys(schema);
    GetDistinctAt(schema, 1);
    GetDistinctAt(schema, 2);
  }

  lemma IntegrationEnum(integrations: seq<Integration>)
    ensures Member(SchemaProperties(integrations), "integration") == Some(IntegrationProperty(integrations))
    ensures Member(IntegrationProperty(integrations), "enum") == Some(JArr(IntegrationNames(integrations)))
  {
    var members := SchemaProperties(integrations).members;
    assert members[0] == ("integration", IntegrationProperty(integrations));
    EnumMember(integrations);
  }

  lemma EnumMember(integrations: seq<Integration>)
    ensures Member(IntegrationProperty(integrations), "enum") == Some(JArr(IntegrationNames(integrations)))
  {
    var prop := IntegrationProperty(integrations).members;
    assert prop[0].0 == "type" && prop[1].0 == "description" && prop[2].0 == "enum";
    assert Get(prop, "enum") == Get(prop[1..], "enum") == Get(prop[2..], "enum");
  }

  // ---------------------------------------------------------------------------
  // performProxyApiRequest

  /** The tool arguments; `None` stands for an argument the caller left out. */
  datatype ProxyArgs = ProxyArgs(
    integration: string,
    url: string,
    httpMethod: string,
    queryParams: Option<Object<Json>>,
    headers: Option<Object<string>>,
    body: Option<Json>)

  /** The record the `reduce` leaves: each entry assigned in turn, its value passed through `String`. */
  function StringRecord(entries: Object<Json>): Object<string>
    decreases |entries|
  {
    if |entries| == 0 then []
    else
      var last := entries[|entries| - 1];
      Set(StringRecord(entries[..|entries| - 1]), last.0, ValueToString(last.1))
  }

  /** The `reduce` over `Object.entries(args.queryParams)`, assigning into the accumulator `acc`. */
  method StringifyEntries(entries: Object<Json>) returns (acc: Object<string>)
    ensures acc == StringRecord(entries)
  {
    acc := [];
    var i := 0;
    while i < |entries|
      invariant 0 <= i <= |entries|
      invariant acc == StringRecord(entries[..i])
    {
      var (key, value) := entries[i];
      acc := Set(acc, key, ValueToString(value));
      i := i + 1;
      assert entries[..i][..i - 1] == entries[..i - 1];
    }
    assert entries[..i] == entries;
  }

  /**
   * For the entries of an object, whose names are distinct, the record has
   * the same names in the same order, each value stringified.
   */
  lemma {:induction false} StringRecordOfObject(entries: Object<Json>)
    requires DistinctKeys(entries)
    ensures |StringRecord(entries)| == |entries|
    ensures forall i :: 0 <= i < |entries| ==>
      StringRecord(entries)[i] == (entries[i].0, ValueToString(entries[i].1))
    decreases |entries|
  {
    if |entries| > 0 {
      var n := |entries| - 1;
      var init := entries[..n];
      StringRecordOfObject(init);
      assert Keys(StringRecord(init)) == Keys(init);
      assert entries[n].0 !in Keys(init) by {
        forall j | 0 <= j < n ensures Keys(init)[j] != entries[n].0 {
          assert Keys(init)[j] == entries[j].0;
        }
      }
      SetAbsent(StringRecord(init), entries[n].0, ValueToString(entries[n].1));
    }
  }

  /** `queryStr`: empty without query parameters, otherwise `?` and the serialized record. */
  function QueryString(queryParams: Option<Object<Json>>): (q: string)
    ensures queryParams.None? ==> q == ""
    ensures queryParams.Some? ==> |q| >= 1 && q[0] == '?' && q[1..] == Serialize(StringRecord(queryParams.value))
  {
    if queryParams.None? then "" else "?" + Serialize(StringRecord(queryParams.value))
  }

  /** An empty query object still gives a lone `?`. */
  lemma EmptyQueryObject()
    ensures QueryString(Some([])) == "?"
  {
    SerializeEmpty();
  }

  const SLACK_MARKER := ("X-Paragon-Use-Slack-Token-Type", "user")

  /** The headers before the caller's: bearer token, JSON content, forwarding URL, and the Slack marker. */
  function DefaultHeaders(args: ProxyArgs, jwt: string): Object<string> {
    [BearerAuth(jwt), CONTENT_TYPE_JSON, ("X-Paragon-Proxy-Url", args.url + QueryString(args.queryParams))]
    + (if args.integration == "slack" then [SLACK_MARKER] else [])
  }

  /** `{...defaults, ...args.headers}`; spreading `undefined` adds nothing. */
  function ProxyHeaders(args: ProxyArgs, jwt: string): Object<string> {
    Spread(DefaultHeaders(args, jwt), args.headers.GetOr([]))
  }

  /** The body rule: none for a GET, in any letter case; otherwise the JSON of the body. */
  function ProxyBody(httpMethod: string, body: Option<Json>): (r: Option<string>)
    ensures AsciiUpper(httpMethod) == "GET" ==> r.None?
    ensures AsciiUpper(httpMethod) != "GET" ==> r == StringifyOpt(body)
  {
    if AsciiUpper(httpMethod) == "GET" then None else StringifyOpt(body)
  }

  /** The request `performProxyApiRequest` sends. */
  function ProxyRequest(args: ProxyArgs, jwt: string, env: Envs): (r: Request)
    ensures r.url == ProxyEndpoint(env, args.integration) && r.httpMethod == args.httpMethod
    ensures r.body == ProxyBody(args.httpMethod, args.body)
  {
    Request(ProxyEndpoint(env, args.integration), args.httpMethod, ProxyHeaders(args, jwt),
            ProxyBody(args.httpMethod, args.body))
  }

  /** `performProxyApiRequest` up to the `fetch`: the query record is built by the loop. */
  method PerformProxyApiRequest(args: ProxyArgs, jwt: string, env: Envs) returns (req: Request)
    ensures req == ProxyRequest(args, jwt, env)
  {
    var queryStr := "";
    if args.queryParams.Some? {
      var record := StringifyEntries(args.queryParams.value);
      queryStr := "?" + Serialize(record);
    }
    assert queryStr == QueryString(args.queryParams);
    var defaults := [BearerAuth(jwt), CONTENT_TYPE_JSON, ("X-Paragon-Proxy-Url", args.url + queryStr)];
    if args.integration == "slack" {
      defaults := defaults + [SLACK_MARKER];
    }
    assert defaults == DefaultHeaders(args, jwt);
    var headers := Spread(defaults, args.headers.GetOr([]));
    var body := if AsciiUpper(args.httpMethod) == "GET" then None else StringifyOpt(args.body);
    assert body == ProxyBody(args.httpMethod, args.body);
    req := Request(ProxyEndpoint(env, args.integration), args.httpMethod, headers, body);
  }

  /** Every header the caller sets is sent with the caller's value, `Authorization` included. */
  lemma CallerHeadersWin(args: ProxyArgs, jwt: string, k: string)
    requires args.headers.Some? && k in Keys(args.headers.value)
    ensures Get(ProxyHeaders(args, jwt), k) == GetLast(args.headers.value, k)
  {
    GetSpread(DefaultHeaders(args, jwt), args.headers.value, k);
  }

  /** Every header the caller does not set keeps its default, and no other header appears. */
  lemma DefaultsKept(args: ProxyArgs, jwt: string, k: string)
    requires args.headers.None? || k !in Keys(args.headers.value)
    ensures Get(ProxyHeaders(args, jwt), k) == Get(DefaultHeaders(args, jwt), k)
  {
    GetSpread(DefaultHeaders(args, jwt), args.headers.GetOr([]), k);
  }

  /**
   * Unless the caller overrides them, the bearer token and the forwarding URL
   * (`args.url` followed by the query string) are sent, and the Slack marker
   * is sent exactly when the integration is `slack`.
   */
  lemma DefaultHeaderValues(args: ProxyArgs, jwt: string)
    ensures var caller := Keys(args.headers.GetOr([]));
      var h := ProxyHeaders(args, jwt);
      && ("Authorization" !in caller ==> Get(h, "Authorization") == Some("Bearer " + jwt))
      && ("X-Paragon-Proxy-Url" !in caller ==>
            Get(h, "X-Paragon-Proxy-Url") == Some(args.url + QueryString(args.queryParams)))
      && (SLACK_MARKER.0 !in caller ==>
            (Get(h, SLACK_MARKER.0) == Some("user") <==> args.integration == "slack"))
  {
    var caller := Keys(args.headers.GetOr([]));
    if "Authorization" !in caller {
      DefaultsKept(args, jwt, "Authorization");
    }
    if "X-Paragon-Proxy-Url" !in caller {
      DefaultsKept(args, jwt, "X-Paragon-Proxy-Url");
    }
    if SLACK_MARKER.0 !in caller {
      DefaultsKept(args, jwt, SLACK_MARKER.0);
    }
    DefaultHeaderEntries(args, jwt);
  }

  /** The value of each default header; the Slack marker is there only for `slack`. */
  lemma DefaultHeaderEntries(args: ProxyArgs, jwt: string)
    ensures Get(DefaultHeaders(args, jwt), "Authorization") == Some("Bearer " + jwt)
    ensures Get(DefaultHeaders(args, jwt), "X-Paragon-Proxy-Url") == Some(args.url + QueryString(args.queryParams))
    ensures Get(DefaultHeaders(args, jwt), SLACK_MARKER.0) == Some("user") <==> args.integration == "slack"
  {
    var d := DefaultHeaders(args, jwt);
    assert |"Authorization"| == 13 && |"Content-Type"| == 12 && |"X-Paragon-Proxy-Url"| == 19;
    assert |SLACK_MARKER.0| == 30;
    assert Get(d, "X-Paragon-Proxy-Url") == Get(d[1..], "X-Paragon-Proxy-Url") == Get(d[2..], "X-Paragon-Proxy-Url");
    assert Get(d, SLACK_MARKER.0) == Get(d[1..], SLACK_MARKER.0) == Get(d[2..], SLACK_MARKER.0) == Get(d[3..], SLACK_MARKER.0);
  }

  /** The caller's headers never remove a default header name. */
  lemma ProxyHeaderNames(args: ProxyArgs, jwt: string)
    ensures DistinctKeys(ProxyHeaders(args, jwt))
    ensures forall k :: k in Keys(ProxyHeaders(args, jwt)) <==>
      k in Keys(DefaultHeaders(args, jwt)) || k in Keys(args.headers.GetOr([]))
  {
    assert DistinctKeys(DefaultHeaders(args, jwt));
    SpreadKeys(DefaultHeaders(args, jwt), args.headers.GetOr([]));
  }

  /** What `performProxyApiRequest` returns for the proxy's response. */
  function ProxyResult(response: Response, parse: string -> Option<Json>): (r: Result<string, ClassifiedError>)
    ensures r.Success? <==> response.Ok()
    ensures r.Success? ==> r.value == BodyText(response)
    ensures r.Failure? ==> r.error == Classify(response.status, ResponseMessage(response, parse))
  {
    CheckedText(response, parse)
  }
}
