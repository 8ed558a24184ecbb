# edge-paragon-mcp: a verified model of the request and credential core

This project models the decision and request-building logic of edge-paragon-mcp. That server exposes Paragon integrations as tools of an MCP (Model Context Protocol) server and forwards tool calls to the Paragon ActionKit, proxy and Zeus services on behalf of a signed-in user. It does not model the network, the JWT library or the MCP transport. The model covers the code that decides what is sent and what an answer means:

- **Config** (`src/config/config.ts`): the environment settings with their defaults, the required `PROJECT_ID`, the `NODE_ENV` mode, and the comma-separated allow-lists `LIMIT_TO_INTEGRATIONS` and `LIMIT_TO_TOOLS`.
- **Credentials** (`src/utils/util.ts`):
  - where the signing key comes from, and how its escaped newlines are restored;
  - the claims `signJwt` signs;
  - the two tokens and the URL of a setup link.
- **ToolRegistry** (`src/utils/util.ts`): `getTools`, which flattens the ActionKit registry into a tool list. It is written as the nested loops of the source and proved equal to a specification function.
- **ResponseErrors** (`src/utils/util.ts`): `handleResponseErrors`. It chooses a message from an error response and classifies it.
- **ActionKit** (`src/utils/actionkit.ts`):
  - the OpenAPI action request: the path template fill, query selection, forwarding header and body rule;
  - the requests of `getActions`, `performAction` and `getAllIntegrations`, and how each of them reads its response.
- **ProxyApi** (`src/utils/proxy-api.ts`):
  - the `CALL_API_REQUEST` tool description;
  - the proxied request. Its query record is built by a loop, as the source's `reduce` does.
- **Middleware** (`src/proxy.ts`): the bearer and development-mode gate in front of `/api/mcp`.
- **Setup** (`src/app/api/setup/route.ts`): the setup page route. It is a chain of checks in which every failure gives the same 400 answer. On success it shows a page that embeds three claims of the stored token.

Supporting modules model the JavaScript runtime behaviour the core relies on:

- **Text**: `includes`, `split`, `join`, `trim`, ASCII case mapping and decimal numbers.
- **JsObject**: insertion-ordered objects, property assignment and object spread.
- **Json**: JSON values, `JSON.stringify`, `String(v)` and truthiness.
- **FormEncoding**: the `URLSearchParams` serializer of the WHATWG URL Standard, section 5.2 (application/x-www-form-urlencoded serializing).
- **Http**: request descriptions and responses.
- **Seqs**: subsequences.
- **Wrappers**: `Option` and `Result`.

Everything the core cannot compute becomes a parameter:

- the access-token store and the readable files are maps;
- `JSON.parse` is the function `parse`;
- signing, signature checking and decoding are the functions `sign`, `verify` and `decode`;
- the clock is a millisecond timestamp;
- the id the token store picks is given.

Some behaviour of the code is easy to misread:

- A template placeholder with no parameter becomes the text `undefined`, because the replacement callback returns `undefined` and `replace` converts it with `String` (src/utils/actionkit.ts:38-39).
- The proxy tool's schema asks the agent not to send Authorization headers (src/utils/proxy-api.ts:44). Even so, the spread at src/utils/proxy-api.ts:85 lets a caller's `Authorization` replace the default one in the header object.
- The gate's denial carries `status: 401` in its body but is sent as HTTP 200. See Findings.
- The link token of `generateSetupLink` is signed without `userId`, so it has no `sub` claim (src/utils/util.ts:89-96).

## Model

| member | source | states |
|---|---|---|
| Config.TrimAll | src/config/config.ts:25 | each allow-list piece is trimmed in place: same length, `r[i] == Trim(parts[i])` |
| Text.Trim | src/config/config.ts:25 | the result is a slice of the input with no JS whitespace at either end, and only whitespace was removed |
| Text.TrimAvoids | src/config/config.ts:25 | trimming never introduces a character that was not in the input |
| Text.SplitLength | src/config/config.ts:24 | `split(",")` yields one more piece than there are commas |
| Text.SplitPartsAvoidSeparator | src/config/config.ts:24 | no piece of `split` contains the separator |
| Text.JoinSplit | src/config/config.ts:24 | joining the pieces of `split` with the separator gives back the string |
| Text.SplitJoin | src/config/config.ts:24 | splitting a join of separator-free parts gives back the parts |
| Config.KeepNonEmptyCounts | src/config/config.ts:26 | the kept pieces are the given ones with every empty piece removed and every other kept as often as it occurs |
| Config.KeepNonEmptySpec | src/config/config.ts:26 | `filter(Boolean)` keeps exactly the non-empty pieces, each as often as it occurs (same multiset without ""), in their order |
| Config.AllowListEntriesClean | src/config/config.ts:19-36 | every allow-list entry is non-empty, has no leading or trailing whitespace and contains no comma |
| Config.AllowListOrder | src/config/config.ts:24-26 | entries keep the input order; the entries are the trimmed pieces with every empty one removed and every other kept as often as it occurs; at most commas + 1 entries |
| Config.AllowListUnsetOrEmpty | src/config/config.ts:19-27 | an unset or empty variable gives the empty list |
| Config.ParseNodeEnv | src/config/config.ts:15 | unset means development; only "development" and "production" are accepted; production iff "production" |
| Config.WithDefault | src/config/config.ts:4-14 | the default replaces only an unset variable, never an empty one |
| Config.ParseEnvs | src/config/config.ts:3-37 | parsing fails iff PROJECT_ID is unset or NODE_ENV is not a mode; otherwise the mode is the parsed NODE_ENV (production iff "production"), each URL and PORT is its variable or its default, the two signing-key fields are the variables as given, and the allow-lists are the parsed values |
| Credentials.GetSigningKey | src/utils/util.ts:9-26 | a set key path wins: its file's text unescaped, or KeyFileUnreadable without falling back to SIGNING_KEY; neither set gives NoSigningKey; else SIGNING_KEY unescaped |
| Credentials.UnescapedHasNoEscapes | src/utils/util.ts:14 | after `replaceAll("\\n", "\n")` no backslash-n pair remains, and each replacement shortens the text by one |
| Credentials.UnescapeIdentity | src/utils/util.ts:25 | a key without backslash-n pairs is used unchanged |
| Credentials.UnescapeIdempotent | src/utils/util.ts:25 | unescaping twice equals unescaping once |
| Credentials.SigningKeyUnescaped | src/utils/util.ts:12-25 | whichever source it comes from, the returned key has no backslash-n pair |
| Credentials.KeyPathShadowsKey | src/utils/util.ts:10-19 | with SIGNING_KEY_PATH set, the result does not depend on SIGNING_KEY |
| Credentials.OptionalsSpec | src/utils/util.ts:41-47 | a conditional spread holds a listed field iff its input is truthy, with the input's value, and no unlisted name |
| Credentials.OptionalsDistinct | src/utils/util.ts:41-47 | the spread payload never repeats a property name |
| Credentials.PayloadFields | src/utils/util.ts:41-47 | the `payload` claim holds each of the five fields iff its input is truthy, with that value, nothing else, each once |
| Credentials.IssuedAt | src/utils/util.ts:36 | `iat` is the millisecond clock floored to seconds: `iat*1000 <= now < iat*1000 + 1000` |
| Credentials.SignJwtCall | src/utils/util.ts:28-57 | signing fails exactly when the key fails, with its error; otherwise the key, RS256, `sub == userId`, `exp == iat + 604800` |
| Credentials.SignJwt | src/utils/util.ts:39-56 | the token is what `sign` returns for exactly that call, and exists iff a key exists |
| Credentials.GenerateSetupLink | src/utils/util.ts:84-101 | a link exists iff a signing key exists; its URL is `MCP_SERVER_URL + "/setup?token=" + id` |
| Credentials.SetupLinkClaims | src/utils/util.ts:89-96 | the login token names the user with an empty payload; the link token has no `sub` and carries integration name, project id and login token, each when truthy |
| ToolRegistry.GetTools | src/utils/util.ts:63-82 | the nested loops return exactly the specification `RegistryTools`: a null registry or a null parameter schema throws, else the flattened list |
| ToolRegistry.IntegrationTools | src/utils/util.ts:69-79 | one tool per action of an integration, in action order |
| ToolRegistry.FlattenLength | src/utils/util.ts:68-80 | the list has exactly one tool per registry action |
| ToolRegistry.FlattenAt | src/utils/util.ts:68-80 | the j-th action of the i-th integration is the tool after all actions of the integrations before it, in key then action order |
| ToolRegistry.FlattenToolShape | src/utils/util.ts:70-77 | every tool is not an OpenAPI tool, belongs to a listed integration, and its required fields are its schema's `required` |
| ToolRegistry.RegistryToolsErrors | src/utils/util.ts:65-76 | `getTools` throws iff the registry answer is null or some action's parameters are null |
| ResponseErrors.ParseJsonOrNull | src/utils/util.ts:127-134 | empty text gives null; otherwise the parsed value exactly when the text parses to a value other than `null`, and null in every other case |
| ResponseErrors.Classify | src/utils/util.ts:118-124 | UserNotConnected iff the message contains the fixed text, then with that text; otherwise an HTTP error with status and message |
| ResponseErrors.HandleResponseErrors | src/utils/util.ts:108-125 | passes exactly for a 2xx response |
| ResponseErrors.NotConnectedIffMarker | src/utils/util.ts:118-120 | a failed response raises UserNotConnected iff its message mentions "Integration not enabled for user." |
| ResponseErrors.HttpErrorCarriesStatusAndMessage | src/utils/util.ts:122-124 | any other failed response raises an error whose text contains the status and the message |
| ResponseErrors.ShortMessageIsHttpError | src/utils/util.ts:118-124 | a message shorter than the fixed text always gives a plain HTTP error |
| ResponseErrors.MessageFieldFirst | src/utils/util.ts:165 | a parsed object with a string `message` gives that string |
| ResponseErrors.StringifiedValueNext | src/utils/util.ts:166 | any other non-null parsed value gives its stringification |
| ResponseErrors.RawTextLast | src/utils/util.ts:161-168 | an empty body, invalid JSON or `null` gives the raw text |
| ResponseErrors.NotConnectedExample | src/utils/util.ts:118-119 | a 400 with `{"message": "Integration not enabled for user."}` raises UserNotConnected |
| ResponseErrors.RateLimitedExample | src/utils/util.ts:122-124 | a 400 with `{"message": "rate limited"}` raises an HTTP error with status 400 and that message |
| ResponseErrors.CheckedText | src/utils/actionkit.ts:65-66 | `handleResponseErrors` then `text()`: the body text iff 2xx, else exactly the classified error |
| Json.StringifyShape | src/utils/util.ts:145-159 | a stringified value is non-empty and its first character tells object, array or string |
| Json.EscapeRoundTrip | src/utils/util.ts:148 | a JSON string literal reads back as the string it was written from |
| Json.EscapeHasNoBareQuote | src/utils/util.ts:148 | every double quote inside an escaped string is preceded by a backslash |
| Text.ContainsIffOccurs | src/utils/util.ts:118 | `includes` holds iff the text occurs at some index |
| Text.DecimalRoundTrip | src/utils/util.ts:123 | the decimal rendering of the status reads back as the same number |
| ActionKit.PlaceholderLength | src/utils/actionkit.ts:38 | a match of `\{(\w+)\}` at the start spans at least three characters, from `{` to `}` |
| ActionKit.UnparseParse | src/utils/actionkit.ts:37-40 | reading a template into literal characters and placeholders loses no text |
| ActionKit.HolesAreWords | src/utils/actionkit.ts:38 | every placeholder found names a non-empty run of word characters |
| ActionKit.FillRenders | src/utils/actionkit.ts:37-40 | the fill keeps every literal character and replaces every placeholder by `String(params[w])` |
| ActionKit.FillWithoutBraces | src/utils/actionkit.ts:37-40 | a path without `{` is sent unchanged |
| ActionKit.FillLiteralPrefix | src/utils/actionkit.ts:37-40 | text before any `{` is copied and the rest is filled on its own |
| ActionKit.FillPlaceholderHead | src/utils/actionkit.ts:38-39 | a path that starts with `{w}` for a non-empty word `w` renders `String(params[w])` and goes on after the `}` |
| ActionKit.FillOneHole | src/utils/actionkit.ts:37-40 | a path `a{w}b` with brace-free `a` and `b` becomes `a`, then `String(params[w])`, then `b` |
| ActionKit.FillMissingParameter | src/utils/actionkit.ts:39 | a placeholder `{w}` whose parameter is missing becomes the text `undefined`, and the fill goes on after it |
| ActionKit.NonWordBracesKept | src/utils/actionkit.ts:38 | a `{` that does not start `{w}` for a non-empty word `w` is copied and the fill goes on after it, so `{a-b}` or a lone `{` stay |
| ActionKit.PlaceholderShape | src/utils/actionkit.ts:38 | a match at the start is `{`, a non-empty word, `}`, then the rest of the path |
| ActionKit.FillAfterLiteral | src/utils/actionkit.ts:37-40 | brace-free text in front of a path is copied before the fill of the path |
| ActionKit.QueryPairs | src/utils/actionkit.ts:43-48 | one pair per selected descriptor |
| ActionKit.SelectQuerySpec | src/utils/actionkit.ts:44-46 | exactly the `in == "query"` descriptors with a truthy value are kept, each as often as it occurs, in descriptor order |
| ActionKit.QueryPairsSpec | src/utils/actionkit.ts:43-48 | each query pair is a kept descriptor's name with its value passed through `String` |
| ActionKit.OpenApiBody | src/utils/actionkit.ts:60-63 | no body iff the lower-cased method is "get"; otherwise the JSON of the body |
| ActionKit.PerformOpenApiAction | src/utils/actionkit.ts:26-64 | fails with "No request found" iff the action has no OpenAPI request; otherwise the proxy endpoint of the integration, the request's method and the body rule |
| ActionKit.OpenApiHeaders | src/utils/actionkit.ts:52-59 | JSON content, the bearer token, the raw-response flag, and a forwarding URL that is path, `?` (even for an empty query), query |
| ActionKit.GetActionsRequest | src/utils/actionkit.ts:9-16 | GET to the ActionKit actions URL with `limit_to_available=false`, JSON and bearer headers, no body |
| ActionKit.GetActionsResult | src/utils/actionkit.ts:7-24 | an error response gives null; a result is always the parsed body of a 2xx response and never null |
| ActionKit.PerformActionRequest | src/utils/actionkit.ts:76-84 | POST to the ActionKit actions URL with the JSON of `{action, parameters}` |
| ActionKit.ActionBodyFields | src/utils/actionkit.ts:83 | the body names the action and carries the parameters as given |
| ActionKit.PerformActionResult | src/utils/actionkit.ts:85-90 | a value iff 2xx and the body parses, then the parsed body; an error response rethrows its classified error |
| ActionKit.ActionsSwallowErrors | src/utils/actionkit.ts:18-23 | `getActions` gives null exactly where `performAction` throws or reads `null`, and otherwise the same value |
| ActionKit.GetAllIntegrationsRequest | src/utils/actionkit.ts:95-103 | GET to the Zeus integrations URL with JSON and bearer headers, no body |
| ActionKit.GetAllIntegrationsResult | src/utils/actionkit.ts:105-108 | the parsed body when it is JSON, and null exactly when it does not parse |
| ActionKit.IntegrationsIgnoreStatus | src/utils/actionkit.ts:93-109 | the status never matters; an error response with a JSON body is returned, where `getActions` gives null |
| ProxyApi.IntegrationNames | src/utils/proxy-api.ts:6 | the enum is the integrations' `type` values, in order, one per integration |
| ProxyApi.CreateProxyApiTool | src/utils/proxy-api.ts:5-55 | named CALL_API_REQUEST, integration "general", no id, not an OpenAPI tool, required fields integration, url, httpMethod |
| ProxyApi.ProxyToolSchema | src/utils/proxy-api.ts:18-53 | the schema's `required` equals the tool's required fields and the `integration` enum is the integration names |
| ProxyApi.StringifyEntries | src/utils/proxy-api.ts:63-66 | the `reduce` loop builds exactly the record `StringRecord` |
| ProxyApi.StringRecordOfObject | src/utils/proxy-api.ts:63-66 | for an object's entries the record has the same names in order, each value passed through `String` |
| ProxyApi.QueryString | src/utils/proxy-api.ts:61-68 | "" without query parameters, else `?` followed by the serialized record |
| ProxyApi.EmptyQueryObject | src/utils/proxy-api.ts:61-68 | an empty query object gives a lone `?` |
| FormEncoding.EncodeComponent | src/utils/proxy-api.ts:62-67 | an encoded name or value contains only unreserved characters, `+` and `%` |
| FormEncoding.SerializeEmpty | src/utils/proxy-api.ts:62-67 | no pairs serialize to "" |
| FormEncoding.SerializeSplits | src/utils/proxy-api.ts:62-67 | the query splits at `&` into one `name=value` piece per pair, in order, each with one `=` |
| ProxyApi.ProxyBody | src/utils/proxy-api.ts:74-77 | no body iff the upper-cased method is "GET"; otherwise the JSON of the body |
| ProxyApi.ProxyRequest | src/utils/proxy-api.ts:70-86 | sent to the proxy endpoint of `args.integration` with the caller's method and the body rule |
| ProxyApi.PerformProxyApiRequest | src/utils/proxy-api.ts:57-87 | the method builds exactly the request `ProxyRequest` |
| ProxyApi.CallerHeadersWin | src/utils/proxy-api.ts:85 | in the header object passed to `fetch`, every name the caller sets carries the caller's value, Authorization included |
| ProxyApi.DefaultsKept | src/utils/proxy-api.ts:78-86 | in the header object passed to `fetch`, every default name the caller does not set keeps its default value |
| ProxyApi.DefaultHeaderEntries | src/utils/proxy-api.ts:79-84 | the defaults are the bearer token, the forwarding URL `args.url + queryStr`, and the Slack marker iff the integration is "slack" |
| ProxyApi.DefaultHeaderValues | src/utils/proxy-api.ts:78-86 | unless the caller overrides them, the bearer token and forwarding URL are sent, and the Slack marker iff the integration is "slack" |
| ProxyApi.ProxyHeaderNames | src/utils/proxy-api.ts:78-86 | the sent names are distinct and are exactly the default names plus the caller's |
| ProxyApi.ProxyResult | src/utils/proxy-api.ts:89-91 | a 2xx response gives its body text; any other response throws the error classified from its status and message |
| JsObject.GetSpread | src/utils/proxy-api.ts:85 | after `{...o, ...e}` a name in `e` has its last value in `e`, every other name its value in `o` |
| JsObject.SpreadKeys | src/utils/proxy-api.ts:78-86 | spread keeps names distinct and never drops one |
| JsObject.GetSet | src/utils/proxy-api.ts:64 | after `acc[key] = v`, `acc[key]` is `v` and every other property is unchanged |
| JsObject.SetKeys | src/utils/proxy-api.ts:64 | assignment keeps an existing name's position and appends a new one |
| JsObject.SetDistinct | src/utils/proxy-api.ts:64 | assignment keeps names distinct |
| Text.AsciiLower | src/utils/actionkit.ts:61 | lower-casing keeps the length and maps each character |
| Text.AsciiUpper | src/utils/proxy-api.ts:75 | upper-casing keeps the length and maps each character |
| Middleware.ProxyAsWritten | src/proxy.ts:6-14 | as written: lets a request through iff bearer auth or development-mode `user`; every denial is the Unauthorized body with status 200 |
| Middleware.DenialSentAsSuccess | src/proxy.ts:13-16 | the program's denial of `/api/mcp` is sent with status 200 while its body says 401 |
| Middleware.GateAsWritten | src/proxy.ts:6-16 | as written: a request passes iff its path is outside the matcher or it is admitted; every denial has status 200 |
| Middleware.Proxy | src/proxy.ts:10-13 | corrected: lets a request through iff bearer auth or development-mode `user`; otherwise 401 with the Unauthorized body |
| Middleware.Gate | src/proxy.ts:10-16 | corrected: the same requests pass as in the program, and every denial is the Unauthorized body with status 401 |
| Middleware.GatesDifferOnlyInStatus | src/proxy.ts:13-16 | the program's gate and the corrected one admit the same requests and send the same body; only the status differs, 200 against 401 |
| Middleware.DenialStatusAgrees | src/proxy.ts:13 | a denial's status equals the status its body reports |
| Middleware.AdmissionRules | src/proxy.ts:10-13 | for the program and the corrected gate alike: a bearer header admits in any mode; without one, only development mode with `user`; production without one is denied |
| Middleware.EmptyUserInDevelopment | src/proxy.ts:8-11 | for both gates, an empty `user` parameter is enough in development mode |
| Middleware.PrefixIsExact | src/proxy.ts:10 | for both gates, "bearer x" and "Bearer" are refused, "Bearer x" admitted |
| Middleware.MatcherScope | src/proxy.ts:16 | `/api/mcp` and paths below it are gated; `/api/mcpx`, `/api/setup` and `/` are not |
| Setup.SetupGet | src/app/api/setup/route.ts:7-55 | a missing token, an unknown id, an unreadable key, a failed signature check or a non-object payload each give the 400 answer, after exactly the calls before it; an unreadable key stops before `verify` is called |
| Setup.StepsInOrder | src/app/api/setup/route.ts:9-28 | the calls made are always a prefix of look-up, verify and decode, each only after the previous one succeeded, and verify only once the key was read |
| Setup.OneFailureAnswer | src/app/api/setup/route.ts:9-54 | every answer is the identical 400 body or the 200 HTML page; a 200 needs all three checks and an object payload |
| Setup.PageEmbeds | src/app/api/setup/route.ts:37-47 | the page loads the SDK from the configured CDN and embeds the JSON of `tokenInfo` |
| Setup.TokenInfoFields | src/app/api/setup/route.ts:31-35 | `tokenInfo` has only projectId, loginToken and integrationName, each as the inner payload has it |
| Setup.SetupSucceeds | src/app/api/setup/route.ts:30-54 | a verified token whose claims carry a non-null payload gives 200 text/html with that page |
| Setup.SetupLinkOpens | src/app/api/setup/route.ts:25-54 | a stored link token that verifies opens the page with the project id, login token and integration name put in by `generateSetupLink` |
| Setup.LinkTokenInfo | src/app/api/setup/route.ts:31-35 | the page information of a link token is its project id, login token and integration name, each when truthy |
| Setup.InnerFields | src/app/api/setup/route.ts:30 | the decoded inner payload holds each truthy payload field as a JSON string, and nothing else |

## Left out

- `fetch` and the network are not modelled. Each call stops at the request description (`Http.Request`) and resumes with a response record of status and body text. A `fetch` that throws is not modelled.
- The `jsonwebtoken` library is not modelled: RS256 signing, `verify`, `decode` and `decodeJwt` become the parameters `sign`, `verify` and `decode`. The links between them are requirements, not proved facts.
- Setup.SetupLinkOpens: it requires that decoding a signed link token gives back the signed claims. It does not prove that round trip, because it belongs to the signature library.
- `fs.readFileSync` becomes a map from readable paths to their contents. File encodings are not modelled.
- `JSON.parse` becomes the parameter `parse`. JSON numbers are integers here; floating-point numbers are not modelled.
- `safeStringify` is modelled as `Json.Stringify`. The WeakSet cycle guard and the `String(value)` fall-back are left out, because a value produced by `JSON.parse` is a finite tree without cycles.
- Header names are compared case-sensitively in the header object. A caller header `authorization` or `content-type` becomes a second property next to the default `Authorization` or `Content-Type`. The case-insensitive merging of `fetch`'s `Headers`, which joins such values with a comma, is not modelled.
- Property reads see own properties only. This applies to `actionParams.params[p1]` (src/utils/actionkit.ts:39, :46), `openApiRequests[action.name]` (src/utils/actionkit.ts:31) and the `acc[key]` record (src/utils/proxy-api.ts:64). A name inherited from `Object.prototype` reads as undefined here. In the source, such a name gives a function: `{constructor}` fills with the function's text, a `toString` query descriptor is always kept, and a `toString` action throws a TypeError instead of "No request found". The `__proto__` setter, which drops `acc["__proto__"] = ...`, is not modelled either.
- `Object.keys` order is insertion order here. JavaScript's rule that integer-like keys list first is not modelled.
- Text.AsciiLower and Text.AsciiUpper map ASCII letters only. The Unicode case mapping of `toLowerCase`/`toUpperCase` is not modelled; no other character case-maps to the ASCII letters of "get" or "GET", so the difference never changes the body rule.
- ResponseErrors.CheckedText: for a 2xx response whose body cannot be read, it returns "". The source's `response.text()` would throw there.
- ToolRegistry.GetTools: the registry answer is typed as a map from integration name to actions with `name`, `description` and `parameters`. Malformed shapes of other kinds are not modelled.
- ActionKit.PerformOpenApiAction: `actionParams.params` is always an object here. The source would throw on an undefined `params` once a placeholder or query descriptor reads it.
- `openApiRequests` (`./openapi.js`) and the access-token store (`@/services/access-tokens`) are given maps. Their contents and id generation are not part of this model.
- Config.ParseEnvs: the `ENABLE_*` flags (`z.coerce.boolean`) are not modelled, because their meaning is zod's coercion.
- `console` output and `Logger.debug` are not modelled; they only log.
- `src/app/api/mcp/route.ts`, `src/app/page.tsx` and `next.config.ts` are not modelled: MCP transport wiring, a static page and a rewrite table.
- Catalog merging, duplicate tool names and tool-name filtering by the allow-lists do not appear in the modelled files, so they are not modelled.

## Findings

| source | as written | input that shows it | evidently intended | confidence | as-written member | corrected member |
|---|---|---|---|---|---|---|
| src/proxy.ts:13 | the denial is `NextResponse.json({ status: 401, message: "Unauthorized" })` with no status option, and Next.js sends such a response as HTTP 200 | a request to `/api/mcp` with no authorization header in production mode | the denial is sent with HTTP 401, the status its body reports | not executed | Middleware.ProxyAsWritten and Middleware.GateAsWritten, with Middleware.DenialSentAsSuccess | Middleware.Proxy and Middleware.Gate, with Middleware.DenialStatusAgrees |
