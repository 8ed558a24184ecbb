/**
 * The request gate of src/proxy.ts, which runs in front of every `/api/mcp`
 * route: a request passes with a bearer authorization header in any mode, or
 * with a `user` query parameter in development mode; any other request is
 * answered with an Unauthorized body.
 */
module Middleware {
  import opened Wrappers
  import opened Json
  import opened Config

  /** What the gate reads of a request: its path, the `authorization` header and the `user` query parameter. */
  datatype GateRequest = GateRequest(path: string, authorization: Option<string>, user: Option<string>)

  /** A JSON response the gate answers with. */
  datatype GateResponse = GateResponse(status: int, body: Json)

  const UNAUTHORIZED_BODY := JObj([("status", JNum(401)), ("message", JStr("Unauthorized"))])

  /** `currentJwt.startsWith("Bearer ")`: case-sensitive, trailing space included. */
  predicate ProdAuth(authorization: Option<string>) {
    authorization.Some? && "Bearer " <= authorization.value
  }

  /** Any `user` parameter, even an empty one, in development mode. */
  predicate DevAuth(mode: NodeEnv, user: Option<string>) {
    mode == Development && user.Some?
  }

  /** The matcher `/api/mcp/:path*`: the route itself and everything below it. */
  predicate MatchesMcpPath(path: string) {
    path == "/api/mcp" || "/api/mcp/" <= path
  }

  /**
   * `proxy(req)` as written: `None` lets the request through. The denial is
   * `NextResponse.json(body)` without a status, which Next.js sends as 200.
   */
  function ProxyAsWritten(req: GateRequest, mode: NodeEnv): (r: Option<GateResponse>)
    ensures r.None? <==> ProdAuth(req.authorization) || DevAuth(mode, req.user)
    ensures r.Some? ==> r.value == GateResponse(200, UNAUTHORIZED_BODY)
  {
    if !ProdAuth(req.authorization) && !DevAuth(mode, req.user) then Some(GateResponse(200, UNAUTHORIZED_BODY))
    else None
  }

  /** The denial of `ProxyAsWritten` reports 401 in its body but is sent with status 200. */
  lemma DenialSentAsSuccess()
    ensures GateAsWritten(GateRequest("/api/mcp", None, None), Production) == Some(GateResponse(200, UNAUTHORIZED_BODY))
    ensures Member(UNAUTHORIZED_BODY, "status") == Some(JNum(401))
  {
  }

  /** The gate with the status its body announces: a denied request gets HTTP 401. */
  function Proxy(req: GateRequest, mode: NodeEnv): (r: Option<GateResponse>)
    ensures r.None? <==> ProdAuth(req.authorization) || DevAuth(mode, req.user)
    ensures r.Some? ==> r.value.status == 401 && r.value.body == UNAUTHORIZED_BODY
  {
    if !ProdAuth(req.authorization) && !DevAuth(mode, req.user) then Some(GateResponse(401, UNAUTHORIZED_BODY))
    else None
  }

  /**
   * The program as written: `proxy` runs on the paths the matcher selects and
   * every other path is let through untouched; a denial is sent as HTTP 200.
   */
  function GateAsWritten(req: GateRequest, mode: NodeEnv): (r: Option<GateResponse>)
    ensures r.None? <==> !MatchesMcpPath(req.path) || ProdAuth(req.authorization) || DevAuth(mode, req.user)
    ensures r.Some? ==> r.value == GateResponse(200, UNAUTHORIZED_BODY)
  {
    if MatchesMcpPath(req.path) then ProxyAsWritten(req, mode) else None
  }

  /** The corrected gate: the same paths and admission rule, with a denial sent as HTTP 401. */
  function Gate(req: GateRequest, mode: NodeEnv): (r: Option<GateResponse>)
    ensures r.None? <==> !MatchesMcpPath(req.path) || ProdAuth(req.authorization) || DevAuth(mode, req.user)
    ensures r.Some? ==> r.value == GateResponse(401, UNAUTHORIZED_BODY)
  {
    if MatchesMcpPath(req.path) then Proxy(req, mode) else None
  }

  /** The two gates admit the same requests and differ only in the status of a denial. */
  lemma GatesDifferOnlyInStatus(req: GateRequest, mode: NodeEnv)
    ensures GateAsWritten(req, mode).None? <==> Gate(req, mode).None?
    ensures GateAsWritten(req, mode).Some? ==>
      GateAsWritten(req, mode).value.body == Gate(req, mode).value.body
      && GateAsWritten(req, mode).value.status == 200 && Gate(req, mode).value.status == 401
  {
  }

  /** The status of a denial always agrees with the status its body reports. */
  lemma DenialStatusAgrees(req: GateRequest, mode: NodeEnv)
    requires Gate(req, mode).Some?
    ensures Member(Gate(req, mode).value.body, "status") == Some(JNum(Gate(req, mode).value.status))
  {
  }

  /**
   * In the program and in the corrected gate alike, a bearer header admits a
   * request in any mode; without one, only development mode with a `user` does.
   */
  lemma AdmissionRules(req: GateRequest, mode: NodeEnv)
    ensures ProdAuth(req.authorization) ==> Proxy(req, mode).None?
    ensures !ProdAuth(req.authorization) ==> (Proxy(req, mode).None? <==> mode == Development && req.user.Some?)
    ensures mode == Production && !ProdAuth(req.authorization) ==> Proxy(req, mode).Some?
    ensures ProdAuth(req.authorization) ==> ProxyAsWritten(req, mode).None?
    ensures !ProdAuth(req.authorization) ==> (ProxyAsWritten(req, mode).None? <==> mode == Development && req.user.Some?)
    ensures mode == Production && !ProdAuth(req.authorization) ==> ProxyAsWritten(req, mode).Some?
  {
  }

  /** An empty `user` parameter is enough in development mode. */
  lemma EmptyUserInDevelopment(path: string)
    ensures Proxy(GateRequest(path, None, Some("")), Development).None?
    ensures ProxyAsWritten(GateRequest(path, None, Some("")), Development).None?
  {
  }

  /** The prefix check is case-sensitive and needs the space: "bearer x" and "Bearer" are refused. */
  lemma PrefixIsExact(path: string, user: Option<string>)
    ensures Proxy(GateRequest(path, Some("bearer x"), user), Production).Some?
    ensures Proxy(GateRequest(path, Some("Bearer"), user), Production).Some?
    ensures Proxy(GateRequest(path, Some("Bearer x"), user), Production).None?
    ensures ProxyAsWritten(GateRequest(path, Some("bearer x"), user), Production).Some?
    ensures ProxyAsWritten(GateRequest(path, Some("Bearer"), user), Production).Some?
    ensures ProxyAsWritten(GateRequest(path, Some("Bearer x"), user), Production).None?
  {
    assert "bearer x"[0] != "Bearer "[0];
    assert |"Bearer"| < |"Bearer "|;
    assert "Bearer x"[..7] == "Bearer ";
  }

  /** Only the MCP route and the paths below it are gated. */
  lemma MatcherScope()
    ensures MatchesMcpPath("/api/mcp") && MatchesMcpPath("/api/mcp/session")
    ensures !MatchesMcpPath("/api/mcpx") && !MatchesMcpPath("/api/setup") && !MatchesMcpPath("/")
  {
    assert "/api/mcp/session"[..9] == "/api/mcp/";
    assert "/api/mcpx"[8] != "/api/mcp/"[8];
    assert "/api/setup"[5] != "/api/mcp/"[5];
  }
}
