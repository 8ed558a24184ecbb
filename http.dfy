/**
 * What the core hands to `fetch` and what it reads back: a request
 * description, and a response reduced to its status and body text.
 */
module Http {
  import opened Wrappers
  import opened JsObject
  import opened Config

  /** The arguments of one `fetch` call; `body` is `None` when no body is sent. */
  datatype Request = Request(url: string, httpMethod: string, headers: Object<string>, body: Option<string>)

  /** A response; `body` is `None` when reading the body text throws. */
  datatype Response = Response(status: int, body: Option<string>) {
    /** `response.ok`: a 2xx status. */
    predicate Ok() {
      200 <= status <= 299
    }
  }

  const CONTENT_TYPE_JSON := ("Content-Type", "application/json")

  function BearerAuth(jwt: string): (string, string) {
    ("Authorization", "Bearer " + jwt)
  }

  /** The proxy endpoint for one integration, shared by both proxy request builders. */
  function ProxyEndpoint(env: Envs, integration: string): string {
    env.proxyBaseUrl + "/projects/" + env.projectId + "/sdk/proxy/" + integration
  }
}
