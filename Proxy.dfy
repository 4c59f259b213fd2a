/** The development proxy's `/api` handler: it forwards a browser request to the
  * cluster named in the `x-opensearch-url` header and relays the reply. The
  * cluster call is replaced by its outcome, given as a parameter. */
module Proxy {
  import opened Wrappers
  import opened Types
  import Text
  import OpenSearch

  const TargetHeader := "x-opensearch-url"
  const MissingTarget := "Missing x-opensearch-url header"
  const ProxyErrorFallback := "Proxy error"

  /** A request as the handler sees it: Node gives header names in lower case,
    * `originalUrl` still starts with the mount path, and `body` is what the JSON
    * body parser produced. */
  datatype InboundRequest = InboundRequest(httpMethod: string, originalUrl: string, headers: Headers, body: Json)

  /** A parsed URL: `protocol` with its colon, the authority (credentials, host,
    * port), the path, the query with its `?`, the fragment with its `#`. */
  datatype Url = Url(protocol: string, authority: string, pathname: string, search: string, hash: string)

  /** What the cluster answered: status code and body text. */
  datatype UpstreamResponse = UpstreamResponse(status: nat, text: string)

  /** The call made to the cluster. `insecureAgent` says whether an agent that
    * accepts any certificate is attached. */
  datatype ProxyRequest = ProxyRequest(url: Url, httpMethod: string, headers: Headers, body: Option<Json>, insecureAgent: bool)

  /** How the handler ends: a reply it sends, or the exception of the URL
    * constructor, which is raised outside the handler's `try` and leaves it with no reply. */
  datatype HandlerOutcome = Reply(status: nat, body: string) | Escaped

  /** `req.header(name)` is set and not empty (a truthy string). */
  predicate Present(req: InboundRequest, name: string) {
    name in req.headers && req.headers[name] != ""
  }

  /** Header `name` is copied to `out` exactly when the request carries it, with its value. */
  predicate CopiedIfPresent(req: InboundRequest, out: Headers, name: string) {
    (name in out <==> Present(req, name)) && (name in out ==> out[name] == req.headers[name])
  }

  predicate HasNoBody(httpMethod: string) {
    httpMethod == "GET" || httpMethod == "HEAD"
  }

  /** The handler. `parse` is the URL constructor applied to the header's value
    * (`None`: it throws); `upstream` is how `fetch` and `response.text()` settle. */
  method HandleApi(req: InboundRequest, parse: string -> Option<Url>, upstream: Result<UpstreamResponse, Thrown>)
    returns (outcome: HandlerOutcome, forwarded: Option<ProxyRequest>)
    ensures !Present(req, TargetHeader) ==> outcome == Reply(400, MissingTarget) && forwarded == None
    ensures Present(req, TargetHeader) && parse(req.headers[TargetHeader]).None? ==>
      outcome == Escaped && forwarded == None
    ensures Present(req, TargetHeader) && parse(req.headers[TargetHeader]).Some? ==> forwarded.Some?
    ensures Present(req, TargetHeader) && parse(req.headers[TargetHeader]).Some? ==>
      var f, target := forwarded.value, parse(req.headers[TargetHeader]).value;
      && f.url.protocol == target.protocol && f.url.authority == target.authority
      && f.url.search == target.search && f.url.hash == target.hash
      && f.url.pathname == Text.ReplaceFirst(req.originalUrl, "/api", "")
      && f.httpMethod == req.httpMethod
      && f.headers.Keys <= {"authorization", "content-type"}
      && CopiedIfPresent(req, f.headers, "authorization")
      && CopiedIfPresent(req, f.headers, "content-type")
      && (f.body.None? <==> HasNoBody(req.httpMethod))
      && (f.body.Some? ==> f.body.value == req.body)
      && (f.insecureAgent <==> target.protocol == "https:")
    ensures Present(req, TargetHeader) && parse(req.headers[TargetHeader]).Some? && upstream.Ok? ==>
      outcome == Reply(upstream.value.status, upstream.value.text)
    ensures Present(req, TargetHeader) && parse(req.headers[TargetHeader]).Some? && upstream.Err? ==>
      outcome == Reply(500, upstream.error.MessageOr(ProxyErrorFallback))
  {
    if !Present(req, TargetHeader) {
      return Reply(400, MissingTarget), None;
    }
    var parsed := parse(req.headers[TargetHeader]);
    if parsed.None? {
      return Escaped, None;
    }
    var url := parsed.value.(pathname := Text.ReplaceFirst(req.originalUrl, "/api", ""));
    var headers: Headers := map[];
    if Present(req, "authorization") {
      headers := headers["authorization" := req.headers["authorization"]];
    }
    if Present(req, "content-type") {
      headers := headers["content-type" := req.headers["content-type"]];
    }
    var body := if HasNoBody(req.httpMethod) then None else Some(req.body);
    var insecure := false;
    if url.protocol == "https:" {
      insecure := true;
    }
    forwarded := Some(ProxyRequest(url, req.httpMethod, headers, body, insecure));
    match upstream {
      case Ok(response) => outcome := Reply(response.status, response.text);
      case Err(thrown) => outcome := Reply(500, thrown.MessageOr(ProxyErrorFallback));
    }
  }

  /** The path the browser client asks for is the path the proxy forwards: the
    * client puts `/api` in front, the rewrite takes it off again. */
  lemma ClientPathSurvivesRewrite(c: ConnectionInfo, auth: Headers, path: string, init: RequestInit)
    ensures Text.ReplaceFirst(OpenSearch.Outbound(c, auth, path, init).url, "/api", "") == path
  {
    Text.StripLeading("/api", path);
  }
}
