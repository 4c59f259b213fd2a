/** The browser-side client: every call goes through the same-origin proxy under
  * `/api`, carrying the cluster URL and the credentials in headers. Each network
  * call is replaced by its outcome, given as a parameter. */
module OpenSearch {
  import opened Wrappers
  import opened Types
  import Text
  import Base64

  /** The message of the exception `btoa` throws for a character above U+00FF
    * (its exact wording is the browser's). */
  const BtoaRangeError := "The string to be encoded contains characters outside of the Latin1 range."

  /** The API-key branch applies: the key is chosen and not empty. */
  predicate UsesApiKey(c: ConnectionInfo) {
    c.authType == ApiKey && c.apiKey != ""
  }

  /** The Basic branch applies: no usable API key, and a username or a password. */
  predicate UsesBasic(c: ConnectionInfo) {
    !UsesApiKey(c) && (c.username != "" || c.password != "")
  }

  function Credentials(c: ConnectionInfo): string {
    c.username + ":" + c.password
  }

  /** `toAuthHeaders`: at most one `Authorization` header. An `Err` is the
    * exception `btoa` throws, which rejects the request that asked for the headers. */
  function ToAuthHeaders(c: ConnectionInfo): (r: Result<Headers, Thrown>)
    ensures r.Ok? ==> r.value.Keys <= {"Authorization"}
    ensures UsesApiKey(c) ==> r == Ok(map["Authorization" := "ApiKey " + c.apiKey])
    ensures UsesBasic(c) ==>
      (r.Err? <==> exists i :: 0 <= i < |Credentials(c)| && Credentials(c)[i] as int > 0xFF)
    ensures UsesBasic(c) && r.Err? ==> r.error == ErrorValue(BtoaRangeError)
    ensures UsesBasic(c) && r.Ok? ==>
      "Authorization" in r.value && |r.value["Authorization"]| >= 6 &&
      r.value["Authorization"][..6] == "Basic " &&
      Base64.Btoa(Credentials(c)) == Some(r.value["Authorization"][6..]) &&
      Base64.Atob(r.value["Authorization"][6..]) == Some(Credentials(c))
    ensures !UsesApiKey(c) && !UsesBasic(c) ==> r == Ok(map[])
  {
    if UsesApiKey(c) then Ok(map["Authorization" := "ApiKey " + c.apiKey])
    else if c.username != "" || c.password != "" then
      match Base64.Btoa(Credentials(c))
      case None => Err(ErrorValue(BtoaRangeError))
      case Some(token) =>
        Base64.AtobBtoa(Credentials(c));
        var value := "Basic " + token;
        assert value[6..] == token;
        Ok(map["Authorization" := value])
    else Ok(map[])
  }

  /** Username `a` and password `b` give `Basic YTpi`, the encoding of `a:b`. */
  lemma BasicExample()
    ensures ToAuthHeaders(ConnectionInfo("http://localhost:9200", Basic, "a", "b", "")) ==
      Ok(map["Authorization" := "Basic YTpi"])
  {
    Base64.BtoaExample();
    assert Credentials(ConnectionInfo("http://localhost:9200", Basic, "a", "b", "")) == "a:b";
    assert "Basic " + "YTpi" == "Basic YTpi";
  }

  /** The headers of every request: the fixed content type and the cluster URL,
    * overridden by the authorization header, overridden by the caller's headers. */
  function RequestHeaders(url: string, auth: Headers, extra: Headers): (h: Headers)
    ensures h.Keys == {"Content-Type", "x-opensearch-url"} + auth.Keys + extra.Keys
    ensures forall k :: k in extra ==> h[k] == extra[k]
    ensures forall k :: k in auth && k !in extra ==> h[k] == auth[k]
    ensures "Content-Type" !in auth && "Content-Type" !in extra ==> h["Content-Type"] == "application/json"
    ensures "x-opensearch-url" !in auth && "x-opensearch-url" !in extra ==> h["x-opensearch-url"] == url
  {
    map["Content-Type" := "application/json", "x-opensearch-url" := url] + auth + extra
  }

  const FailurePrefix := "OpenSearch request failed ("

  /** The message of the error a non-2xx response is turned into, once its body has been read as `body`. */
  function FailureMessage(resp: Response, body: string): string {
    FailurePrefix + Text.NatToDecimal(resp.status) + "): " + (if body != "" then body else resp.statusText)
  }

  /** The message can be taken apart again: the prefix, the status in decimal
    * (it reads back as the status), `): `, then the body, or the status text when the body is empty. */
  lemma FailureMessageParts(resp: Response, body: string)
    ensures var m, d := FailureMessage(resp, body), Text.NatToDecimal(resp.status);
      var k := |FailurePrefix| + |d|;
      |m| >= k + 3 && m[..|FailurePrefix|] == FailurePrefix &&
      (forall i :: |FailurePrefix| <= i < k ==> Text.IsDigit(m[i])) &&
      Text.DecimalValue(m[|FailurePrefix|..k]) == resp.status &&
      m[k..k + 3] == "): " &&
      m[k + 3..] == (if body != "" then body else resp.statusText)
  {
    var m, d := FailureMessage(resp, body), Text.NatToDecimal(resp.status);
    var k := |FailurePrefix| + |d|;
    assert m[|FailurePrefix|..k] == d;
    Text.DecimalRoundTrip(resp.status);
  }

  /** What the request helper settles with, given what `fetch` settled with. */
  function RequestOutcome(c: ConnectionInfo, fetched: Result<Response, Thrown>): (r: Result<Response, Thrown>)
    ensures r.Ok? ==> fetched.Ok? && fetched.value.Ok() && r.value == fetched.value
    ensures ToAuthHeaders(c).Err? ==> r == Err(ToAuthHeaders(c).error)
    ensures ToAuthHeaders(c).Ok? && fetched.Err? ==> r == fetched
    ensures ToAuthHeaders(c).Ok? && fetched.Ok? && fetched.value.Ok() ==> r == Ok(fetched.value)
    ensures ToAuthHeaders(c).Ok? && fetched.Ok? && !fetched.value.Ok() && fetched.value.text.Err? ==>
      r == Err(fetched.value.text.error)
    ensures ToAuthHeaders(c).Ok? && fetched.Ok? && !fetched.value.Ok() && fetched.value.text.Ok? ==>
      r == Err(ErrorValue(FailureMessage(fetched.value, fetched.value.text.value)))
  {
    match ToAuthHeaders(c)
    case Err(t) => Err(t)
    case Ok(_) =>
      match fetched
      case Err(t) => Err(t)
      case Ok(resp) =>
        if resp.Ok() then Ok(resp)
        else match resp.text
          case Err(t) => Err(t)
          case Ok(body) => Err(ErrorValue(FailureMessage(resp, body)))
  }

  /** The request helper followed by `response.json()`. */
  function JsonOutcome<P>(c: ConnectionInfo, ex: Exchange<P>): (r: Result<P, Thrown>)
    ensures RequestOutcome(c, ex.fetched).Ok? ==> r == ex.decoded
    ensures RequestOutcome(c, ex.fetched).Err? ==> r == Err(RequestOutcome(c, ex.fetched).error)
  {
    match RequestOutcome(c, ex.fetched)
    case Err(t) => Err(t)
    case Ok(_) => ex.decoded
  }

  /** The request that leaves the browser for `path`, once the credentials are encoded. */
  function Outbound(c: ConnectionInfo, auth: Headers, path: string, init: RequestInit): OutboundRequest {
    OutboundRequest("/api" + path, init.httpMethod.GetOr("GET"), RequestHeaders(c.url, auth, init.headers), init.body)
  }

  /** The requests `fetch` is called with when `path` is asked for: one, or none
    * when `btoa` throws before the call. */
  function Issued(c: ConnectionInfo, path: string, init: RequestInit): (r: seq<OutboundRequest>)
    ensures ToAuthHeaders(c).Err? ==> r == []
    ensures ToAuthHeaders(c).Ok? ==> |r| == 1 && r[0].url == "/api" + path && r[0].body == init.body
  {
    match ToAuthHeaders(c)
    case Err(_) => []
    case Ok(auth) => [Outbound(c, auth, path, init)]
  }

  /** `request(connection, path, init)`: builds the headers, calls `fetch` (whose
    * outcome is `fetched`), and turns a non-2xx response into an error. `sent` is
    * what `fetch` was called with. */
  method Request(c: ConnectionInfo, path: string, init: RequestInit, fetched: Result<Response, Thrown>)
    returns (sent: seq<OutboundRequest>, r: Result<Response, Thrown>)
    ensures sent == Issued(c, path, init)
    ensures r == RequestOutcome(c, fetched)
  {
    var auth := ToAuthHeaders(c);
    if auth.Err? {
      return [], Err(auth.error);
    }
    var headers := RequestHeaders(c.url, auth.value, init.headers);
    sent := [OutboundRequest("/api" + path, init.httpMethod.GetOr("GET"), headers, init.body)];
    if fetched.Err? {
      return sent, fetched;
    }
    var response := fetched.value;
    if !response.Ok() {
      if response.text.Err? {
        return sent, Err(response.text.error);
      }
      return sent, Err(ErrorValue(FailureMessage(response, response.text.value)));
    }
    r := Ok(response);
  }

  const NoInit := RequestInit(None, map[], None)

  // ---- fetchIndices ----

  /** The `state` of one index in the cluster state; `None` is null or absent. */
  datatype IndexMetadata = IndexMetadata(state: Option<string>)

  /** `metadata.indices` of the cluster state, in the order `Object.keys` lists its names. */
  datatype ClusterState = ClusterState(indices: seq<(string, IndexMetadata)>)

  /** One record per index name, with the fields the cluster state does not carry defaulted. */
  function IndicesFromClusterState(cs: ClusterState): (r: seq<IndexInfo>)
    ensures |r| == |cs.indices|
    ensures forall i :: 0 <= i < |r| ==>
      r[i] == IndexInfo(cs.indices[i].0, 0, "unknown", cs.indices[i].1.state.GetOr("open"))
    decreases |cs.indices|
  {
    if |cs.indices| == 0 then []
    else
      var (name, meta) := cs.indices[0];
      [IndexInfo(name, 0, "unknown", meta.state.GetOr("open"))] + IndicesFromClusterState(ClusterState(cs.indices[1..]))
  }

  /** What `fetchIndices` settles with. */
  function IndicesOutcome(c: ConnectionInfo, ex: Exchange<ClusterState>): Result<seq<IndexInfo>, Thrown> {
    match JsonOutcome(c, ex)
    case Err(t) => Err(t)
    case Ok(cs) => Ok(IndicesFromClusterState(cs))
  }

  /** `fetchIndices`: a GET of `/_cluster/state` through the proxy. */
  method FetchIndices(c: ConnectionInfo, ex: Exchange<ClusterState>)
    returns (sent: seq<OutboundRequest>, r: Result<seq<IndexInfo>, Thrown>)
    ensures sent == Issued(c, "/_cluster/state", NoInit)
    ensures r == IndicesOutcome(c, ex)
    ensures r.Ok? ==> ex.decoded.Ok? && |r.value| == |ex.decoded.value.indices|
  {
    var response;
    sent, response := Request(c, "/_cluster/state", NoInit, ex.fetched);
    if response.Err? {
      return sent, Err(response.error);
    }
    if ex.decoded.Err? {
      return sent, Err(ex.decoded.error);
    }
    r := Ok(IndicesFromClusterState(ex.decoded.value));
  }

  // ---- data views ----

  /** `createDataViewsForIndices`: one data view per index, in order, named after it. */
  function CreateDataViewsForIndices(indices: seq<IndexInfo>): (r: seq<DataView>)
    ensures |r| == |indices|
    ensures forall i :: 0 <= i < |r| ==> r[i] == DataView(indices[i].name, indices[i].name, indices[i].name)
    decreases |indices|
  {
    if |indices| == 0 then []
    else
      var name := indices[0].name;
      [DataView(name, name, name)] + CreateDataViewsForIndices(indices[1..])
  }

  /** The derivation looks at nothing but the names: two index lists with the same
    * names in the same order give the same data views. */
  lemma {:induction false} DataViewsDependOnNamesOnly(a: seq<IndexInfo>, b: seq<IndexInfo>)
    requires |a| == |b| && forall i :: 0 <= i < |a| ==> a[i].name == b[i].name
    ensures CreateDataViewsForIndices(a) == CreateDataViewsForIndices(b)
    decreases |a|
  {
    if |a| > 0 {
      DataViewsDependOnNamesOnly(a[1..], b[1..]);
    }
  }

  /** The derivation distributes over concatenation, so it keeps the order of the indices. */
  lemma {:induction false} DataViewsOfConcat(a: seq<IndexInfo>, b: seq<IndexInfo>)
    ensures CreateDataViewsForIndices(a + b) == CreateDataViewsForIndices(a) + CreateDataViewsForIndices(b)
    decreases |a|
  {
    if |a| > 0 {
      assert (a + b)[1..] == a[1..] + b;
      DataViewsOfConcat(a[1..], b);
    }
  }

  /** Right after a fetch, the data views are the index names of the cluster state. */
  lemma DataViewsOfClusterState(cs: ClusterState, i: nat)
    requires i < |cs.indices|
    ensures var dv := CreateDataViewsForIndices(IndicesFromClusterState(cs));
      |dv| == |cs.indices| && dv[i].id == dv[i].title == dv[i].indexPattern == cs.indices[i].0
  {
  }

  /** The saved object each data view is mirrored to. */
  function IndexPatternDocument(view: DataView): Json {
    JObj([("type", JStr("index-pattern")),
          ("index-pattern", JObj([("title", JStr(view.title)), ("fields", JStr("[]")), ("timeFieldName", JStr(""))]))])
  }

  function UpsertPath(view: DataView): string {
    "/.kibana/_doc/index-pattern:" + view.id
  }

  function UpsertInit(view: DataView): RequestInit {
    RequestInit(Some("POST"), map[], Some(IndexPatternDocument(view)))
  }

  /** The upsert requests for `views`, one per view in order (none when `btoa` throws). */
  function UpsertRequests(c: ConnectionInfo, views: seq<DataView>): (r: seq<OutboundRequest>)
    ensures ToAuthHeaders(c).Err? ==> r == []
    ensures ToAuthHeaders(c).Ok? ==> (|r| == |views| &&
      forall i :: 0 <= i < |views| ==> r[i] == Outbound(c, ToAuthHeaders(c).value, UpsertPath(views[i]), UpsertInit(views[i])))
    decreases |views|
  {
    if |views| == 0 then []
    else Issued(c, UpsertPath(views[0]), UpsertInit(views[0])) + UpsertRequests(c, views[1..])
  }

  /** `ensureDataViews`: one POST per data view, each failure discarded, so it
    * always completes. Attempt `i` meets the outcome `upserts(i)`. `sent` lists the
    * requests that reached `fetch`, in the order they were issued. */
  method EnsureDataViews(c: ConnectionInfo, views: seq<DataView>, upserts: nat -> Result<Response, Thrown>)
    returns (sent: seq<OutboundRequest>)
    ensures sent == UpsertRequests(c, views)
  {
    sent := [];
    var i := 0;
    while i < |views|
      invariant 0 <= i <= |views|
      invariant ToAuthHeaders(c).Ok? ==> (|sent| == i &&
        forall j :: 0 <= j < i ==> sent[j] == Outbound(c, ToAuthHeaders(c).value, UpsertPath(views[j]), UpsertInit(views[j])))
      invariant ToAuthHeaders(c).Err? ==> sent == []
    {
      var attempt, _ := Request(c, UpsertPath(views[i]), UpsertInit(views[i]), upserts(i));
      sent := sent + attempt;
      i := i + 1;
    }
  }

  // ---- fetchDashboards ----

  /** One search hit; `title` is `_source.dashboard.title`, `None` when null or absent. */
  datatype SearchHit = SearchHit(title: Option<string>)

  /** The search body: a term query on type `dashboard`, at most 100 hits. */
  const DashboardQuery: Json :=
    JObj([("query", JObj([("term", JObj([("type", JStr("dashboard"))]))])), ("size", JNum(100))])

  /** `hits.map(hit => title).filter(Boolean)`: the titles in hit order, without the empty or missing ones. */
  function TitlesFromHits(hits: seq<SearchHit>): (r: seq<string>)
    ensures |r| <= |hits|
    ensures forall i :: 0 <= i < |r| ==> r[i] != ""
    decreases |hits|
  {
    if |hits| == 0 then []
    else
      var rest := TitlesFromHits(hits[1..]);
      match hits[0].title
      case Some(t) => if t != "" then [t] + rest else rest
      case None => rest
  }

  /** The extraction distributes over concatenation: titles keep the order of their hits. */
  lemma {:induction false} TitlesOfConcat(a: seq<SearchHit>, b: seq<SearchHit>)
    ensures TitlesFromHits(a + b) == TitlesFromHits(a) + TitlesFromHits(b)
    decreases |a|
  {
    if |a| > 0 {
      assert (a + b)[0] == a[0];
      assert (a + b)[1..] == a[1..] + b;
      TitlesOfConcat(a[1..], b);
      var x, y := TitlesFromHits(a[1..]), TitlesFromHits(b);
      if a[0].title.Some? && a[0].title.value != "" {
        assert [a[0].title.value] + (x + y) == ([a[0].title.value] + x) + y;
      }
    } else {
      assert a + b == b;
    }
  }

  /** A string is among the titles exactly when some hit carries it as a non-empty title. */
  lemma {:induction false} TitlesMembership(hits: seq<SearchHit>, t: string)
    ensures t in TitlesFromHits(hits) <==> t != "" && exists i :: 0 <= i < |hits| && hits[i].title == Some(t)
    decreases |hits|
  {
    if |hits| > 0 {
      TitlesMembership(hits[1..], t);
      if exists i :: 0 <= i < |hits| - 1 && hits[1..][i].title == Some(t) {
        var i :| 0 <= i < |hits| - 1 && hits[1..][i].title == Some(t);
        assert hits[i + 1].title == Some(t);
      }
      if exists i :: 0 <= i < |hits| && hits[i].title == Some(t) {
        var i :| 0 <= i < |hits| && hits[i].title == Some(t);
        if i > 0 {
          assert hits[1..][i - 1].title == Some(t);
        }
      }
    }
  }

  /** What `fetchDashboards` settles with. */
  function DashboardsOutcome(c: ConnectionInfo, ex: Exchange<seq<SearchHit>>): Result<seq<string>, Thrown> {
    match JsonOutcome(c, ex)
    case Err(t) => Err(t)
    case Ok(hits) => Ok(TitlesFromHits(hits))
  }

  const SearchInit := RequestInit(Some("POST"), map[], Some(DashboardQuery))

  /** `fetchDashboards`: a POST of the dashboard query to `/.kibana/_search`. */
  method FetchDashboards(c: ConnectionInfo, ex: Exchange<seq<SearchHit>>)
    returns (sent: seq<OutboundRequest>, r: Result<seq<string>, Thrown>)
    ensures sent == Issued(c, "/.kibana/_search", SearchInit)
    ensures r == DashboardsOutcome(c, ex)
  {
    var response;
    sent, response := Request(c, "/.kibana/_search", SearchInit, ex.fetched);
    if response.Err? {
      return sent, Err(response.error);
    }
    if ex.decoded.Err? {
      return sent, Err(ex.decoded.error);
    }
    r := Ok(TitlesFromHits(ex.decoded.value));
  }

  // ---- saveDashboard ----

  /** `JSON.stringify({ useMargins: true, syncColors: true })`. */
  const OptionsJson := "{\"useMargins\":true,\"syncColors\":true}"

  const ReferenceName := "kibanaSavedObjectMeta.searchSourceJSON.index"

  /** The saved object a draft becomes; `now` is the ISO timestamp of the save.
    * The draft's layout is not part of it. */
  function DashboardDocument(draft: DashboardDraft, now: string): (doc: Json)
    ensures MemberNames(doc) == ["type", "dashboard", "references", "updated_at"]
    ensures Member(doc, "dashboard").Some? && var d := Member(doc, "dashboard").value;
      MemberNames(d) == ["title", "description", "panelsJSON", "optionsJSON", "version"] &&
      Member(d, "layout") == None
    ensures Member(doc, "type") == Some(JStr("dashboard"))
    ensures Member(doc, "updated_at") == Some(JStr(now))
    ensures Member(doc, "dashboard").Some? && var d := Member(doc, "dashboard").value;
      Member(d, "title") == Some(JStr(draft.title)) &&
      Member(d, "description") == Some(JStr(draft.description)) &&
      Member(d, "panelsJSON") == Some(JStr("[]")) &&
      Member(d, "optionsJSON") == Some(JStr(OptionsJson)) &&
      Member(d, "version") == Some(JNum(1))
    ensures Member(doc, "references") ==
      Some(JArr([JObj([("id", JStr(draft.dataViewId)), ("name", JStr(ReferenceName)), ("type", JStr("index-pattern"))])]))
  {
    var dashboard := [
        ("title", JStr(draft.title)),
        ("description", JStr(draft.description)),
        ("panelsJSON", JStr("[]")),
        ("optionsJSON", JStr(OptionsJson)),
        ("version", JNum(1))];
    var reference := JObj([("id", JStr(draft.dataViewId)), ("name", JStr(ReferenceName)), ("type", JStr("index-pattern"))]);
    var top := [
      ("type", JStr("dashboard")),
      ("dashboard", JObj(dashboard)),
      ("references", JArr([reference])),
      ("updated_at", JStr(now))];
    MemberAt(top, 0, "type");
    MemberAt(top, 1, "dashboard");
    MemberAt(top, 2, "references");
    MemberAt(top, 3, "updated_at");
    MemberAt(dashboard, 0, "title");
    MemberAt(dashboard, 1, "description");
    MemberAt(dashboard, 2, "panelsJSON");
    MemberAt(dashboard, 3, "optionsJSON");
    MemberAt(dashboard, 4, "version");
    MemberNamesAt(top);
    MemberNamesAt(dashboard);
    MemberNamed(JObj(dashboard), "layout");
    JObj(top)
  }

  function SavePath(uuid: string): string {
    "/.kibana/_doc/dashboard:" + uuid
  }

  function SaveInit(draft: DashboardDraft, now: string): RequestInit {
    RequestInit(Some("POST"), map[], Some(DashboardDocument(draft, now)))
  }

  /** `saveDashboard`: a POST of the document under a fresh id; `uuid` and `now`
    * stand for `crypto.randomUUID()` and the current time. Settles with the parsed reply. */
  method SaveDashboard(c: ConnectionInfo, draft: DashboardDraft, uuid: string, now: string, ex: Exchange<Json>)
    returns (sent: seq<OutboundRequest>, r: Result<Json, Thrown>)
    ensures sent == Issued(c, SavePath(uuid), SaveInit(draft, now))
    ensures r == JsonOutcome(c, ex)
  {
    var response;
    sent, response := Request(c, SavePath(uuid), SaveInit(draft, now), ex.fetched);
    if response.Err? {
      return sent, Err(response.error);
    }
    r := ex.decoded;
  }
}
