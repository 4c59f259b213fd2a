/** The entities of the UI (`AuthType`, `ConnectionInfo`, `IndexInfo`, `DataView`,
  * `Screen`, `AppState`, and the dashboard form's draft), plus the values that
  * cross the HTTP boundary: JSON documents, responses, thrown values. */
module Types {
  import opened Wrappers

  datatype AuthType = Basic | ApiKey

  datatype ConnectionInfo = ConnectionInfo(
    url: string,
    authType: AuthType,
    username: string,
    password: string,
    apiKey: string)

  datatype IndexInfo = IndexInfo(name: string, docsCount: nat, health: string, status: string)

  datatype DataView = DataView(id: string, title: string, indexPattern: string)

  datatype Screen = Connect | Indices | Dashboards

  datatype AppState = AppState(
    screen: Screen,
    connection: ConnectionInfo,
    indices: seq<IndexInfo>,
    dataViews: seq<DataView>,
    errors: seq<string>)

  /** The dashboard form's draft; `layout` is free text, as in the form's state. */
  datatype DashboardDraft = DashboardDraft(title: string, description: string, dataViewId: string, layout: string)

  /** A parsed JSON document; object members keep their textual order. */
  datatype Json =
    | JNull
    | JBool(b: bool)
    | JNum(n: int)
    | JStr(s: string)
    | JArr(items: seq<Json>)
    | JObj(members: seq<(string, Json)>)

  /** The value of the first member named `key` of an object. */
  function Member(j: Json, key: string): Option<Json>
    decreases if j.JObj? then |j.members| else 0
  {
    if !j.JObj? || |j.members| == 0 then None
    else if j.members[0].0 == key then Some(j.members[0].1)
    else
      Member(JObj(j.members[1..]), key)
  }

  /** The names of an object's members, in order; empty for any other value. */
  function MemberNames(j: Json): seq<string>
    decreases if j.JObj? then |j.members| else 0
  {
    if !j.JObj? || |j.members| == 0 then []
    else [j.members[0].0] + MemberNames(JObj(j.members[1..]))
  }

  /** A lookup finds a member exactly when one of the object's names is the key. */
  lemma {:induction false} MemberNamed(j: Json, key: string)
    ensures Member(j, key).Some? <==> key in MemberNames(j)
    decreases if j.JObj? then |j.members| else 0
  {
    if j.JObj? && |j.members| > 0 {
      MemberNamed(JObj(j.members[1..]), key);
    }
  }

  /** The names list one name per member, in the members' order. */
  lemma {:induction false} MemberNamesAt(members: seq<(string, Json)>)
    ensures |MemberNames(JObj(members))| == |members|
    ensures forall i :: 0 <= i < |members| ==> MemberNames(JObj(members))[i] == members[i].0
    decreases |members|
  {
    if |members| > 0 {
      MemberNamesAt(members[1..]);
    }
  }

  /** The member at position `i` is the one found when no earlier member has its name. */
  lemma {:induction false} MemberAt(members: seq<(string, Json)>, i: nat, key: string)
    requires i < |members| && members[i].0 == key
    requires forall j :: 0 <= j < i ==> members[j].0 != key
    ensures Member(JObj(members), key) == Some(members[i].1)
    decreases i
  {
    if i > 0 {
      MemberAt(members[1..], i - 1, key);
    }
  }

  /** What a `catch` block receives: an `Error` instance (with its message) or any other value. */
  datatype Thrown = ErrorValue(message: string) | NonErrorValue {
    /** `error instanceof Error ? error.message : fallback`. */
    function MessageOr(fallback: string): string {
      match this
      case ErrorValue(m) => m
      case NonErrorValue => fallback
    }
  }

  /** Header names to values. */
  type Headers = map<string, string>

  /** What `fetch` resolves to: status code, status text, and how `response.text()`
    * settles when the body is read. */
  datatype Response = Response(status: nat, statusText: string, text: Result<string, Thrown>) {
    /** `response.ok`. */
    predicate Ok() {
      200 <= status <= 299
    }
  }

  /** The options a caller passes to the client's request helper. */
  datatype RequestInit = RequestInit(httpMethod: Option<string>, headers: Headers, body: Option<Json>)

  /** A request as it leaves the browser. The body is the JSON value before `JSON.stringify`. */
  datatype OutboundRequest = OutboundRequest(url: string, httpMethod: string, headers: Headers, body: Option<Json>)

  /** The outcome of one call to the cluster: what `fetch` settled with, and what
    * `response.json()` (with the property accesses on it) yields if it is reached. */
  datatype Exchange<P> = Exchange(fetched: Result<Response, Thrown>, decoded: Result<P, Thrown>)
}
