/** The wizard's state machine: one `AppState` cell, changed by connecting,
  * refreshing the index list and moving on to the dashboards screen. */
module App {
  import opened Wrappers
  import opened Types
  import OpenSearch

  const FallbackUrl := "http://localhost:9200"
  const UnknownError := "Unknown error"

  /** `VITE_DEFAULT_OPENSEARCH_URL || 'http://localhost:9200'`: an unset or empty setting falls back. */
  function DefaultUrl(env: Option<string>): string {
    if env.Some? && env.value != "" then env.value else FallbackUrl
  }

  /** The state the app starts in: the connect screen, Basic auth without
    * credentials against the default URL, nothing fetched, no error. */
  function InitialState(url: string): AppState {
    AppState(Connect, ConnectionInfo(url, Basic, "", "", ""), [], [], [])
  }

  /** The invariant: the data views are always those derived from the indices. */
  ghost predicate ViewsDerived(s: AppState) {
    s.dataViews == OpenSearch.CreateDataViewsForIndices(s.indices)
  }

  /** What the layout shows, top to bottom. */
  datatype Part =
    | ErrorBanner(message: string)
    | ConnectBody(connection: ConnectionInfo)
    | IndicesBody(indices: seq<IndexInfo>, dataViews: seq<DataView>)
    | DashboardsBody(connection: ConnectionInfo, dataViews: seq<DataView>)

  /** The page for a state: the banner when there is an error, then each screen body whose screen is current. */
  function Rendered(s: AppState): (parts: seq<Part>)
    ensures |parts| == if |s.errors| > 0 then 2 else 1
    ensures |s.errors| > 0 ==> parts[0] == ErrorBanner(s.errors[0])
    ensures forall i :: 0 <= i < |parts| ==> (parts[i].ErrorBanner? <==> i < |parts| - 1)
    ensures s.screen == Connect <==> parts[|parts| - 1] == ConnectBody(s.connection)
    ensures s.screen == Indices <==> parts[|parts| - 1] == IndicesBody(s.indices, s.dataViews)
    ensures s.screen == Dashboards <==> parts[|parts| - 1] == DashboardsBody(s.connection, s.dataViews)
  {
    (if |s.errors| > 0 then [ErrorBanner(s.errors[0])] else [])
    + (if s.screen == Connect then [ConnectBody(s.connection)] else [])
    + (if s.screen == Indices then [IndicesBody(s.indices, s.dataViews)] else [])
    + (if s.screen == Dashboards then [DashboardsBody(s.connection, s.dataViews)] else [])
  }

  /** The requests a connect or refresh with `c` issues: the cluster-state read,
    * then, if it produced indices, one upsert per derived data view. */
  function LoadRequests(c: ConnectionInfo, outcome: Result<seq<IndexInfo>, Thrown>): seq<OutboundRequest> {
    OpenSearch.Issued(c, "/_cluster/state", OpenSearch.NoInit)
    + (if outcome.Ok? then OpenSearch.UpsertRequests(c, OpenSearch.CreateDataViewsForIndices(outcome.value)) else [])
  }

  class AppModel {
    var state: AppState

    ghost predicate Valid()
      reads this
    {
      ViewsDerived(state)
    }

    constructor (env: Option<string>)
      ensures Valid()
      ensures state == InitialState(DefaultUrl(env))
    {
      state := InitialState(DefaultUrl(env));
    }

    /** `setScreen`. */
    method SetScreen(screen: Screen)
      requires Valid()
      modifies this
      ensures Valid()
      ensures state == old(state).(screen := screen)
    {
      state := state.(screen := screen);
    }

    /** `handleConnect`: stores the submitted connection and clears the errors
    * (the state shown while the requests run is `inFlight`), then loads indices
    * and data views and moves to the indices screen, or records the failure. */
    method HandleConnect(connection: ConnectionInfo, indicesEx: Exchange<OpenSearch.ClusterState>, upserts: nat -> Result<Response, Thrown>)
      returns (ghost inFlight: AppState, sent: seq<OutboundRequest>)
      requires Valid()
      modifies this
      ensures Valid()
      ensures inFlight == old(state).(connection := connection, errors := [])
      ensures var outcome := OpenSearch.IndicesOutcome(connection, indicesEx);
        && sent == LoadRequests(connection, outcome)
        && (outcome.Ok? ==> state == inFlight.(indices := outcome.value,
              dataViews := OpenSearch.CreateDataViewsForIndices(outcome.value), screen := Indices))
        && (outcome.Err? ==> state == inFlight.(errors := [outcome.error.MessageOr(UnknownError)]))
    {
      state := state.(connection := connection, errors := []);
      inFlight := state;
      var fetchSent, fetched := OpenSearch.FetchIndices(connection, indicesEx);
      sent := fetchSent;
      match fetched {
        case Ok(indices) =>
          var dataViews := OpenSearch.CreateDataViewsForIndices(indices);
          var upsertSent := OpenSearch.EnsureDataViews(connection, dataViews, upserts);
          sent := sent + upsertSent;
          state := state.(indices := indices, dataViews := dataViews, screen := Indices);
        case Err(thrown) =>
          state := state.(errors := [thrown.MessageOr(UnknownError)]);
      }
    }

    /** `handleRefreshIndices`: reloads with the stored connection. The screen and
    * the connection never change, and a success leaves earlier errors in place. */
    method HandleRefreshIndices(indicesEx: Exchange<OpenSearch.ClusterState>, upserts: nat -> Result<Response, Thrown>)
      returns (sent: seq<OutboundRequest>)
      requires Valid()
      modifies this
      ensures Valid()
      ensures state.screen == old(state).screen && state.connection == old(state).connection
      ensures var outcome := OpenSearch.IndicesOutcome(old(state).connection, indicesEx);
        && sent == LoadRequests(old(state).connection, outcome)
        && (outcome.Ok? ==> state == old(state).(indices := outcome.value,
              dataViews := OpenSearch.CreateDataViewsForIndices(outcome.value)))
        && (outcome.Err? ==> state == old(state).(errors := [outcome.error.MessageOr(UnknownError)]))
    {
      var connection := state.connection;
      var fetchSent, fetched := OpenSearch.FetchIndices(connection, indicesEx);
      sent := fetchSent;
      match fetched {
        case Ok(indices) =>
          var dataViews := OpenSearch.CreateDataViewsForIndices(indices);
          var upsertSent := OpenSearch.EnsureDataViews(connection, dataViews, upserts);
          sent := sent + upsertSent;
          state := state.(indices := indices, dataViews := dataViews);
        case Err(thrown) =>
          state := state.(errors := [thrown.MessageOr(UnknownError)]);
      }
    }

    /** `onIndicesContinue`: on to the dashboards screen, nothing else changes. */
    method OnIndicesContinue()
      requires Valid()
      modifies this
      ensures Valid()
      ensures state == old(state).(screen := Dashboards)
    {
      SetScreen(Dashboards);
    }
  }

  /** A failed connect keeps the connect screen and shows the failure; connecting
    * again successfully clears it and opens the indices screen. */
  method RetryAfterFailedConnect(env: Option<string>, c: ConnectionInfo, failure: Thrown,
                                 cs: OpenSearch.ClusterState, upserts: nat -> Result<Response, Thrown>)
    returns (afterFailure: AppState, afterRetry: AppState)
    requires OpenSearch.ToAuthHeaders(c).Ok?
    ensures afterFailure.screen == Connect && afterFailure.connection == c
    ensures afterFailure.errors == [failure.MessageOr(UnknownError)] && afterFailure.indices == []
    ensures afterRetry.screen == Indices && afterRetry.errors == []
    ensures afterRetry.indices == OpenSearch.IndicesFromClusterState(cs)
    ensures afterRetry.dataViews == OpenSearch.CreateDataViewsForIndices(afterRetry.indices)
  {
    var app := new AppModel(env);
    ghost var inFlight;
    var sent;
    inFlight, sent := app.HandleConnect(c, Exchange(Err(failure), Err(failure)), upserts);
    afterFailure := app.state;
    inFlight, sent := app.HandleConnect(c, Exchange(Ok(Response(200, "OK", Ok(""))), Ok(cs)), upserts);
    afterRetry := app.state;
  }
}
