/** The dashboards screen: a form holding a draft, a status line and the list of
  * saved dashboard titles, for one connection and its data views. */
module DashboardScreen {
  import opened Wrappers
  import opened Types
  import OpenSearch

  const RequiredMessage := "Title and data view are required."
  const SavedMessage := "Dashboard saved."
  const SaveFallback := "Unable to save dashboard"
  const LoadFallback := "Unable to load dashboards"

  datatype DraftField = Title | Description | DataViewId | Layout

  /** The draft the form starts with: empty text, the first data view (if any), the grid layout. */
  function InitialDraft(views: seq<DataView>): DashboardDraft {
    DashboardDraft("", "", if |views| > 0 then views[0].id else "", "grid")
  }

  function FieldOf(d: DashboardDraft, field: DraftField): string {
    match field
    case Title => d.title
    case Description => d.description
    case DataViewId => d.dataViewId
    case Layout => d.layout
  }

  /** `{ ...prev, [field]: value }`. */
  function WithField(d: DashboardDraft, field: DraftField, value: string): (r: DashboardDraft)
    ensures FieldOf(r, field) == value
    ensures forall g :: g != field ==> FieldOf(r, g) == FieldOf(d, g)
  {
    match field
    case Title => d.(title := value)
    case Description => d.(description := value)
    case DataViewId => d.(dataViewId := value)
    case Layout => d.(layout := value)
  }

  /** Writing back the value a field already has changes nothing; a later write
    * to the same field replaces an earlier one. */
  lemma WithFieldLaws(d: DashboardDraft, field: DraftField, v: string, w: string)
    ensures WithField(d, field, FieldOf(d, field)) == d
    ensures WithField(WithField(d, field, v), field, w) == WithField(d, field, w)
  {
  }

  /** The check a save must pass: a title and a data view. Description and layout are not checked. */
  predicate Complete(d: DashboardDraft) {
    d.title != "" && d.dataViewId != ""
  }

  /** The starting draft never passes the check: its title is empty. */
  lemma InitialDraftIncomplete(views: seq<DataView>)
    ensures !Complete(InitialDraft(views))
  {
  }

  /** The requests a save issues: the save, then the list query if the save settled well. */
  function SaveRequests(c: ConnectionInfo, draft: DashboardDraft, uuid: string, now: string,
                        saved: Result<Json, Thrown>): seq<OutboundRequest> {
    OpenSearch.Issued(c, OpenSearch.SavePath(uuid), OpenSearch.SaveInit(draft, now))
    + (if saved.Ok? then OpenSearch.Issued(c, "/.kibana/_search", OpenSearch.SearchInit) else [])
  }

  class DashboardModel {
    const connection: ConnectionInfo
    const dataViews: seq<DataView>
    var dashboards: seq<string>
    var draft: DashboardDraft
    var status: string

    constructor (connection: ConnectionInfo, dataViews: seq<DataView>)
      ensures this.connection == connection && this.dataViews == dataViews
      ensures dashboards == [] && draft == InitialDraft(dataViews) && status == ""
    {
      this.connection := connection;
      this.dataViews := dataViews;
      dashboards := [];
      draft := InitialDraft(dataViews);
      status := "";
    }

    /** `loadDashboards`, run when the screen opens: the list becomes the fetched
      * titles, or the status shows the failure and the list stays as it was. */
    method LoadDashboards(ex: Exchange<seq<OpenSearch.SearchHit>>) returns (sent: seq<OutboundRequest>)
      modifies this
      ensures draft == old(draft)
      ensures sent == OpenSearch.Issued(connection, "/.kibana/_search", OpenSearch.SearchInit)
      ensures var outcome := OpenSearch.DashboardsOutcome(connection, ex);
        && (outcome.Ok? ==> dashboards == outcome.value && status == old(status))
        && (outcome.Err? ==> dashboards == old(dashboards) && status == outcome.error.MessageOr(LoadFallback))
    {
      var found;
      sent, found := OpenSearch.FetchDashboards(connection, ex);
      match found {
        case Ok(titles) => dashboards := titles;
        case Err(thrown) => status := thrown.MessageOr(LoadFallback);
      }
    }

    /** `updateDraft(field, value)`: that field takes the value, the others keep theirs. */
    method UpdateDraft(field: DraftField, value: string)
      modifies this
      ensures draft == WithField(old(draft), field, value)
      ensures dashboards == old(dashboards) && status == old(status)
    {
      draft := WithField(draft, field, value);
    }

    /** `handleSave`: an incomplete draft only sets the status. Otherwise the draft
      * is saved, the status says so, and the list is fetched again; a failure of
      * either call puts its message in the status (a failed refetch overwrites the
      * saved message) and leaves the list as it was. */
    method HandleSave(uuid: string, now: string, saveEx: Exchange<Json>, listEx: Exchange<seq<OpenSearch.SearchHit>>)
      returns (sent: seq<OutboundRequest>)
      modifies this
      ensures draft == old(draft)
      ensures !Complete(draft) ==> status == RequiredMessage && dashboards == old(dashboards) && sent == []
      ensures Complete(draft) ==>
        var saved, listed := OpenSearch.JsonOutcome(connection, saveEx), OpenSearch.DashboardsOutcome(connection, listEx);
        && sent == SaveRequests(connection, draft, uuid, now, saved)
        && (saved.Err? ==> status == saved.error.MessageOr(SaveFallback) && dashboards == old(dashboards))
        && (saved.Ok? && listed.Ok? ==> status == SavedMessage && dashboards == listed.value)
        && (saved.Ok? && listed.Err? ==> status == listed.error.MessageOr(SaveFallback) && dashboards == old(dashboards))
    {
      if !Complete(draft) {
        status := RequiredMessage;
        return [];
      }
      var saveSent, saved := OpenSearch.SaveDashboard(connection, draft, uuid, now, saveEx);
      sent := saveSent;
      if saved.Err? {
        status := saved.error.MessageOr(SaveFallback);
        return;
      }
      status := SavedMessage;
      var listSent, updated := OpenSearch.FetchDashboards(connection, listEx);
      sent := sent + listSent;
      match updated {
        case Ok(titles) => dashboards := titles;
        case Err(thrown) => status := thrown.MessageOr(SaveFallback);
      }
    }
  }
}
