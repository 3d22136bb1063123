/** The dashboard's alert store (src/stores/alertStore.ts): the alert list and its edits, the filters
    and their query parameters, the fetch flags, and the live socket's guard, message rule and
    disconnect. Fetches are split at their `await` as in the security store; HTTP requests go to an
    outbox. */
module AlertStore {
  import opened Wrappers
  import opened Text
  import opened Lists

  datatype Alert = Alert(id: string, title: string, severity: string, status: string, source: string, timestamp: string)

  /** The store's `filters`; in an update, None is a key the update does not mention. */
  datatype Filters = Filters(
    severity: Option<seq<string>>,
    status: Option<seq<string>>,
    startDate: Option<string>,
    endDate: Option<string>,
    source: Option<seq<string>>)

  const NoFilters := Filters(None, None, None, None, None)

  function Over<T>(current: Option<T>, update: Option<T>): Option<T>
  {
    if update.Some? then update else current
  }

  /** `{ ...current, ...update }`: each key the update mentions takes the update's value, each key it
      leaves out keeps the current one. */
  function MergeFilters(current: Filters, update: Filters): (r: Filters)
    ensures r.severity == (if update.severity.Some? then update.severity else current.severity)
    ensures r.status == (if update.status.Some? then update.status else current.status)
    ensures r.startDate == (if update.startDate.Some? then update.startDate else current.startDate)
    ensures r.endDate == (if update.endDate.Some? then update.endDate else current.endDate)
    ensures r.source == (if update.source.Some? then update.source else current.source)
  {
    Filters(Over(current.severity, update.severity), Over(current.status, update.status),
            Over(current.startDate, update.startDate), Over(current.endDate, update.endDate),
            Over(current.source, update.source))
  }

  /** The shallow merge: every key the update mentions wins, every other key is kept, and merging is
      associative, so two updates in a row act like their merge. */
  lemma MergeFiltersLaws(current: Filters, u1: Filters, u2: Filters)
    ensures u1.severity.Some? ==> MergeFilters(current, u1).severity == u1.severity
    ensures u1.severity.None? ==> MergeFilters(current, u1).severity == current.severity
    ensures u1.status.Some? ==> MergeFilters(current, u1).status == u1.status
    ensures u1.status.None? ==> MergeFilters(current, u1).status == current.status
    ensures u1.startDate.Some? ==> MergeFilters(current, u1).startDate == u1.startDate
    ensures u1.startDate.None? ==> MergeFilters(current, u1).startDate == current.startDate
    ensures u1.endDate.Some? ==> MergeFilters(current, u1).endDate == u1.endDate
    ensures u1.endDate.None? ==> MergeFilters(current, u1).endDate == current.endDate
    ensures u1.source.Some? ==> MergeFilters(current, u1).source == u1.source
    ensures u1.source.None? ==> MergeFilters(current, u1).source == current.source
    ensures MergeFilters(current, NoFilters) == current
    ensures MergeFilters(MergeFilters(current, u1), u2) == MergeFilters(current, MergeFilters(u1, u2))
  {
  }

  datatype Param = Param(key: string, value: string)

  /** `if (filters.k) params.append(k, filters.k.join(','))`: an array filter is sent whenever it is
      set, even as an empty array, valued with its elements joined by commas. */
  function ListParam(key: string, values: Option<seq<string>>): (ps: seq<Param>)
    ensures |ps| <= 1
    ensures ps != [] <==> values.Some?
    ensures ps != [] ==> ps[0] == Param(key, Join(values.value, ","))
  {
    if values.Some? then [Param(key, Join(values.value, ","))] else []
  }

  /** `if (filters.k) params.append(k, filters.k)`: a date is sent only when it is set and non-empty. */
  function TextParam(key: string, value: Option<string>): (ps: seq<Param>)
    ensures |ps| <= 1
    ensures ps != [] <==> value.Some? && value.value != ""
    ensures ps != [] ==> ps[0] == Param(key, value.value)
  {
    if value.Some? && value.value != "" then [Param(key, value.value)] else []
  }

  /** The filter keys, in the order `fetchAlerts` appends them after the page. */
  function KeyRank(key: string): nat
  {
    if key == "severity" then 0 else if key == "status" then 1 else if key == "startDate" then 2
    else if key == "endDate" then 3 else if key == "source" then 4 else 5
  }

  /** The parameters of `fetchAlerts`: the page first, then each filter that is set, every filter key
      at most once and in the order severity, status, startDate, endDate, source. */
  function AlertParams(filters: Filters, page: nat): (ps: seq<Param>)
    ensures 1 <= |ps| <= 6 && ps[0] == Param("page", NatToString(page))
    ensures forall i :: 1 <= i < |ps| ==> KeyRank(ps[i].key) < 5
    ensures forall i, j :: 1 <= i < j < |ps| ==> KeyRank(ps[i].key) < KeyRank(ps[j].key)
  {
    var severity := ListParam("severity", filters.severity);
    var status := ListParam("status", filters.status);
    var startDate := TextParam("startDate", filters.startDate);
    var endDate := TextParam("endDate", filters.endDate);
    var source := ListParam("source", filters.source);
    RankedAppend(severity, 0, status, 1);
    RankedAppend(severity + status, 1, startDate, 2);
    RankedAppend(severity + status + startDate, 2, endDate, 3);
    RankedAppend(severity + status + startDate + endDate, 3, source, 4);
    [Param("page", NatToString(page))] + (severity + status + startDate + endDate + source)
  }

  /** Parameters in strictly increasing key order, all ranked at most `r`, followed by at most one
      parameter of rank `s > r`, are still in strictly increasing key order. */
  lemma RankedAppend(ps: seq<Param>, r: nat, qs: seq<Param>, s: nat)
    requires forall i :: 0 <= i < |ps| ==> KeyRank(ps[i].key) <= r
    requires forall i, j :: 0 <= i < j < |ps| ==> KeyRank(ps[i].key) < KeyRank(ps[j].key)
    requires r < s && |qs| <= 1 && (qs != [] ==> KeyRank(qs[0].key) == s)
    ensures forall i :: 0 <= i < |ps + qs| ==> KeyRank((ps + qs)[i].key) <= s
    ensures forall i, j :: 0 <= i < j < |ps + qs| ==> KeyRank((ps + qs)[i].key) < KeyRank((ps + qs)[j].key)
  {
  }

  predicate HasKey(ps: seq<Param>, key: string)
  {
    exists p :: p in ps && p.key == key
  }

  /** The parameters `fetchAlerts` sends are exactly the page with its number and each filter its
      test lets through, with that filter's rendered value. */
  lemma AlertParamsMembers(filters: Filters, page: nat)
    ensures forall p :: p in AlertParams(filters, page) <==>
      || p == Param("page", NatToString(page))
      || (filters.severity.Some? && p == Param("severity", Join(filters.severity.value, ",")))
      || (filters.status.Some? && p == Param("status", Join(filters.status.value, ",")))
      || (filters.startDate.Some? && filters.startDate.value != "" && p == Param("startDate", filters.startDate.value))
      || (filters.endDate.Some? && filters.endDate.value != "" && p == Param("endDate", filters.endDate.value))
      || (filters.source.Some? && p == Param("source", Join(filters.source.value, ",")))
  {
    var severity := ListParam("severity", filters.severity);
    var status := ListParam("status", filters.status);
    var startDate := TextParam("startDate", filters.startDate);
    var endDate := TextParam("endDate", filters.endDate);
    var source := ListParam("source", filters.source);
    var ps := AlertParams(filters, page);
    assert ps == [Param("page", NatToString(page))] + severity + status + startDate + endDate + source;
    assert forall p :: p in ps <==> p == Param("page", NatToString(page)) || p in severity || p in status
                                    || p in startDate || p in endDate || p in source;
  }

  /** Each filter is sent exactly when `fetchAlerts`'s test lets it through: an array filter whenever it
      is set, even as an empty array, and a date only when it is non-empty. Each parameter carries its
      filter's value, arrays comma-joined, and the page is sent with its own number. */
  lemma AlertParamsSent(filters: Filters, page: nat)
    ensures HasKey(AlertParams(filters, page), "severity") <==> filters.severity.Some?
    ensures HasKey(AlertParams(filters, page), "status") <==> filters.status.Some?
    ensures HasKey(AlertParams(filters, page), "startDate") <==> filters.startDate.Some? && filters.startDate.value != ""
    ensures HasKey(AlertParams(filters, page), "endDate") <==> filters.endDate.Some? && filters.endDate.value != ""
    ensures HasKey(AlertParams(filters, page), "source") <==> filters.source.Some?
    ensures forall v :: Param("severity", v) in AlertParams(filters, page) ==> v == Join(filters.severity.GetOr([]), ",")
    ensures forall v :: Param("status", v) in AlertParams(filters, page) ==> v == Join(filters.status.GetOr([]), ",")
    ensures forall v :: Param("startDate", v) in AlertParams(filters, page) ==> v == filters.startDate.GetOr("")
    ensures forall v :: Param("endDate", v) in AlertParams(filters, page) ==> v == filters.endDate.GetOr("")
    ensures forall v :: Param("source", v) in AlertParams(filters, page) ==> v == Join(filters.source.GetOr([]), ",")
    ensures forall v :: Param("page", v) in AlertParams(filters, page) ==> v == NatToString(page)
  {
    AlertParamsMembers(filters, page);
    KeysOfMembers(AlertParams(filters, page), NatToString(page),
      filters.severity.Some?, Join(filters.severity.GetOr([]), ","),
      filters.status.Some?, Join(filters.status.GetOr([]), ","),
      filters.startDate.Some? && filters.startDate.value != "", filters.startDate.GetOr(""),
      filters.endDate.Some? && filters.endDate.value != "", filters.endDate.GetOr(""),
      filters.source.Some?, Join(filters.source.GetOr([]), ","));
  }

  /** Parameters made of the page and each filter that is on, with its value, hold each filter key iff
      it is on, and then with that value. */
  lemma KeysOfMembers(ps: seq<Param>, page: string, severityOn: bool, severity: string,
                      statusOn: bool, status: string, startOn: bool, start: string,
                      endOn: bool, end: string, sourceOn: bool, source: string)
    requires forall p :: p in ps <==>
      || p == Param("page", page)
      || (severityOn && p == Param("severity", severity))
      || (statusOn && p == Param("status", status))
      || (startOn && p == Param("startDate", start))
      || (endOn && p == Param("endDate", end))
      || (sourceOn && p == Param("source", source))
    ensures HasKey(ps, "severity") <==> severityOn
    ensures HasKey(ps, "status") <==> statusOn
    ensures HasKey(ps, "startDate") <==> startOn
    ensures HasKey(ps, "endDate") <==> endOn
    ensures HasKey(ps, "source") <==> sourceOn
    ensures forall v :: Param("severity", v) in ps ==> v == severity
    ensures forall v :: Param("status", v) in ps ==> v == status
    ensures forall v :: Param("startDate", v) in ps ==> v == start
    ensures forall v :: Param("endDate", v) in ps ==> v == end
    ensures forall v :: Param("source", v) in ps ==> v == source
    ensures forall v :: Param("page", v) in ps ==> v == page
  {
    if severityOn { assert Param("severity", severity) in ps; }
    if statusOn { assert Param("status", status) in ps; }
    if startOn { assert Param("startDate", start) in ps; }
    if endOn { assert Param("endDate", end) in ps; }
    if sourceOn { assert Param("source", source) in ps; }
  }

  /** With no filter set, the page is the only parameter. */
  lemma UnfilteredParams(page: nat)
    ensures AlertParams(NoFilters, page) == [Param("page", NatToString(page))]
  {
  }

  /** `alerts.map(alert => alert._id === id ? updated : alert)`. */
  function ReplaceById(alerts: seq<Alert>, id: string, updated: Alert): (r: seq<Alert>)
    ensures |r| == |alerts|
    ensures forall i :: 0 <= i < |alerts| ==> r[i] == if alerts[i].id == id then updated else alerts[i]
  {
    Map((a: Alert) => if a.id == id then updated else a, alerts)
  }

  /** `alerts.filter(alert => alert._id !== id)`. */
  function RemoveById(alerts: seq<Alert>, id: string): (r: seq<Alert>)
    ensures forall a :: a in r <==> a in alerts && a.id != id
    ensures IsSubsequence(r, alerts)
  {
    Filter((a: Alert) => a.id != id, alerts)
  }

  /** Deleting an id nobody has changes nothing; deleting twice is deleting once. */
  lemma RemoveByIdLaws(alerts: seq<Alert>, id: string)
    ensures (forall a :: a in alerts ==> a.id != id) ==> RemoveById(alerts, id) == alerts
    ensures RemoveById(RemoveById(alerts, id), id) == RemoveById(alerts, id)
  {
    if forall a :: a in alerts ==> a.id != id {
      FilterAll((a: Alert) => a.id != id, alerts);
    }
    FilterIdempotent((a: Alert) => a.id != id, alerts);
  }

  /** An update for an id nobody has changes nothing; when the server answers with the same id,
      updating twice is updating once. */
  lemma ReplaceByIdLaws(alerts: seq<Alert>, id: string, updated: Alert)
    ensures (forall a :: a in alerts ==> a.id != id) ==> ReplaceById(alerts, id, updated) == alerts
    ensures updated.id == id ==> ReplaceById(ReplaceById(alerts, id, updated), id, updated) == ReplaceById(alerts, id, updated)
  {
  }

  /** A socket message: the collector's keep-alive, or an alert. */
  datatype Message = Heartbeat | AlertMessage(alert: Alert)

  /** The alerts after a message: a heartbeat leaves them alone, an alert goes first. */
  function AfterMessage(alerts: seq<Alert>, m: Message): (r: seq<Alert>)
    ensures m.Heartbeat? ==> r == alerts
    ensures m.AlertMessage? ==> |r| == |alerts| + 1 && r[0] == m.alert && r[1..] == alerts
  {
    match m
    case Heartbeat => alerts
    case AlertMessage(a) => [a] + alerts
  }

  /** The ready states of a WebSocket. */
  datatype ReadyState = Connecting | Open | Closing | Closed

  /** A socket object: its state and whether its close handler (the reconnect rule) is still set. */
  datatype Socket = Socket(state: ReadyState, closeHandler: bool)

  /** Whether a socket's close event schedules a reconnect: only with its handler still set, and only
      when the close was not clean. */
  function ReconnectsOnClose(s: Socket, wasClean: bool): (r: bool)
    ensures r ==> s.closeHandler
  {
    s.closeHandler && !wasClean
  }

  datatype AlertStats = AlertStats(total: int, bySeverity: map<string, int>, byStatus: map<string, int>)

  datatype AlertsPage = AlertsPage(alerts: seq<Alert>, page: int, totalPages: int)

  datatype Request = Get(path: string, params: seq<Param>)

  class AlertStore {
    var alerts: seq<Alert>
    var stats: AlertStats
    var loading: bool
    var error: Option<string>
    var filters: Filters
    var page: int
    var totalPages: int
    var websocket: Option<Socket>
    /** The socket most recently closed by `disconnectWebSocket`. */
    var lastClosed: Option<Socket>
    var requests: seq<Request>

    constructor()
      ensures alerts == [] && stats == AlertStats(0, map[], map[]) && !loading && error.None?
      ensures filters == NoFilters && page == 1 && totalPages == 1 && websocket.None? && lastClosed.None? && requests == []
    {
      alerts, stats, loading, error := [], AlertStats(0, map[], map[]), false, None;
      filters, page, totalPages, websocket, lastClosed, requests := NoFilters, 1, 1, None, None, [];
    }

    /** `fetchAlerts(page)` up to its `await`. */
    method StartFetchAlerts(p: nat)
      modifies this`loading, this`error, this`requests
      ensures loading && error.None?
      ensures requests == old(requests) + [Get("/api/alerts", AlertParams(filters, p))]
    {
      loading, error := true, None;
      requests := requests + [Get("/api/alerts", AlertParams(filters, p))];
    }

    /** The rest of `fetchAlerts`: on failure the list is kept and only the error is set. */
    method FinishFetchAlerts(response: Option<AlertsPage>)
      modifies this`alerts, this`page, this`totalPages, this`loading, this`error
      ensures !loading
      ensures response.Some? ==> alerts == response.value.alerts && page == response.value.page
                                 && totalPages == response.value.totalPages && error == old(error)
      ensures response.None? ==> alerts == old(alerts) && page == old(page) && totalPages == old(totalPages)
                                 && error == Some("Failed to fetch alerts")
    {
      if response.Some? {
        alerts, page, totalPages := response.value.alerts, response.value.page, response.value.totalPages;
      } else {
        error := Some("Failed to fetch alerts");
      }
      loading := false;
    }

    /** `fetchStats`, once answered. */
    method FinishFetchStats(response: Option<AlertStats>)
      modifies this`stats, this`error
      ensures response.Some? ==> stats == response.value && error == old(error)
      ensures response.None? ==> stats == old(stats) && error == Some("Failed to fetch stats")
    {
      if response.Some? {
        stats := response.value;
      } else {
        error := Some("Failed to fetch stats");
      }
    }

    /** `updateAlert` once the PUT is answered with the updated alert, or has failed. */
    method UpdateAlert(id: string, response: Option<Alert>)
      modifies this`alerts, this`error, this`requests
      ensures response.Some? ==> alerts == ReplaceById(old(alerts), id, response.value) && error == old(error)
                                 && requests == old(requests) + [Get("/api/alerts/stats", [])]
      ensures response.None? ==> alerts == old(alerts) && error == Some("Failed to update alert") && requests == old(requests)
    {
      if response.Some? {
        alerts := ReplaceById(alerts, id, response.value);
        requests := requests + [Get("/api/alerts/stats", [])];
      } else {
        error := Some("Failed to update alert");
      }
    }

    /** `deleteAlert` once the DELETE has succeeded or failed. */
    method DeleteAlert(id: string, deleted: bool)
      modifies this`alerts, this`error, this`requests
      ensures deleted ==> alerts == RemoveById(old(alerts), id) && error == old(error)
                          && requests == old(requests) + [Get("/api/alerts/stats", [])]
      ensures !deleted ==> alerts == old(alerts) && error == Some("Failed to delete alert") && requests == old(requests)
    {
      if deleted {
        alerts := RemoveById(alerts, id);
        requests := requests + [Get("/api/alerts/stats", [])];
      } else {
        error := Some("Failed to delete alert");
      }
    }

    /** `setFilters`: merged filters, page 1, and a fetch of page 1 started. */
    method SetFilters(update: Filters)
      modifies this`filters, this`page, this`loading, this`error, this`requests
      ensures filters == MergeFilters(old(filters), update) && page == 1
      ensures loading && error.None?
      ensures requests == old(requests) + [Get("/api/alerts", AlertParams(filters, 1))]
    {
      filters, page := MergeFilters(filters, update), 1;
      StartFetchAlerts(1);
    }

    /** The socket's message handler. */
    method OnMessage(m: Message)
      modifies this`alerts
      ensures alerts == AfterMessage(old(alerts), m)
    {
      if m.AlertMessage? {
        alerts := [m.alert] + alerts;
      }
    }

    /** `connectWebSocket`: nothing while a socket is connecting or open; otherwise a new connecting
        socket with the reconnect rule as its close handler. */
    method ConnectWebSocket()
      modifies this`websocket
      ensures old(websocket).Some? && old(websocket).value.state in {Connecting, Open} ==> websocket == old(websocket)
      ensures !(old(websocket).Some? && old(websocket).value.state in {Connecting, Open}) ==>
        websocket == Some(Socket(Connecting, true))
    {
      if websocket.Some? && (websocket.value.state == Connecting || websocket.value.state == Open) {
        return;
      }
      websocket := Some(Socket(Connecting, true));
    }

    /** `disconnectWebSocket`: the close handler is removed before the socket is closed, and the store
        forgets it. */
    method DisconnectWebSocket()
      modifies this`websocket, this`lastClosed
      ensures websocket.None?
      ensures old(websocket).Some? ==> lastClosed == Some(Socket(Closing, false))
      ensures old(websocket).None? ==> lastClosed == old(lastClosed)
    {
      if websocket.Some? {
        lastClosed := Some(Socket(Closing, false));
        websocket := None;
      }
    }
  }

  /** A socket closed by `disconnectWebSocket` never schedules a reconnect, however its close goes. */
  lemma DisconnectedSocketStaysClosed(wasClean: bool)
    ensures !ReconnectsOnClose(Socket(Closing, false), wasClean)
  {
  }

  /** A socket opened by `connectWebSocket` reconnects exactly when it drops uncleanly. */
  lemma ConnectedSocketReconnects(wasClean: bool)
    ensures ReconnectsOnClose(Socket(Connecting, true), wasClean) <==> !wasClean
  {
  }
}
