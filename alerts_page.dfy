/** The alert list of the dashboard's alerts page (src/pages/AlertsPage.tsx): the filter predicate
    over the `Alert` type of src/types/index.ts and the `AlertFilters` of src/types/alerts.ts, and the
    select-all toggle. Times are milliseconds. */
module AlertsPage {
  import opened Wrappers
  import opened Text
  import opened Lists

  datatype Severity = Critical | Warning | Info

  datatype Alert = Alert(id: string, timestamp: int, severity: Severity, source: string, description: string,
                         acknowledged: bool)

  datatype StatusFilter = Active | Resolved | All

  datatype AlertFilters = AlertFilters(
    severity: Option<seq<Severity>>,
    start: Option<int>,
    end: Option<int>,
    status: StatusFilter,
    search: string)

  /** `isWithinInterval`: both ends included. */
  predicate Within(t: int, start: int, end: int)
  {
    start <= t <= end
  }

  /** The test an alert must pass to be listed. */
  predicate Keep(f: AlertFilters, a: Alert)
  {
    && (f.severity.None? || a.severity in f.severity.value)
    && !(f.status == Active && a.acknowledged)
    && !(f.status == Resolved && !a.acknowledged)
    && (f.start.None? || f.end.None? || Within(a.timestamp, f.start.value, f.end.value))
    && (f.search == "" || Contains(Lower(a.description), Lower(f.search)) || Contains(Lower(a.source), Lower(f.search)))
  }

  /** `filteredAlerts`. */
  function FilteredAlerts(alerts: seq<Alert>, f: AlertFilters): (r: seq<Alert>)
    ensures IsSubsequence(r, alerts)
    ensures forall a :: a in r <==> a in alerts && Keep(f, a)
  {
    Filter((a: Alert) => Keep(f, a), alerts)
  }

  /** The filters that let everything through. */
  const Unfiltered := AlertFilters(None, None, None, All, "")

  /** With no severity list, status `all`, no dates and no search, every alert is listed, in order. */
  lemma UnfilteredListsAll(alerts: seq<Alert>)
    ensures FilteredAlerts(alerts, Unfiltered) == alerts
  {
    FilterAll((a: Alert) => Keep(Unfiltered, a), alerts);
  }

  /** A severity list keeps only the severities it names; an empty list keeps nothing. */
  lemma SeverityFilter(alerts: seq<Alert>, f: AlertFilters)
    requires f.severity.Some?
    ensures forall a :: a in FilteredAlerts(alerts, f) ==> a.severity in f.severity.value
    ensures f.severity.value == [] ==> FilteredAlerts(alerts, f) == []
  {
    if f.severity.value == [] {
      FilterNone((a: Alert) => Keep(f, a), alerts);
    }
  }

  /** `active` lists only unacknowledged alerts, `resolved` only acknowledged ones, and with every other
      filter open, `all` lists both. */
  lemma StatusFilterRule(f: AlertFilters, a: Alert)
    ensures f.status == Active && Keep(f, a) ==> !a.acknowledged
    ensures f.status == Resolved && Keep(f, a) ==> a.acknowledged
    ensures Keep(Unfiltered, a)
  {
  }

  /** The date range counts only when both ends are set, and then includes both ends. */
  lemma DateRangeRule(f: AlertFilters, a: Alert)
    requires f.severity.None? && f.status == All && f.search == ""
    ensures f.start.None? || f.end.None? ==> Keep(f, a)
    ensures f.start.Some? && f.end.Some? ==> (Keep(f, a) <==> f.start.value <= a.timestamp <= f.end.value)
  {
  }

  /** A non-empty search lists an alert iff the text occurs, ignoring case, in its description or in its
      source. */
  lemma SearchRule(f: AlertFilters, a: Alert)
    requires f.severity.None? && f.status == All && f.start.None? && f.search != ""
    ensures Keep(f, a) <==> Contains(Lower(a.description), Lower(f.search)) || Contains(Lower(a.source), Lower(f.search))
  {
  }

  /** Searching is blind to ASCII case: upper-casing the query changes nothing. */
  lemma SearchIgnoresCase(f: AlertFilters, a: Alert, query: string)
    requires Lower(query) == Lower(f.search) && (query == "" <==> f.search == "")
    ensures Keep(f, a) <==> Keep(f.(search := query), a)
  {
  }

  /** Filtering again with the same filters changes nothing. */
  lemma FilteringIsIdempotent(alerts: seq<Alert>, f: AlertFilters)
    ensures FilteredAlerts(FilteredAlerts(alerts, f), f) == FilteredAlerts(alerts, f)
  {
    FilterIdempotent((a: Alert) => Keep(f, a), alerts);
  }

  datatype SelectionAction = ClearSelection | SelectAll

  /** `handleSelectAll`: clear when the selection is as large as the filtered list, otherwise select all. */
  function HandleSelectAll(selectedCount: nat, filteredCount: nat): (r: SelectionAction)
    ensures r == ClearSelection <==> selectedCount == filteredCount
  {
    if selectedCount == filteredCount then ClearSelection else SelectAll
  }
}
