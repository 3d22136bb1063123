/** The dashboard's security store (src/stores/securityStore.ts): the vulnerability and compliance
    lists with their loading and error flags, the filters and the page. A fetch is split at its
    `await`: the part that runs when it is called, and the part that runs when the response (or the
    failure) arrives. GET requests go to an outbox of request lines. */
module SecurityStore {
  import opened Wrappers
  import opened Text

  /** The store's `filters`: a missing key is an absent filter. */
  datatype Filters = Filters(
    severity: Option<seq<string>>,
    status: Option<seq<string>>,
    framework: Option<seq<string>>,
    riskLevel: Option<seq<string>>)

  const NoFilters := Filters(None, None, None, None)

  /** One key of `setFilters`: an absent update keeps the key, an update whose first element is `all`
      deletes it, any other update (an empty array included) replaces it. */
  function MergeKey(current: Option<seq<string>>, update: Option<seq<string>>): (r: Option<seq<string>>)
    ensures update.None? ==> r == current
    ensures update.Some? && |update.value| > 0 && update.value[0] == "all" ==> r.None?
    ensures update.Some? && (|update.value| == 0 || update.value[0] != "all") ==> r == update
  {
    match update
    case None => current
    case Some(values) => if |values| > 0 && values[0] == "all" then None else update
  }

  /** The filters `setFilters` computes from the current ones and the partial update: a key the update
      leaves out is kept, a key it names is replaced by the update's values or cleared. */
  function MergeFilters(current: Filters, update: Filters): (r: Filters)
    ensures update.severity.None? ==> r.severity == current.severity
    ensures update.status.None? ==> r.status == current.status
    ensures update.framework.None? ==> r.framework == current.framework
    ensures update.riskLevel.None? ==> r.riskLevel == current.riskLevel
    ensures update.severity.Some? ==> r.severity in {None, update.severity}
    ensures update.status.Some? ==> r.status in {None, update.status}
    ensures update.framework.Some? ==> r.framework in {None, update.framework}
    ensures update.riskLevel.Some? ==> r.riskLevel in {None, update.riskLevel}
  {
    Filters(MergeKey(current.severity, update.severity), MergeKey(current.status, update.status),
            MergeKey(current.framework, update.framework), MergeKey(current.riskLevel, update.riskLevel))
  }

  /** Keys the update leaves out are untouched, and each key the update names is cleared or replaced
      on its own. */
  lemma MergeFiltersKeys(current: Filters, update: Filters)
    ensures update.severity.None? ==> MergeFilters(current, update).severity == current.severity
    ensures update.status.None? ==> MergeFilters(current, update).status == current.status
    ensures update.framework.None? ==> MergeFilters(current, update).framework == current.framework
    ensures update.riskLevel.None? ==> MergeFilters(current, update).riskLevel == current.riskLevel
    ensures MergeFilters(current, NoFilters) == current
  {
  }

  /** Only the first element is looked at: `['all', 'high']` clears the key, `['high', 'all']` keeps
      both values. */
  lemma OnlyFirstElementChecked(current: Filters, rest: seq<string>)
    ensures MergeFilters(current, Filters(Some(["all"] + rest), None, None, None)).severity.None?
    ensures MergeFilters(current, Filters(Some(["high", "all"]), None, None, None)).severity == Some(["high", "all"])
  {
  }

  /** Applying the same update twice changes nothing more. */
  lemma MergeFiltersIdempotent(current: Filters, update: Filters)
    ensures MergeFilters(MergeFilters(current, update), update) == MergeFilters(current, update)
  {
  }

  /** A query parameter of `URLSearchParams`, before percent-encoding. */
  datatype Param = Param(key: string, value: string)

  /** `params.append(key, values.join(','))` when `values?.length`, else nothing. */
  function ListParam(key: string, values: Option<seq<string>>): (ps: seq<Param>)
    ensures |ps| <= 1
    ensures |ps| == 1 <==> values.Some? && |values.value| > 0
    ensures |ps| == 1 ==> ps[0] == Param(key, Join(values.value, ","))
  {
    if values.Some? && |values.value| > 0 then [Param(key, Join(values.value, ","))] else []
  }

  /** The parameters of `fetchVulnerabilities`: severity, then status, then the page. */
  function VulnerabilityParams(filters: Filters, page: nat): (ps: seq<Param>)
    ensures 1 <= |ps| <= 3 && ps[|ps| - 1] == Param("page", NatToString(page))
  {
    ListParam("severity", filters.severity) + ListParam("status", filters.status) + [Param("page", NatToString(page))]
  }

  /** The parameters of `fetchCompliance`: framework, then `risk_level`, then the page. */
  function ComplianceParams(filters: Filters, page: nat): (ps: seq<Param>)
    ensures 1 <= |ps| <= 3 && ps[|ps| - 1] == Param("page", NatToString(page))
  {
    ListParam("framework", filters.framework) + ListParam("risk_level", filters.riskLevel) + [Param("page", NatToString(page))]
  }

  /** Vulnerability queries never carry the compliance filters, and an empty or absent filter sends no
      parameter: with neither severity nor status set, the page is the only parameter. */
  lemma VulnerabilityParamsShape(filters: Filters, page: nat)
    ensures forall p :: p in VulnerabilityParams(filters, page) ==> p.key in {"severity", "status", "page"}
    ensures (filters.severity.None? || filters.severity.value == []) && (filters.status.None? || filters.status.value == [])
            ==> VulnerabilityParams(filters, page) == [Param("page", NatToString(page))]
    ensures Param("severity", Join(filters.severity.GetOr([]), ",")) in VulnerabilityParams(filters, page)
            <==> filters.severity.Some? && filters.severity.value != []
  {
  }

  /** The same for compliance queries, whose keys are framework and `risk_level`. */
  lemma ComplianceParamsShape(filters: Filters, page: nat)
    ensures forall p :: p in ComplianceParams(filters, page) ==> p.key in {"framework", "risk_level", "page"}
    ensures Param("risk_level", Join(filters.riskLevel.GetOr([]), ",")) in ComplianceParams(filters, page)
            <==> filters.riskLevel.Some? && filters.riskLevel.value != []
  {
  }

  datatype Item = Item(id: string, title: string, status: string)

  /** A list response: the page of items and `totalPages`. */
  datatype ListPage = ListPage(items: seq<Item>, totalPages: int)

  datatype Request = Get(path: string, params: seq<Param>)

  const VulnerabilitiesPath := "/api/security/vulnerabilities"
  const VulnerabilityStatsPath := "/api/security/vulnerabilities/stats"
  const CompliancePath := "/api/security/compliance"
  const ComplianceStatsPath := "/api/security/compliance/stats"

  class SecurityStore {
    var socketOpen: bool
    var connected: bool
    var vulnerabilities: seq<Item>
    var vulnerabilityStats: Option<string>
    var vulnerabilityLoading: bool
    var vulnerabilityError: Option<string>
    var compliance: seq<Item>
    var complianceStats: Option<string>
    var complianceLoading: bool
    var complianceError: Option<string>
    var filters: Filters
    var page: nat
    var totalPages: int
    /** The GET requests issued so far. */
    var requests: seq<Request>

    /** The initial state. */
    constructor()
      ensures !socketOpen && !connected && vulnerabilities == [] && vulnerabilityStats.None?
      ensures !vulnerabilityLoading && vulnerabilityError.None? && compliance == [] && complianceStats.None?
      ensures !complianceLoading && complianceError.None? && filters == NoFilters && page == 1 && totalPages == 1
      ensures requests == []
    {
      socketOpen, connected := false, false;
      vulnerabilities, vulnerabilityStats, vulnerabilityLoading, vulnerabilityError := [], None, false, None;
      compliance, complianceStats, complianceLoading, complianceError := [], None, false, None;
      filters, page, totalPages := NoFilters, 1, 1;
      requests := [];
    }

    /** `fetchVulnerabilities` up to its `await`: loading on, error cleared, the query sent. */
    method StartFetchVulnerabilities()
      modifies this
      ensures vulnerabilityLoading && vulnerabilityError.None?
      ensures requests == old(requests) + [Get(VulnerabilitiesPath, VulnerabilityParams(filters, page))]
      ensures unchanged(this`vulnerabilities, this`filters, this`page, this`totalPages, this`compliance)
      ensures unchanged(this`complianceLoading, this`complianceError, this`vulnerabilityStats, this`complianceStats)
      ensures unchanged(this`socketOpen, this`connected)
    {
      vulnerabilityLoading, vulnerabilityError := true, None;
      requests := requests + [Get(VulnerabilitiesPath, VulnerabilityParams(filters, page))];
    }

    /** The rest of `fetchVulnerabilities`: loading off either way; the list and the page count are
        replaced on success, and only the error is set on failure. */
    method FinishFetchVulnerabilities(response: Option<ListPage>)
      modifies this
      ensures !vulnerabilityLoading
      ensures response.Some? ==> vulnerabilities == response.value.items && totalPages == response.value.totalPages
                                 && vulnerabilityError == old(vulnerabilityError)
      ensures response.None? ==> vulnerabilities == old(vulnerabilities) && totalPages == old(totalPages)
                                 && vulnerabilityError == Some("Error fetching vulnerabilities")
      ensures unchanged(this`filters, this`page, this`requests, this`compliance, this`complianceLoading)
      ensures unchanged(this`complianceError, this`vulnerabilityStats, this`complianceStats, this`socketOpen, this`connected)
    {
      if response.Some? {
        vulnerabilities, totalPages := response.value.items, response.value.totalPages;
      } else {
        vulnerabilityError := Some("Error fetching vulnerabilities");
      }
      vulnerabilityLoading := false;
    }

    /** `fetchVulnerabilityStats` up to its `await`: one GET of the statistics, and no flag is set. */
    method StartFetchVulnerabilityStats()
      modifies this`requests
      ensures requests == old(requests) + [Get(VulnerabilityStatsPath, [])]
    {
      requests := requests + [Get(VulnerabilityStatsPath, [])];
    }

    /** `fetchVulnerabilityStats`, once its response (or failure) is in. */
    method FinishFetchVulnerabilityStats(response: Option<string>)
      modifies this
      ensures response.Some? ==> vulnerabilityStats == response && vulnerabilityError == old(vulnerabilityError)
      ensures response.None? ==> vulnerabilityStats == old(vulnerabilityStats)
                                 && vulnerabilityError == Some("Error fetching vulnerability statistics")
      ensures unchanged(this`vulnerabilities, this`vulnerabilityLoading, this`filters, this`page, this`totalPages)
      ensures unchanged(this`requests, this`compliance, this`complianceLoading, this`complianceError, this`complianceStats)
      ensures unchanged(this`socketOpen, this`connected)
    {
      if response.Some? {
        vulnerabilityStats := response;
      } else {
        vulnerabilityError := Some("Error fetching vulnerability statistics");
      }
    }

    /** `fetchComplianceStats` up to its `await`: one GET of the statistics, and no flag is set. */
    method StartFetchComplianceStats()
      modifies this`requests
      ensures requests == old(requests) + [Get(ComplianceStatsPath, [])]
    {
      requests := requests + [Get(ComplianceStatsPath, [])];
    }

    /** `fetchComplianceStats`, once its response (or failure) is in. */
    method FinishFetchComplianceStats(response: Option<string>)
      modifies this
      ensures response.Some? ==> complianceStats == response && complianceError == old(complianceError)
      ensures response.None? ==> complianceStats == old(complianceStats)
                                 && complianceError == Some("Error fetching compliance statistics")
      ensures unchanged(this`vulnerabilities, this`vulnerabilityLoading, this`filters, this`page, this`totalPages)
      ensures unchanged(this`requests, this`compliance, this`complianceLoading, this`vulnerabilityError, this`vulnerabilityStats)
      ensures unchanged(this`socketOpen, this`connected)
    {
      if response.Some? {
        complianceStats := response;
      } else {
        complianceError := Some("Error fetching compliance statistics");
      }
    }

    /** `fetchCompliance` up to its `await`. */
    method StartFetchCompliance()
      modifies this
      ensures complianceLoading && complianceError.None?
      ensures requests == old(requests) + [Get(CompliancePath, ComplianceParams(filters, page))]
      ensures unchanged(this`vulnerabilities, this`filters, this`page, this`totalPages, this`compliance)
      ensures unchanged(this`vulnerabilityLoading, this`vulnerabilityError, this`vulnerabilityStats, this`complianceStats)
      ensures unchanged(this`socketOpen, this`connected)
    {
      complianceLoading, complianceError := true, None;
      requests := requests + [Get(CompliancePath, ComplianceParams(filters, page))];
    }

    /** The rest of `fetchCompliance`. */
    method FinishFetchCompliance(response: Option<ListPage>)
      modifies this
      ensures !complianceLoading
      ensures response.Some? ==> compliance == response.value.items && totalPages == response.value.totalPages
                                 && complianceError == old(complianceError)
      ensures response.None? ==> compliance == old(compliance) && totalPages == old(totalPages)
                                 && complianceError == Some("Error fetching compliance data")
      ensures unchanged(this`filters, this`page, this`requests, this`vulnerabilities, this`vulnerabilityLoading)
      ensures unchanged(this`vulnerabilityError, this`vulnerabilityStats, this`complianceStats, this`socketOpen, this`connected)
    {
      if response.Some? {
        compliance, totalPages := response.value.items, response.value.totalPages;
      } else {
        complianceError := Some("Error fetching compliance data");
      }
      complianceLoading := false;
    }

    /** `setFilters`: the merged filters, page 1, and a refetch of the vulnerabilities (started) and of
        their statistics (requested). */
    method SetFilters(update: Filters)
      modifies this
      ensures filters == MergeFilters(old(filters), update) && page == 1
      ensures vulnerabilityLoading && vulnerabilityError.None?
      ensures requests == old(requests) + [Get(VulnerabilitiesPath, VulnerabilityParams(filters, 1)),
                                           Get(VulnerabilityStatsPath, [])]
      ensures unchanged(this`vulnerabilities, this`totalPages, this`compliance, this`complianceLoading)
      ensures unchanged(this`complianceError, this`vulnerabilityStats, this`complianceStats, this`socketOpen, this`connected)
    {
      filters, page := MergeFilters(filters, update), 1;
      StartFetchVulnerabilities();
      StartFetchVulnerabilityStats();
    }

    /** `setPage`: only the page changes. */
    method SetPage(p: nat)
      modifies this`page
      ensures page == p
    {
      page := p;
    }

    /** `disconnectWebSocket`: closes and forgets an open socket; without one, nothing happens. */
    method DisconnectWebSocket()
      modifies this`socketOpen, this`connected
      ensures old(socketOpen) ==> !socketOpen && !connected
      ensures !old(socketOpen) ==> connected == old(connected) && !socketOpen
    {
      if socketOpen {
        socketOpen, connected := false, false;
      }
    }
  }
}
