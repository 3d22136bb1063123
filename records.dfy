/** The records the host agent scripts build and post to the collector, and the
    POST requests themselves. Time stamps are seconds since an epoch (the
    scripts render them with `isoformat()`). */
module Records {
  import opened Wrappers

  /** A JSON Web Token's claim set (RFC 7519), string-valued claims only. */
  type Claims = map<string, string>

  /** A bearer token: the claims, signed with HS256 (section 3.2 of RFC 7518) under `secret`. */
  datatype Token = Token(claims: Claims, secret: string)

  datatype Vulnerability = Vulnerability(
    title: string,
    description: string,
    severity: string,
    cvssScore: real,
    affectedComponent: string,
    affectedVersions: seq<string>,
    remediation: string,
    discoveredAt: int,
    status: string,
    scanSource: string,
    assetId: string,
    assetType: string,
    tags: seq<string>)

  datatype ComplianceControl = ComplianceControl(
    framework: string,
    controlId: string,
    controlName: string,
    description: string,
    status: string,
    evidence: string,
    lastChecked: int,
    nextCheck: int,
    riskLevel: string)

  /** The `metric`, `value` and `threshold` keys of a resource alert. */
  datatype MetricReading = MetricReading(metric: string, value: real, threshold: real)

  datatype AgentAlert = AgentAlert(
    title: string,
    description: string,
    severity: string,
    source: string,
    reading: Option<MetricReading>,
    timestamp: int)

  /** A scan upload: a dictionary with optional `vulnerabilities` and `compliance` keys. */
  datatype ScanPayload = ScanPayload(
    vulnerabilities: Option<seq<Vulnerability>>,
    compliance: Option<seq<ComplianceControl>>)

  datatype Body = ScanBody(payload: ScanPayload) | AlertBody(alert: AgentAlert)

  /** One POST to the collector: the path under API_URL, the bearer token, the JSON body. */
  datatype Request = Request(path: string, token: Token, body: Body)

  const VulnerabilityScanPath := "/api/security/agent/vulnerability-scan"
  const ComplianceCheckPath := "/api/security/agent/compliance-check"
  const AlertPath := "/api/agent/alert"

  /** The outcome of one shell or PowerShell probe: its standard output, or the exception it raised. */
  datatype Probe = Output(text: string) | Raised(message: string)

  const Day := 86400
}
