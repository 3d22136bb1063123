/** Facts that hold between the host agent, the collector and the dashboard: whose tokens the gate
    accepts, which alert severities the collector's schema knows, how the agent routes meet the
    controller, and which key of the controller's agents the health card reads. */
module CrossChecks {
  import opened Wrappers
  import opened Text
  import opened Records
  import Auth
  import Agent
  import SecurityScanner
  import AgentController
  import AgentHealthMetrics

  /** A verifier that is sound for `t` under `secret`: it either rejects the encoded token or yields
      exactly the claims that were signed. */
  predicate SoundFor(verify: (string, string) -> Option<Auth.Claims>, encode: Token -> string, t: Token, secret: string)
  {
    var v := verify(encode(t), secret);
    v.None? || v == Some(t.claims)
  }

  /** An encoded JSON Web Token is three base64url parts joined by dots: never empty, never a space. */
  predicate WellFormed(encoded: string)
  {
    encoded != "" && ' ' !in encoded
  }

  /** The tokens of the scanning agent carry no `type` claim, so no agent path of the collector ever
      accepts them, whichever secret both sides use. */
  lemma ScannerTokenRejected(agentIdEnv: Option<string>, secretEnv: Option<string>, issuedAt: string,
                             path: string, backendSecretEnv: Option<string>, jwtSecret: string,
                             verify: (string, string) -> Option<Auth.Claims>, encode: Token -> string)
    requires Auth.IsAgentPath(path)
    requires WellFormed(encode(SecurityScanner.ScannerToken(agentIdEnv, secretEnv, issuedAt)))
    requires SoundFor(verify, encode, SecurityScanner.ScannerToken(agentIdEnv, secretEnv, issuedAt),
                      Auth.AgentSecret(backendSecretEnv))
    ensures var encoded := encode(SecurityScanner.ScannerToken(agentIdEnv, secretEnv, issuedAt));
      Auth.Authenticate(Some("Bearer " + encoded), path, backendSecretEnv, jwtSecret, verify).Unauthorized?
  {
    var t := SecurityScanner.ScannerToken(agentIdEnv, secretEnv, issuedAt);
    Auth.BearerHeader(encode(t));
  }

  /** The monitoring agent's tokens are accepted on agent paths once the signature checks out under the
      collector's agent secret, and the request's user is the agent's claim set. */
  lemma AgentTokenAccepted(agentIdEnv: Option<string>, secretEnv: Option<string>, issuedAt: string,
                           path: string, backendSecretEnv: Option<string>, jwtSecret: string,
                           verify: (string, string) -> Option<Auth.Claims>, encode: Token -> string)
    requires Auth.IsAgentPath(path)
    requires WellFormed(encode(Agent.AgentToken(agentIdEnv, secretEnv, issuedAt)))
    requires var t := Agent.AgentToken(agentIdEnv, secretEnv, issuedAt);
      verify(encode(t), Auth.AgentSecret(backendSecretEnv)) == Some(t.claims)
    ensures var t := Agent.AgentToken(agentIdEnv, secretEnv, issuedAt);
      Auth.Authenticate(Some("Bearer " + encode(t)), path, backendSecretEnv, jwtSecret, verify) == Auth.Next(t.claims)
  {
    var t := Agent.AgentToken(agentIdEnv, secretEnv, issuedAt);
    Auth.BearerHeader(encode(t));
  }

  /** Reading the same `AGENT_SECRET`, the agent and the collector sign and check with the same secret
      exactly when the variable is unset or non-empty: Python keeps an empty value, the collector's
      `||` replaces it with the default. */
  lemma SharedSecretAgrees(env: Option<string>)
    ensures (env.GetOr("default-secret") == Auth.AgentSecret(env)) <==> env != Some("")
  {
  }

  /** Any path with an `/agent/` segment is an agent path for the gate. */
  lemma AgentSegment(before: string, after: string)
    ensures Auth.IsAgentPath(before + "/agent/" + after)
  {
    ContainsAt("/agent/", "/agent/", 0);
    ContainsExtended(before, "/agent/", after, "/agent/");
  }

  /** The vulnerability upload path is an agent path for the gate. */
  lemma VulnerabilityPathIsAgentPath()
    ensures Auth.IsAgentPath(VulnerabilityScanPath)
  {
    AgentSegment("/api/security", "vulnerability-scan");
    assert VulnerabilityScanPath == "/api/security" + "/agent/" + "vulnerability-scan";
  }

  /** So is the compliance upload path. */
  lemma CompliancePathIsAgentPath()
    ensures Auth.IsAgentPath(ComplianceCheckPath)
  {
    AgentSegment("/api/security", "compliance-check");
    assert ComplianceCheckPath == "/api/security" + "/agent/" + "compliance-check";
  }

  /** The alert path is an agent path too. */
  lemma AlertPathIsAgentPath()
    ensures Auth.IsAgentPath(AlertPath)
  {
    AgentSegment("/api", "alert");
    assert AlertPath == "/api" + "/agent/" + "alert";
  }

  /** The severities the collector's alert schema accepts. */
  const AlertSchemaSeverities: set<string> := {"critical", "warning", "info"}

  /** Every resource alert has a severity the collector's schema accepts, but a scan-error alert's
      `error` severity is outside it. */
  lemma AlertSeveritiesAgainstSchema(title: string, description: string, metric: string, value: real,
                                     threshold: real, message: string, now: int)
    ensures Agent.MetricAlert(title, description, metric, value, threshold, now).severity in AlertSchemaSeverities
    ensures Agent.ScanErrorAlert(message, now).severity !in AlertSchemaSeverities
  {
  }

  /** The members of the agent controller, and the one name the agent router uses that it lacks. */
  datatype Handler =
    | DeployAgent | GetDeployedAgents | StopAgent | Heartbeat | GetAgentStatus
    | GetAgentAlerts | GetAgentVulnerabilities | GetAgentCompliance
    | UpdateAgentStatus

  /** Whether the agent controller defines the member. */
  predicate Defined(h: Handler)
  {
    !h.UpdateAgentStatus?
  }

  /** One route of the agent router: the HTTP verb, the path and the controller member it names. */
  datatype Route = Route(verb: string, path: string, handler: Handler)

  const AgentRoutes: seq<Route> := [
    Route("POST", "/deploy", DeployAgent),
    Route("GET", "/deployed", GetDeployedAgents),
    Route("POST", "/:id/status", UpdateAgentStatus),
    Route("GET", "/:id/status", GetAgentStatus),
    Route("GET", "/:id/alerts", GetAgentAlerts),
    Route("GET", "/:id/vulnerabilities", GetAgentVulnerabilities),
    Route("GET", "/:id/compliance", GetAgentCompliance)
  ]

  predicate Routed(routes: seq<Route>, h: Handler)
  {
    exists i :: 0 <= i < |routes| && routes[i].handler == h
  }

  /** The status POST is routed to a member the controller does not define, while the controller's
      `heartbeat` and `stopAgent` are reachable by no route of this router. */
  lemma RoutesAgainstController()
    ensures Routed(AgentRoutes, UpdateAgentStatus) && !Defined(UpdateAgentStatus)
    ensures Defined(Heartbeat) && !Routed(AgentRoutes, Heartbeat)
    ensures Defined(StopAgent) && !Routed(AgentRoutes, StopAgent)
  {
    assert AgentRoutes[2].handler == UpdateAgentStatus;
  }

  /** A registry record as the health card reads it from `GET /api/agents/deployed`: the JSON carries
      the record's `id`, `name` and `lastActive`, and no `_id` key; the structured readings are the
      parsed `systemInfo`. */
  function AsRead(a: AgentController.DeployedAgent, info: Option<AgentHealthMetrics.SystemInfo>)
    : AgentHealthMetrics.DeployedAgent
  {
    AgentHealthMetrics.DeployedAgent(None, a.name, info, a.lastActive)
  }

  /** The health card keys its metrics by `_id`, which the controller's records do not have, so every
      metric built from the controller's reply has an undefined id, whatever the agent's own `id`. */
  lemma HealthMetricsLoseAgentId(agents: seq<AgentController.DeployedAgent>,
                                 infos: seq<Option<AgentHealthMetrics.SystemInfo>>, i: nat)
    requires |infos| == |agents| && i < |agents|
    ensures var m := AgentHealthMetrics.ToMetric(AsRead(agents[i], infos[i]));
      m.id.None? && m.id != Some(agents[i].id) && m.name == agents[i].name && m.lastUpdated == agents[i].lastActive
  {
  }
}
