# SIEM dashboard: a verified model of its decision logic

The SIEM dashboard has three parts:

- A host agent, written in Python. It watches CPU, memory and disk. It runs Windows compliance checks, inventories installed software, runs nmap and osquery, and posts alerts and scan results to a collector.
- The collector, written in TypeScript and Express. It keeps a registry of deployed agents, gates every request on a JSON Web Token (RFC 7519, signed with HS256 as in section 3.2 of RFC 7518), and generates AI insights.
- A React dashboard. Its stores, pages and cards filter, count, score and colour what the collector serves.

This project models, in Dafny, the parts of each that decide something:

- the agent's detectors, compliance rules, parsers, normalisers and upload chunking;
- the collector's agent registry, authentication gate and insight caching;
- the dashboard's filter reducers, query parameters, list updates, scores, status bands and form rules.

It then proves what those parts promise.

How the source is represented:

- There is one module per source file. `wrappers.dfy`, `text.dfy`, `lists.dfy`, `records.dfy` and `math_round.dfy` hold shared helpers.
- Python loops are methods with loop invariants, each proved against a specification function.
- State that the source mutates in place is a Dafny class whose methods state their whole new state. These are the agent registry, the three stores, the page and card state, and the osquery manager.
- An asynchronous store action is split at its `await`. A `Start…` method issues the request into an outbox. A `Finish…` method takes the response, or `None` for a failure.
- Operating-system probes, HTTP answers, clocks, random ids, JWT signing and verification, the e-mail format check and the language-model call are parameters: values or oracle functions.
- Percentages and scores are exact `real`s or ratios of integers, and `Math.round` is rounding half up of the exact ratio.

## Model

| member | source | states |
|---|---|---|
| SecurityScanner.ScannerToken | agent/src/security_scanner.py:19-28 | the scanner's token carries only `agent_id` (default `default`) and `timestamp`, no `type` claim, and is signed with AGENT_SECRET (default `default-secret`) |
| SecurityScanner.CvssAgreesWithStandard | agent/src/security_scanner.py:232-241 | on every score in (0, 10] the severity names the same band as section 5 of the CVSS v3.1 specification; a score of 0.0 is `low`, where the standard says none |
| SecurityScanner.CvssMonotone | agent/src/security_scanner.py:232-241 | a higher score never maps to a lower severity |
| SecurityScanner.CvssBoundaries | agent/src/security_scanner.py:234-241 | 4.0, 7.0 and 9.0 belong to the upper band (medium, high, critical); just below 4.0 and 0.0 are low |
| SecurityScanner.ChunksCount | agent/src/security_scanner.py:253-257 | n records make ceil(n/50) chunks |
| SecurityScanner.ChunksSizes | agent/src/security_scanner.py:257-258 | every chunk holds 1 to 50 records and all but the last hold exactly 50 |
| SecurityScanner.ChunksConcat | agent/src/security_scanner.py:257-258 | the chunks concatenated in order are the original records |
| SecurityScanner.ChunkAt | agent/src/security_scanner.py:257-258 | chunk k is the slice starting at record 50k, up to 50 long |
| SecurityScanner.ChunksOf120 | agent/src/security_scanner.py:253-258 | 120 records go out as 50, 50 and 20 |
| SecurityScanner.FirstRejection | agent/src/security_scanner.py:257-266 | the index at which the upload stops: every earlier chunk was accepted and that one was refused, or all were accepted |
| SecurityScanner.FirstRejectionIs | agent/src/security_scanner.py:257-266 | those three properties determine the stopping index uniquely |
| SecurityScanner.ChunkFailureStopsUpload | agent/src/security_scanner.py:257-279 | when chunk k is refused, chunks before it were each posted once, chunk k was posted, nothing after it is posted, and the error is swallowed |
| SecurityScanner.FullUploadReassembles | agent/src/security_scanner.py:252-266 | with every chunk accepted, request j is chunk j posted to the vulnerability-scan path with the call's token, and the posted bodies concatenate to the whole list |
| SecurityScanner.UnknownEndpointSendsNothing | agent/src/security_scanner.py:252-277 | an unknown endpoint, or a payload without the endpoint's key, posts nothing |
| SecurityScanner.SendResults | agent/src/security_scanner.py:243-279 | the loop posts exactly the requests of the specification above, one token minted per call |
| SecurityScanner.CheckWindowsSecurity | agent/src/security_scanner.py:67-171 | the controls are the defender, firewall, password-policy and update-service controls in that order, each present iff its probe ran (the password control always) |
| SecurityScanner.DefenderRule | agent/src/security_scanner.py:72-88 | antivirus is compliant iff the stripped output, lower-cased, is `true`, otherwise non-compliant; high risk, next check one day on |
| SecurityScanner.FirewallRule | agent/src/security_scanner.py:93-109 | the firewall is compliant iff the output contains `True` (case-sensitive); high risk |
| SecurityScanner.UpdateServiceRule | agent/src/security_scanner.py:151-167 | the update service is compliant iff its state, lower-cased, is `running`; high risk |
| SecurityScanner.PasswordLengthReadsBack | agent/src/security_scanner.py:120-130 | output that is the decimal rendering of n reads back as n, compliant iff n >= 8 |
| SecurityScanner.PasswordRule | agent/src/security_scanner.py:114-135 | compliant iff the concatenated digits make at least 8; output without digits reads as 0; medium risk, next check 30 days on |
| SecurityScanner.PasswordProbeFailure | agent/src/security_scanner.py:136-148 | a failed password probe still yields a non-compliant, high-risk SOC2 CC6.1 control whose evidence is `Unable to check password policy: ` followed by the error's message (which reads back from it), checked now and due again one day later |
| SecurityScanner.ComplianceBattery | agent/src/security_scanner.py:67-171 | whatever the probes do, the list holds the password control plus one control per probe that ran, so it is never empty |
| SecurityScanner.ParseProgramLineAccepts | agent/src/security_scanner.py:206-209 | a line yields a program iff it is non-empty, does not contain `Name` and has at least two whitespace-separated tokens |
| SecurityScanner.ParseProgramLineRoundTrip | agent/src/security_scanner.py:208-211 | the name re-splits into all tokens but the last and the version is the last token |
| SecurityScanner.ParseProgramLineExamples | agent/src/security_scanner.py:207 | the header line and the empty line are skipped |
| SecurityScanner.ProgramFindingsFromLines | agent/src/security_scanner.py:206-226 | one `info` finding per parsable line, each built from such a line |
| SecurityScanner.ScanDistributions | agent/src/security_scanner.py:178-197 | the package loop yields a `medium` finding per unversioned package, up to the first failed read |
| SecurityScanner.ScanInstalledPrograms | agent/src/security_scanner.py:200-228 | the program loop yields the findings of the stripped table's lines, in order |
| SecurityScanner.ScanLines | agent/src/security_scanner.py:206-226 | the loop over the table's lines yields exactly the findings of the parsable lines, one per line, in line order |
| SecurityScanner.CheckInstalledSoftware | agent/src/security_scanner.py:173-230 | package findings first, then program findings; a programs probe that raised adds none |
| SecurityScanner.ScriptFindingsMembers | agent/src/security_scanner.py:43-60 | a port's findings are exactly its scripts whose output contains `VULNERABLE` |
| SecurityScanner.NmapFindingsMembers | agent/src/security_scanner.py:38-60 | a network finding is a finding of one of the scanned ports, and every such finding is reported |
| SecurityScanner.NmapFindingIsVulnerableScript | agent/src/security_scanner.py:38-60 | hence a network finding is exactly a `VULNERABLE` script result on a scanned port |
| SecurityScanner.ScanPort | agent/src/security_scanner.py:43-60 | the script loop of one port yields its findings in order |
| SecurityScanner.RunNmapScan | agent/src/security_scanner.py:30-65 | the findings of every port in scan order; a scan that raised yields none |
| SecurityScanner.ComplianceUploadIsOneRequest | agent/src/security_scanner.py:267-275 | compliance results go out as one request carrying the whole list |
| SecurityScanner.ScanCycle | agent/src/security_scanner.py:285-314 | one cycle uploads network then software findings (chunked, only when some exist) and the never-empty compliance list |
| Agent.AgentToken | agent/src/agent.py:29-39 | the agent's token carries `agent_id` (default `default`), `timestamp` and `type: agent`, signed with AGENT_SECRET (default `default-secret`) |
| Agent.AlertRequests | agent/src/agent.py:55-71 | one post per alert |
| Agent.AlertRequestsAt | agent/src/agent.py:55-71 | the i-th post goes to the alert path with the i-th alert's body and the token minted for that post |
| Agent.EachAlertOwnToken | agent/src/agent.py:29-39 | each post carries the agent's token issued at that post's own clock reading, so posts minted at different times carry different tokens |
| Agent.ConfiguredThresholds | agent/src/agent.py:25-27 | CPU and memory thresholds default to 80, the disk threshold to 90; a configured value is used as given |
| Agent.CheckPartitions | agent/src/agent.py:133-148 | the disk loop posts the alerts of the readable partitions over the threshold, in order, skipping unreadable ones, each with a token minted for that post |
| Agent.CheckSystemMetrics | agent/src/agent.py:100-151 | one tick posts exactly the tick's alerts: CPU, then memory, then disks, ending early when a reading raises; the k-th post carries the agent's token issued at the k-th clock reading |
| Agent.AlertRequestsAppend | agent/src/agent.py:55-71 | posting two lists of alerts is posting their concatenation, the second list's tokens counted on from the first's |
| Agent.PostedInTurn | agent/src/agent.py:100-151 | the CPU and memory posts followed by the disk posts are the posts of all the tick's alerts |
| Agent.DiskAlertsPerPartition | agent/src/agent.py:133-148 | there is one disk alert per readable partition strictly over the threshold, and each comes from one |
| Agent.TickAlertsShape | agent/src/agent.py:106-146 | every alert of a tick is a `warning` from `system` carrying its metric and a value strictly above its threshold |
| Agent.AtThresholdNoAlert | agent/src/agent.py:106-136 | readings equal to their thresholds raise nothing |
| Agent.PersistentBreachRealerts | agent/src/agent.py:102-116 | the monitor keeps no state: a CPU reading over the threshold raises the CPU alert on every tick |
| Agent.TickAlertsLayout | agent/src/agent.py:104-148 | at most one CPU and one memory alert per tick, in that order, followed by the disk alerts |
| Agent.RunPowershellCommand | agent/src/agent.py:41-53 | the stripped output, `""` on a non-zero exit, and no value when the command could not run |
| Agent.ScanWindowsVulnerabilities | agent/src/agent.py:155-181 | one high-severity update finding iff the update log mentions `Failed` or `Error`, none otherwise |
| Agent.FailedCommandNoFinding | agent/src/agent.py:51-161 | a command exiting non-zero reads as `""`, which reports nothing |
| Agent.SecurityResultRequests | agent/src/agent.py:73-98 | at most one request: to the vulnerability-scan path for `vulnerabilities`, to the compliance path for `compliance`, none for any other endpoint |
| Agent.RunSecurityScans | agent/src/agent.py:192-224 | a scan that raised posts one scan-error alert; otherwise update findings are posted only when some exist, and no compliance upload happens |
| Agent.ScanErrorAlertShape | agent/src/agent.py:218-224 | the scan-error alert has severity `error` and source `security` |
| SecurityScan.CheckOpenPorts | agent/src/security_scan.py:8-18 | the loop returns the open ports of the specification function below |
| SecurityScan.ListeningPortsAreListeners | agent/src/security_scan.py:11-17 | the open ports are exactly the `LISTEN` connections, in order, each with its port, address and pid |
| SecurityScan.CheckRunningProcesses | agent/src/security_scan.py:20-36 | the loop returns the suspicious processes of the specification function below, passing over unreadable ones |
| SecurityScan.SuspiciousAreFiltered | agent/src/security_scan.py:23-35 | exactly the readable processes with a suspicious path are reported, in order; an unreadable one never is |
| SecurityScan.SuspiciousPathRule | agent/src/security_scan.py:27 | a path is suspicious iff, lower-cased, it contains `temp` or `tmp`; a missing path never is |
| SecurityScan.CommandLineJoin | agent/src/security_scan.py:32 | a missing command line is reported as `""`, a present one joined with single spaces |
| SecurityScan.CollectPortFindings | agent/src/security_scan.py:65-72 | the port loop returns the port findings of the specification function |
| SecurityScan.CollectProcessFindings | agent/src/security_scan.py:75-81 | the process loop returns one finding per suspicious process |
| SecurityScan.PortFindingsAreHighPorts | agent/src/security_scan.py:65-72 | port findings are exactly the ports above 49152, in order, each `medium` of type `open_port` |
| SecurityScan.HighPortBoundary | agent/src/security_scan.py:66 | the comparison is strict: 49152 is not reported, 49153 is |
| SecurityScan.ProcessFindingsOnePerProcess | agent/src/security_scan.py:75-81 | each suspicious process yields exactly one `high` finding, in order |
| SecurityScan.RunSecurityScan | agent/src/security_scan.py:48-89 | None iff listing connections or processes raised; otherwise port findings then process findings, the placeholder integrity answers and no vulnerabilities |
| OsqueryManager.Get | agent/src/osquery_manager.py:95-101 | `row.get(key)`: a value iff the column is present, and then that column's value |
| OsqueryManager.FirstUsable | agent/src/osquery_manager.py:60-63 | None iff no candidate is a non-empty path naming a file; otherwise a usable candidate, the first one |
| OsqueryManager.FindOsquery | agent/src/osquery_manager.py:37-63 | the search loop returns the first usable candidate among the platform's fixed paths followed by the PATH hit |
| OsqueryManager.PathHitIsLastResort | agent/src/osquery_manager.py:40-62 | when a fixed location is usable, the PATH hit is never chosen over it |
| OsqueryManager.ProcessRenames | agent/src/osquery_manager.py:90-103 | process records are of kind `process`; `cmdline`, `parent` and `uid` become `command`, `parent_pid` and `user_id`, the other columns keep their names |
| OsqueryManager.NetworkRenames | agent/src/osquery_manager.py:112-123 | connection records are of kind `network_connection`; `name`, `path`, `port` and `address` become `process_name`, `process_path`, `local_port` and `local_address` |
| OsqueryManager.FormatSystemInfo | agent/src/osquery_manager.py:126-143 | None iff there is no result, no row, or an empty first row; otherwise the record of the first row |
| OsqueryManager.SystemInfoReadsFirstRowOnly | agent/src/osquery_manager.py:128-131 | rows after the first do not affect the system record |
| OsqueryManager.FormatProcessData | agent/src/osquery_manager.py:84-104 | one process record per row, in order; no result gives none |
| OsqueryManager.FormatNetworkData | agent/src/osquery_manager.py:106-124 | one connection record per row, in order; no result gives none |
| OsqueryManager.OSQueryManager.constructor | agent/src/osquery_manager.py:10-13 | the binary path is the first usable candidate, searched once at construction |
| OsqueryManager.OSQueryManager.RunQuery | agent/src/osquery_manager.py:65-82 | rows iff the binary is known, the run exits with status 0 and its output parses, and then exactly the parsed rows |
| OsqueryManager.OSQueryManager.CollectAllData | agent/src/osquery_manager.py:145-165 | without the binary, no processes, no connections and no system record; with it, each part comes from its own query, so one failed query empties only its own part |
| OsqueryManager.RunQueryFailures | agent/src/osquery_manager.py:67-82 | no binary, a non-zero exit, an exception or unparsable output each give None |
| AgentController.FirstWithId | backend/src/controllers/agentController.ts:38 | `find` by id: none iff no agent has the id, otherwise the index of an agent that has it, the first one |
| AgentController.Stopped | backend/src/controllers/agentController.ts:36-47 | stopping keeps the length; an unknown id changes nothing; otherwise only the first agent with the id changes, to `stopped` and last active now |
| AgentController.Heartbeaten | backend/src/controllers/agentController.ts:49-62 | a heartbeat keeps the length; an unknown id changes nothing; otherwise only the first agent with the id takes the reported status and system info and is last active now |
| AgentController.StatusOf | backend/src/controllers/agentController.ts:64-74 | 404 iff no agent has the id, otherwise the status of an agent with that id |
| AgentController.AgentRegistry.constructor | backend/src/controllers/agentController.ts:13-14 | the registry starts empty |
| AgentController.AgentRegistry.DeployAgent | backend/src/controllers/agentController.ts:17-30 | one running agent, deployed and last active now, is appended and returned |
| AgentController.AgentRegistry.GetDeployedAgents | backend/src/controllers/agentController.ts:32-34 | the whole list is returned and nothing changes |
| AgentController.AgentRegistry.StopAgent | backend/src/controllers/agentController.ts:36-47 | the registry becomes the stopped registry; the reply is `stopped` for a known id and 404 otherwise |
| AgentController.AgentRegistry.Heartbeat | backend/src/controllers/agentController.ts:49-62 | the registry takes the heartbeat; the reply is the updated record for a known id and 404 otherwise |
| AgentController.AgentRegistry.GetAgentStatus | backend/src/controllers/agentController.ts:64-74 | answers the status of the first agent with the id, or 404, and changes nothing |
| AgentController.AgentRegistry.GetAgentData | backend/src/controllers/agentController.ts:76-86 | the alerts, vulnerabilities and compliance handlers answer null and change nothing |
| AgentController.StopIsSignalled | backend/src/controllers/agentController.ts:36-74 | after a stop of a known id, the next status poll answers `stopped` |
| AgentController.FirstWithIdIs | backend/src/controllers/agentController.ts:38 | `find` is determined by the ids: an index with the id and none before it is the answer |
| AgentController.UpdatesKeepIds | backend/src/controllers/agentController.ts:39-57 | neither a stop nor a heartbeat changes which agent any id finds |
| AgentController.SameIdsSameFind | backend/src/controllers/agentController.ts:38 | two registries with the same ids in the same order find the same index for every id |
| AgentController.RegistryNeverShrinks | backend/src/controllers/agentController.ts:27-57 | deploying adds one agent and no handler removes one |
| AgentController.UnknownIdIsNotFound | backend/src/controllers/agentController.ts:44-73 | an unknown id leaves the registry as it was and answers 404 to a status poll |
| AgentController.HeartbeatOverridesStop | backend/src/controllers/agentController.ts:40-55 | a heartbeat after a stop wins: the next poll answers the status the agent reported |
| AgentController.DuplicateIdShadowed | backend/src/controllers/agentController.ts:38-41 | with two agents sharing an id, a stop never touches the later one |
| Auth.BearerToken | backend/src/middleware/auth.ts:14-17 | a token iff the header splits on spaces into at least two parts with a non-empty second part; that part holds no space |
| Auth.AgentSecret | backend/src/middleware/auth.ts:22 | never empty; a set, non-empty AGENT_SECRET is used as is |
| Auth.Authenticate | backend/src/middleware/auth.ts:12-49 | no token answers `No token provided`; a request goes through only with a token |
| Auth.AgentPathIgnoresJwtSecret | backend/src/middleware/auth.ts:20-40 | on a path containing `/agent/` the JWT secret makes no difference |
| Auth.AgentPathDecision | backend/src/middleware/auth.ts:20-40 | an agent path goes through iff the token verifies under the agent secret and its claims say `type: agent`, with `req.user` the claims; `Invalid agent token` when it does not verify, `Invalid agent token type` when the type is wrong |
| Auth.OtherPathDecision | backend/src/middleware/auth.ts:42-49 | any other path goes through iff the token verifies under the JWT secret, whatever its claims; otherwise `Invalid token` |
| Auth.BearerHeader | backend/src/middleware/auth.ts:14 | the header `Bearer <token>` yields the token |
| Auth.HeaderWithoutSpace | backend/src/middleware/auth.ts:14-17 | a header without a space carries no token |
| CrossChecks.ScannerTokenRejected | agent/src/security_scanner.py:19-28 | the scanner's tokens lack `type: agent`, so every agent path of the collector answers 401 to them (see backend/src/middleware/auth.ts:30) |
| CrossChecks.AgentTokenAccepted | agent/src/agent.py:29-39 | the monitoring agent's tokens go through on agent paths when they verify under the shared secret (see backend/src/middleware/auth.ts:26-32) |
| CrossChecks.SharedSecretAgrees | backend/src/middleware/auth.ts:22 | the agent's `os.getenv('AGENT_SECRET', 'default-secret')` and the gate's `AGENT_SECRET \|\| 'default-secret'` agree unless the variable is set to the empty string |
| CrossChecks.AgentSegment | backend/src/middleware/auth.ts:20 | any path with an `/agent/` segment takes the agent branch |
| CrossChecks.VulnerabilityPathIsAgentPath | agent/src/security_scanner.py:261 | the vulnerability upload path takes the agent branch |
| CrossChecks.CompliancePathIsAgentPath | agent/src/security_scanner.py:270 | the compliance upload path takes the agent branch |
| CrossChecks.AlertPathIsAgentPath | agent/src/agent.py:64 | the alert path takes the agent branch |
| CrossChecks.AlertSeveritiesAgainstSchema | agent/src/agent.py:218-224 | resource alerts use `warning`, which the alert schema accepts (backend/src/models/Alert.ts:22-26), while the scan-error alert's `error` is outside it |
| CrossChecks.HealthMetricsLoseAgentId | src/components/dashboard/AgentHealthMetrics.tsx:91-92 | the controller's records carry `id` and no `_id` (see backend/src/controllers/agentController.ts:17-30), so every metric the health card builds from them has an undefined id |
| CrossChecks.RoutesAgainstController | backend/src/routes/agentRoutes.ts:7-19 | `POST /:id/status` names `updateAgentStatus`, which the controller does not define, while the controller's `heartbeat` and `stopAgent` have no route |
| AiInsights.CalculateSystemHealth | backend/src/controllers/aiInsightsController.ts:26-33 | no agents give 0 |
| AiInsights.HealthSumBounds | backend/src/controllers/aiInsightsController.ts:29-32 | the running total of n healths each in [lo, hi] lies in [n·lo, n·hi] |
| AiInsights.SystemHealthBounds | backend/src/controllers/aiInsightsController.ts:26-33 | the mean health lies between the least and the greatest health counted |
| AiInsights.SilentAgentCountsAsZero | backend/src/controllers/aiInsightsController.ts:30-31 | an agent without a health figure counts as 0: one agent at 100 and one silent agent average 50 |
| AiInsights.MapAgentMetrics | backend/src/controllers/aiInsightsController.ts:35-45 | one metrics entry per agent |
| AiInsights.AgentMetricsRenames | backend/src/controllers/aiInsightsController.ts:36-43 | entry i is agent i's name and health with `cpu_usage` as `cpu` and `memory_percent` as `memory`, missing fields staying missing |
| AiInsights.GatherData | backend/src/controllers/aiInsightsController.ts:128-135 | the critical count is at most the number of alerts; the recent incidents are the first min(10, n) alerts |
| AiInsights.CriticalAlertsCounted | backend/src/controllers/aiInsightsController.ts:131 | the critical count is 0 iff no alert is `critical`, and all of them when every alert is |
| AiInsights.ParseAiSettings | backend/src/controllers/aiInsightsController.ts:10-13 | settings parse iff the provider is `openai` or `anthropic` and the key is non-empty, keeping both |
| AiInsights.SelectProvider | backend/src/controllers/aiInsightsController.ts:117-122 | the Anthropic client iff the stored provider is `anthropic`; OpenAI for anything else, including none |
| AiInsights.Analyses | backend/src/controllers/aiInsightsController.ts:125-165 | three answers, one per insight type, iff every model call succeeds |
| AiInsights.GenerateInsights | backend/src/controllers/aiInsightsController.ts:80-172 | no user id answers `User ID required`; no key answers `AI API key not configured`; insights are answered only for a user with a key |
| AiInsights.LiveInsightsServed | backend/src/controllers/aiInsightsController.ts:94-104 | while a stored insight is live, the live ones are served and the agents, alerts and model make no difference |
| AiInsights.FreshInsightsGenerated | backend/src/controllers/aiInsightsController.ts:106-167 | otherwise exactly three insights are created, one per type in order, for the user, each expiring 24 hours after the request and holding its model answer |
| AiInsights.GetInsights | backend/src/controllers/aiInsightsController.ts:174-192 | no user id is refused; otherwise exactly the stored insights that are still live, in stored order |
| AiInsights.GeneratedInsightsCached | backend/src/controllers/aiInsightsController.ts:161-185 | freshly generated insights are served for the next 24 hours and not after |
| AiInsights.UpdateAiSettings | backend/src/controllers/aiInsightsController.ts:194-209 | settings are saved iff the user has preferences and the body passes the schema; then the provider and key are stored as given |
| AiInsights.SavedSettingsEnableInsights | backend/src/controllers/aiInsightsController.ts:90-202 | saved settings pass the key check of generation and select the provider the schema accepted |
| SecurityStore.MergeKey | src/stores/securityStore.ts:227-233 | an absent key is kept, a key whose first element is `all` is deleted, and any other array, the empty one included, replaces the key |
| SecurityStore.MergeFilters | src/stores/securityStore.ts:218-262 | a key the update leaves out is kept; a key it names ends up either cleared or holding the update's values |
| SecurityStore.MergeFiltersKeys | src/stores/securityStore.ts:218-262 | keys the update leaves out are untouched, and the empty update changes nothing |
| SecurityStore.OnlyFirstElementChecked | src/stores/securityStore.ts:228 | only the first element is compared with `all`: `['all', …]` clears the key, `['high', 'all']` is kept as given |
| SecurityStore.MergeFiltersIdempotent | src/stores/securityStore.ts:218-262 | applying the same filter update twice equals applying it once |
| SecurityStore.ListParam | src/stores/securityStore.ts:120-121 | at most one parameter, present iff the array is set and non-empty, whose value is the comma-joined array |
| SecurityStore.VulnerabilityParams | src/stores/securityStore.ts:119-122 | one to three parameters, the page always last |
| SecurityStore.ComplianceParams | src/stores/securityStore.ts:157-160 | one to three parameters, the page always last |
| SecurityStore.VulnerabilityParamsShape | src/stores/securityStore.ts:119-122 | vulnerability queries use only the keys severity, status and page; with no set filter the page is the only parameter; the severity parameter is sent iff a non-empty severity filter is set |
| SecurityStore.ComplianceParamsShape | src/stores/securityStore.ts:157-160 | compliance queries use only framework, `risk_level` and page; `risk_level` is sent iff a non-empty risk-level filter is set |
| SecurityStore.SecurityStore.constructor | src/stores/securityStore.ts:53-66 | empty lists, no statistics, no flags or errors, no filters, page 1 of 1, no socket |
| SecurityStore.SecurityStore.StartFetchVulnerabilities | src/stores/securityStore.ts:114-125 | the loading flag is set, the error cleared, and one GET of the vulnerability list with the current filters and page is issued; nothing else changes |
| SecurityStore.SecurityStore.FinishFetchVulnerabilities | src/stores/securityStore.ts:128-139 | loading ends; a response replaces the list and the page count; a failure keeps them and sets the fixed error text |
| SecurityStore.SecurityStore.StartFetchVulnerabilityStats | src/stores/securityStore.ts:142-144 | one GET of `/api/security/vulnerabilities/stats` with no parameters is issued; no loading flag or error is touched |
| SecurityStore.SecurityStore.FinishFetchVulnerabilityStats | src/stores/securityStore.ts:142-150 | a response replaces the statistics; a failure keeps them and sets the statistics error text; nothing else changes |
| SecurityStore.SecurityStore.StartFetchCompliance | src/stores/securityStore.ts:152-163 | the compliance loading flag is set, its error cleared, and one GET of the compliance list is issued |
| SecurityStore.SecurityStore.FinishFetchCompliance | src/stores/securityStore.ts:166-177 | loading ends; a response replaces the compliance list and the page count; a failure keeps them and sets the fixed error text |
| SecurityStore.SecurityStore.StartFetchComplianceStats | src/stores/securityStore.ts:179-181 | one GET of `/api/security/compliance/stats` with no parameters is issued; no loading flag or error is touched |
| SecurityStore.SecurityStore.FinishFetchComplianceStats | src/stores/securityStore.ts:180-188 | a response replaces the compliance statistics; a failure keeps them and sets the statistics error text |
| SecurityStore.SecurityStore.SetFilters | src/stores/securityStore.ts:218-268 | the filters become the merge, the page goes back to 1, and the vulnerability list and statistics are fetched again (and only those) |
| SecurityStore.SecurityStore.SetPage | src/stores/securityStore.ts:270 | only the page changes |
| SecurityStore.SecurityStore.DisconnectWebSocket | src/stores/securityStore.ts:105-111 | an open socket is closed and the store is disconnected; without a socket nothing changes |
| AlertStore.MergeFilters | src/stores/alertStore.ts:140-146 | every key the update mentions takes the update's value, every other key keeps the current one |
| AlertStore.MergeFiltersLaws | src/stores/alertStore.ts:140-146 | the shallow merge: a mentioned key wins, an unmentioned one is kept, the empty update changes nothing, and two updates in a row act like their merge |
| AlertStore.ListParam | src/stores/alertStore.ts:85-86 | an array filter yields one parameter iff it is set, even when empty, valued with its elements joined by commas |
| AlertStore.TextParam | src/stores/alertStore.ts:87-88 | a date filter yields one parameter iff it is set and non-empty, valued with the date itself |
| AlertStore.AlertParams | src/stores/alertStore.ts:82-89 | one to six parameters: the page first with its number, then the filter keys, each at most once, in the order severity, status, startDate, endDate, source |
| AlertStore.AlertParamsMembers | src/stores/alertStore.ts:82-89 | a parameter is sent iff it is the page with its number or a filter that passes its test, with that filter's rendered value |
| AlertStore.AlertParamsSent | src/stores/alertStore.ts:82-89 | each of the five filters is sent iff its test lets it through (arrays whenever set, even empty; dates only when non-empty), with the comma-joined array or the date as its value, and the page with its own number |
| AlertStore.UnfilteredParams | src/stores/alertStore.ts:82-89 | with no filter the page is the only parameter |
| AlertStore.ReplaceById | src/stores/alertStore.ts:119-121 | same length; each alert with the id becomes the server's answer, every other one is kept in place |
| AlertStore.RemoveById | src/stores/alertStore.ts:133 | exactly the alerts without the id remain, in their order |
| AlertStore.RemoveByIdLaws | src/stores/alertStore.ts:133 | deleting an unknown id changes nothing; deleting twice is deleting once |
| AlertStore.ReplaceByIdLaws | src/stores/alertStore.ts:119-121 | updating an unknown id changes nothing; with an answer carrying the same id, updating twice is updating once |
| AlertStore.AfterMessage | src/stores/alertStore.ts:162-168 | a heartbeat leaves the list alone; an alert message puts the alert first, in front of the old list |
| AlertStore.ReconnectsOnClose | src/stores/alertStore.ts:174-181 | a reconnect is only ever scheduled by a socket whose close handler is still set |
| AlertStore.AlertStore.constructor | src/stores/alertStore.ts:69-76 | no alerts, zero statistics, no flags, no filters, page 1 of 1, no socket |
| AlertStore.AlertStore.StartFetchAlerts | src/stores/alertStore.ts:78-91 | loading is set, the error cleared, and one GET of `/api/alerts` with the current filters and the requested page is issued |
| AlertStore.AlertStore.FinishFetchAlerts | src/stores/alertStore.ts:92-103 | loading ends; a response replaces alerts, page and page count; a failure keeps them and sets the fixed error text |
| AlertStore.AlertStore.FinishFetchStats | src/stores/alertStore.ts:106-113 | a response replaces the statistics; a failure keeps them and sets the error text |
| AlertStore.AlertStore.UpdateAlert | src/stores/alertStore.ts:115-127 | on success the alert is replaced by id and the statistics are fetched again; on failure the list is kept and the error set |
| AlertStore.AlertStore.DeleteAlert | src/stores/alertStore.ts:129-138 | on success the alert is removed by id and the statistics are fetched again; on failure the list is kept and the error set |
| AlertStore.AlertStore.SetFilters | src/stores/alertStore.ts:140-146 | the filters become the merge, the page goes back to 1, and page 1 is fetched with the new filters |
| AlertStore.AlertStore.OnMessage | src/stores/alertStore.ts:162-168 | the list becomes the list after the message |
| AlertStore.AlertStore.ConnectWebSocket | src/stores/alertStore.ts:148-183 | nothing happens while a socket is connecting or open; otherwise the store holds a new connecting socket with the reconnect handler |
| AlertStore.AlertStore.DisconnectWebSocket | src/stores/alertStore.ts:190-197 | the store forgets its socket, which is closed with its close handler removed first |
| AlertStore.DisconnectedSocketStaysClosed | src/stores/alertStore.ts:193 | a socket closed by `disconnectWebSocket` never schedules a reconnect |
| AlertStore.ConnectedSocketReconnects | src/stores/alertStore.ts:174-181 | a socket opened by `connectWebSocket` reconnects iff its close is not clean |
| SettingsStore.MergePreferences | src/stores/settingsStore.ts:67-70 | every key the update gives takes its value, every key it leaves out keeps the stored one |
| SettingsStore.MergeProfile | src/stores/settingsStore.ts:71-74 | every key the update gives takes its value, every key it leaves out keeps the stored one |
| SettingsStore.MergePreferencesLaws | src/stores/settingsStore.ts:67-70 | a provided key overwrites and an absent one is kept; the empty update changes nothing; a provided notifications object replaces the nested settings whole; the merge is idempotent |
| SettingsStore.MergeProfileLaws | src/stores/settingsStore.ts:71-74 | the same laws for the profile |
| SettingsStore.WithoutDevice | src/stores/settingsStore.ts:75-78 | exactly the devices without the id remain, in their order |
| SettingsStore.WithoutDeviceLaws | src/stores/settingsStore.ts:75-78 | removing an unknown device changes nothing; removing twice is removing once |
| SettingsStore.Rehydrate | src/stores/settingsStore.ts:20-83 | on start-up a key found in storage wins over the initial value; with nothing stored, or the key missing, the initial value stays |
| SettingsStore.ReloadRestores | src/stores/settingsStore.ts:20-83 | reopening on what the store last wrote restores exactly that state, whatever the defaults |
| SettingsStore.SettingsStore.constructor | src/stores/settingsStore.ts:20-83 | with empty storage, the default preferences (system theme, English, e-mail and in-app notifications without marketing, the browser's zone), the sample profile, device and login; otherwise each stored key overrides its default |
| SettingsStore.SettingsStore.UpdatePreferences | src/stores/settingsStore.ts:67-70 | only the preferences change, to the merge, and the whole new state is written to storage |
| SettingsStore.SettingsStore.UpdateProfile | src/stores/settingsStore.ts:71-74 | only the profile changes, to the merge, and the whole new state is written to storage |
| SettingsStore.SettingsStore.RemoveDevice | src/stores/settingsStore.ts:75-78 | only the device list changes, and the whole new state is written to storage |
| AlertsPage.FilteredAlerts | src/pages/AlertsPage.tsx:11-47 | the result keeps the order, and an alert is listed iff it is in the input and passes every filter |
| AlertsPage.UnfilteredListsAll | src/pages/AlertsPage.tsx:11-47 | with every filter open, every alert is listed in order |
| AlertsPage.SeverityFilter | src/pages/AlertsPage.tsx:14-16 | a severity list keeps only the severities it names, and an empty list keeps nothing |
| AlertsPage.StatusFilterRule | src/pages/AlertsPage.tsx:19-24 | `active` lists only unacknowledged alerts, `resolved` only acknowledged ones, and with every filter open every alert passes |
| AlertsPage.DateRangeRule | src/pages/AlertsPage.tsx:27-34 | the range counts only when both ends are set, and then includes both ends |
| AlertsPage.SearchRule | src/pages/AlertsPage.tsx:37-43 | a non-empty search lists an alert iff the text occurs, ignoring case, in its description or its source |
| AlertsPage.SearchIgnoresCase | src/pages/AlertsPage.tsx:37-43 | two queries that lower-case alike filter alike |
| AlertsPage.FilteringIsIdempotent | src/pages/AlertsPage.tsx:11-47 | filtering the filtered list again changes nothing |
| AlertsPage.HandleSelectAll | src/pages/AlertsPage.tsx:49-55 | the selection is cleared iff it is as large as the filtered list; otherwise everything is selected |
| AgentManagementPage.Edited | src/pages/AgentManagementPage.tsx:67-76 | same length, each agent edited by the per-agent rule |
| AgentManagementPage.Removed | src/pages/AgentManagementPage.tsx:90 | exactly the agents without the id remain, in their order |
| AgentManagementPage.EditLaws | src/pages/AgentManagementPage.tsx:67-76 | an edit keeps every id, status and install time; agents with another id are untouched; the named agent takes the new name and time, and keeps its version when the new one is missing or empty |
| AgentManagementPage.RemoveLaws | src/pages/AgentManagementPage.tsx:87-96 | removing an unknown id changes nothing; removing twice is removing once |
| AgentManagementPage.MockAgentsLaws | src/pages/AgentManagementPage.tsx:10-34 | the two sample agents have distinct ids, exactly one is active, each was updated after it was installed, and removing one leaves the other |
| AgentManagementPage.AgentManagementPage.constructor | src/pages/AgentManagementPage.tsx:10-41 | the two sample agents (production server `1`, active, seen now; development server `2`, inactive, seen 30 November 2023, with their versions, addresses, systems and dates), no dialog, no selection, no error |
| AgentManagementPage.AgentManagementPage.HandleDeploy | src/pages/AgentManagementPage.tsx:43-62 | the new inactive version-1.0.0 agent is appended, the dialog closes and the error clears |
| AgentManagementPage.AgentManagementPage.HandleEdit | src/pages/AgentManagementPage.tsx:64-85 | the edit is applied, the dialog closes, the selection and error clear |
| AgentManagementPage.AgentManagementPage.HandleRemove | src/pages/AgentManagementPage.tsx:87-96 | the agents with the id go and the error clears |
| AgentManagementPage.AgentManagementPage.HandleEditClick | src/pages/AgentManagementPage.tsx:98-101 | the clicked agent is selected and the edit dialog opens |
| MathRound.Round | src/components/agents/tabs/VulnerabilitiesTab.tsx:40 | `Math.round` of the exact ratio n/d: the result is the integer nearest to n/d, halves going up |
| MathRound.RoundUnique | src/components/agents/tabs/VulnerabilitiesTab.tsx:40 | any integer within half of n/d (halves up) is the rounded value |
| MathRound.RoundMonotone | src/components/security/SecuritySummary.tsx:72 | rounding preserves order |
| MathRound.RoundExact | src/components/security/SecuritySummary.tsx:72 | a whole ratio rounds to itself |
| OsqueryTab.Tally | src/components/agents/tabs/OSQueryTab.tsx:53-57 | the dictionary holds exactly the keys that occur, each mapped to its number of occurrences |
| OsqueryTab.ProcessStatsCounts | src/components/agents/tabs/OSQueryTab.tsx:53-57 | each process is counted once under its state: the counts are the multiset of the states, whose size is the number of processes, and a process without a state counts under `UNKNOWN` |
| OsqueryTab.AbsentDataIsEmpty | src/components/agents/tabs/OSQueryTab.tsx:53-70 | without data both tallies are empty and both counters read 0 |
| OsqueryTab.Length | src/components/agents/tabs/OSQueryTab.tsx:102 | the tab counter is the number of rows when there is data |
| OsqueryTab.ProtocolName | src/components/agents/tabs/OSQueryTab.tsx:72-77 | protocol 6 is labelled TCP, 17 UDP, any other name is kept |
| OsqueryTab.NetworkChartData | src/components/agents/tabs/OSQueryTab.tsx:72-77 | one chart entry per tallied protocol, carrying its label and count, and no other entry |
| OsqueryTab.FilteredProcesses | src/components/agents/tabs/OSQueryTab.tsx:79-86 | absent data stays absent; otherwise the order is kept and a process is listed iff the lower-cased query occurs in its lower-cased name, path or command |
| OsqueryTab.FilteredNetwork | src/components/agents/tabs/OSQueryTab.tsx:88-95 | absent data stays absent; otherwise the order is kept and a connection is listed iff it matches by process name, address or port |
| OsqueryTab.EmptyProcessSearch | src/components/agents/tabs/OSQueryTab.tsx:79-86 | an empty search lists exactly the processes that have a name, a path or a command |
| OsqueryTab.ProcessSearchIgnoresCase | src/components/agents/tabs/OSQueryTab.tsx:82-84 | two queries that lower-case alike select the same processes |
| OsqueryTab.AddressSearchIsCaseSensitive | src/components/agents/tabs/OSQueryTab.tsx:92-93 | the address is not lower-cased: a connection whose address lacks the lower-cased query, and which has nothing else to match, is not listed |
| VulnerabilitiesTab.RiskScore | src/components/agents/tabs/VulnerabilitiesTab.tsx:28-41 | no vulnerabilities score 0; otherwise the score is the weighted mean (10, 7, 4, 1 per severity over 10 per vulnerability) as a percentage, rounded to the nearest integer |
| VulnerabilitiesTab.RiskScoreBounds | src/components/agents/tabs/VulnerabilitiesTab.tsx:28-41 | when the severity counts add up to the total, the score lies between 0 and 100 |
| VulnerabilitiesTab.RiskScoreExtremes | src/components/agents/tabs/VulnerabilitiesTab.tsx:32-40 | only critical findings score 100, only low ones 10 |
| VulnerabilitiesTab.RiskScoreCanExceedHundred | src/components/agents/tabs/VulnerabilitiesTab.tsx:28-41 | the total is trusted as given: counts larger than the total score above 100 |
| VulnerabilitiesTab.RiskScoreMonotone | src/components/agents/tabs/VulnerabilitiesTab.tsx:32-40 | with the same total, more weight never lowers the score |
| SecuritySummary.VulnerabilityData | src/components/security/SecuritySummary.tsx:36-55 | three rows, critical, high and medium in that order, carrying the statistics' counts, each 0 when the statistics or that count are missing |
| SecuritySummary.ComplianceScore | src/components/security/SecuritySummary.tsx:58-74 | no frameworks, or no controls, score 0; otherwise the compliant share of all controls as a rounded percentage |
| SecuritySummary.NonCompliantPolicies | src/components/security/SecuritySummary.tsx:77-84 | the sum of the non-compliant counts, a missing count counting as 0 |
| SecuritySummary.CompliantWithinTotal | src/components/security/SecuritySummary.tsx:61-69 | when each framework's compliant count is within its total, so is the sum |
| SecuritySummary.ComplianceScoreBounds | src/components/security/SecuritySummary.tsx:58-74 | with consistent framework counts the score lies between 0 and 100 |
| SecuritySummary.AllCompliantSums | src/components/security/SecuritySummary.tsx:61-69 | when every framework is fully compliant the two sums agree |
| SecuritySummary.AllCompliantScoresHundred | src/components/security/SecuritySummary.tsx:58-74 | fully compliant frameworks with at least one control score exactly 100 |
| SecuritySummary.MissingCountsAsZero | src/components/security/SecuritySummary.tsx:66 | dropping a framework's counts acts as setting them to 0 |
| SecuritySummary.NonCompliantAppend | src/components/security/SecuritySummary.tsx:80-83 | one more framework adds its non-compliant count (0 when missing) |
| SecuritySummary.ComplianceStatusText | src/components/security/SecuritySummary.tsx:90-95 | each of the four texts is shown iff the score lies in its band (90 and up, 75 to 89, 60 to 74, below 60) |
| SecuritySummary.PoliciesWording | src/components/security/SecuritySummary.tsx:164-167 | the singular wording iff exactly one policy |
| AgentHealthMetrics.GetHealthStatus | src/components/dashboard/AgentHealthMetrics.tsx:52-56 | good iff below 50, warning iff from 50 to below 80, critical iff 80 and up |
| AgentHealthMetrics.HealthStatusMonotone | src/components/dashboard/AgentHealthMetrics.tsx:52-56 | a higher reading never gives a better status |
| AgentHealthMetrics.IndicatorIsWorst | src/components/dashboard/AgentHealthMetrics.tsx:161-167 | the indicator of the largest of cpu, memory and disk is the worst of the three statuses |
| AgentHealthMetrics.ToMetric | src/components/dashboard/AgentHealthMetrics.tsx:91-100 | the `_id` key, name and time are carried over, a missing reading becomes 0, events and response time are 0 |
| AgentHealthMetrics.SilentAgentIsGood | src/components/dashboard/AgentHealthMetrics.tsx:91-100 | an agent that reports no system information shows as good |
| AgentHealthMetrics.ChartData | src/components/dashboard/AgentHealthMetrics.tsx:115-118 | one bar per agent, in order, labelled with its name and carrying the selected reading |
| AgentHealthMetrics.ChartOfFetched | src/components/dashboard/AgentHealthMetrics.tsx:91-118 | the cpu bar of a fetched agent is its reported cpu use, 0 when missing |
| AgentHealthMetrics.AgentHealthMetrics.constructor | src/components/dashboard/AgentHealthMetrics.tsx:76-81 | no metrics, cpu selected, no update time, not minimised |
| AgentHealthMetrics.AgentHealthMetrics.FetchAgentMetrics | src/components/dashboard/AgentHealthMetrics.tsx:83-107 | without a user id nothing happens; otherwise the deployed-agents request for that user is issued, a response replaces the metrics and the update time, and a failure keeps both |
| AgentHealthMetrics.AgentHealthMetrics.SelectMetric | src/components/dashboard/AgentHealthMetrics.tsx:76-81 | the chosen metric is selected |
| AgentHealthMetrics.AgentHealthMetrics.ToggleMinimized | src/components/dashboard/AgentHealthMetrics.tsx:135 | the minimised flag flips |
| MetricCard.ValueColour | src/components/dashboard/MetricCard.tsx:39-51 | system health is green from 90, yellow from 70, red below; active threats are green at 0, yellow up to 5, red above; other cards have no colour |
| MetricCard.ValueColourMonotone | src/components/dashboard/MetricCard.tsx:39-51 | better health never looks worse, more threats never look better, and a negative threat count is yellow |
| MetricCard.FormatValue | src/components/dashboard/MetricCard.tsx:53-62 | the value is shown as a percentage iff the unit is `%` or the title mentions Health or Load |
| MetricCard.SystemHealthIsPercent | src/components/dashboard/MetricCard.tsx:53-62 | the System Health card shows a percentage |
| MetricCard.TrendColour | src/components/dashboard/MetricCard.tsx:28-37 | green iff up, red iff down, grey iff neutral |
| MetricCard.TrendIcon | src/components/dashboard/MetricCard.tsx:17-26 | an up arrow iff up, a down arrow iff down, a dash iff neutral |
| MetricCard.ChangeBadge | src/components/dashboard/MetricCard.tsx:73-80 | no badge iff the change is 0; the badge shows the size of the change with the trend's icon and colour |
| MetricCard.BadgeIgnoresSign | src/components/dashboard/MetricCard.tsx:73-80 | the badge depends on the trend and not on the sign of the change |
| AuthPage.SignInIssues | src/pages/AuthPage.tsx:28-33 | no issue iff the e-mail is valid and the password has at least 8 characters; each issue is reported iff its rule fails |
| AuthPage.SignUpRules | src/pages/AuthPage.tsx:35-47 | sign-up is valid iff e-mail and password pass the sign-in rules, the name has at least 2 characters, the confirmation at least 8, and the two passwords agree; the mismatch and short-name issues each appear iff their rule fails |
| AuthPage.SubmitSignIn | src/pages/AuthPage.tsx:76-82 | the sign-in call is made iff the form is valid, with the e-mail and password entered |
| AuthPage.SubmitSignUp | src/pages/AuthPage.tsx:84-90 | the sign-up call is made iff the form is valid, with name, e-mail and password only |
| AuthPage.SignedUpCanSignIn | src/pages/AuthPage.tsx:28-47 | credentials accepted by the sign-up form are accepted by the sign-in form |
| AuthPage.Render | src/pages/AuthPage.tsx:72-74 | a signed-in user is sent to `/dashboard`; anyone else sees the forms in the chosen mode |

## Left out

- Operating-system and tool probes (psutil, PowerShell through subprocess, python-nmap, `importlib.metadata`, `shutil.which`, `os.path.isfile`) are not called. Their outputs are inputs: strings, tables, or `None` for a probe that raises. File existence is an oracle.
- HTTP transport (requests, axios) is an outbox of requests plus an acceptance oracle or an optional response. Status codes other than the ones the code branches on are not modelled.
- JWT signing and verification are opaque. Only claim sets and the acceptance decision are modelled.
- The agent's `while True` / `time.sleep` loops and daemon threads in agent/src/agent.py are not modelled; one tick of each loop is.
- Mongoose-backed controllers, the model schemas (used only for their enums), `websocketService.ts` and the heartbeat timer in `backend/src/index.ts` are not part of this model.
- The security routes are not mounted in `backend/src/index.ts`; the model takes the upload paths as the agent sends them.
- The language-model calls and their prompts in `aiInsightsController.ts` are an oracle `complete`. A partial failure of the three parallel analyses, where some insights are stored before another call fails, is not modelled: the analyses either all succeed or the request fails.
- `AiInsights.GetInsights`: the ordering by `generatedAt` that the database query applies is left out; the result keeps the stored order.
- The outer catch of the authentication gate ("Authentication failed") is not modelled, because only a throwing `verify` reaches it, and verification is an oracle that does not throw.
- `AgentController`: a heartbeat without a `status` field, and an explicit `undefined` in a partial update, are not modelled; heartbeats always carry a status.
- The security store's `connectWebSocket` and its `onmessage` refresh, and `updateVulnerabilityStatus` / `updateComplianceStatus`, are not modelled; they only chain a PUT to fetches already modelled.
- Percent-encoding of query parameters by `URLSearchParams` is left out; parameters are key/value pairs before encoding.
- Page numbers are naturals. A negative or fractional page passed to a store is not modelled.
- `catch` branches of `AgentManagementPage.tsx` are not modelled: no statement in their `try` blocks can throw.
- A date range whose start is after its end is not modelled. Its behaviour depends on the date library's version.
- Lower-casing is ASCII only. Python's and JavaScript's Unicode case mappings, and Python's `isdigit` on non-ASCII digits, are not modelled.
- Strings are sequences of characters. JavaScript's UTF-16 length, which the sign-up rules count, agrees with this only for characters of the basic plane.
- Floating point: reals are exact, and `Math.round` is applied to the exact ratio. IEEE rounding of the intermediate product and quotient is left out, as is rendering a float as text (that rendering is an input where a message embeds a number).
- Timestamps are integers (seconds in agent/src/agent.py and agent/src/security_scanner.py, milliseconds in TypeScript), except in agent/src/osquery_manager.py and agent/src/security_scan.py, whose events and scan result carry the ISO-8601 string as an input (`now` of `OsqueryManager.ProcessEvent`, `NetworkEvent` and `SystemEvent`, `timestamp` of `SecurityScan.RunSecurityScan`). ISO-8601, `toLocaleString` and `toLocaleTimeString` rendering is left out; `AgentHealthMetrics.AgentHealthMetrics.FetchAgentMetrics` takes the rendered time as an input. In agent/src/agent.py, agent/src/security_scanner.py, agent/src/security_scan.py and agent/src/osquery_manager.py each builder reads one `now` and uses it for every timestamp it builds (`last_checked`, `next_check`, each alert's and finding's `timestamp`, and every row of `OsqueryManager.FormatProcessData` and `FormatNetworkData`), where the Python code calls `datetime.now()` or `datetime.utcnow().isoformat()` anew for each; the moments between those readings are not modelled. The agent's alert tokens are the exception: each is minted at its own clock reading.
- `OsqueryTab.NetworkChartData` is a set of entries. JavaScript's `Object.entries` order, which puts integer-like keys first, is left out, and so is multiplicity: two tallied protocols with the same label and count (`6` shown as `TCP` next to a literal `TCP` key) give one set element where the chart draws two bars.
- The e-mail regular expression of the schema library is an oracle predicate. Whether the library runs the password-match refinement when a field check has already failed is version dependent; `AuthPage.SignUpRules` always reports the mismatch.
- The number rendering of `MetricCard.tsx` (`toFixed`, locale separators) is left out; `MetricCard.FormatValue` returns the value and whether a `%` follows.
- A non-array response in `AgentHealthMetrics.tsx` (the map would throw into the catch) is not modelled; a failed fetch is `None`.
- `nmap` results are a flattened table of (host, port, script, output) rows; the nested dictionary walk is not modelled.
- `ComplianceDashboard.tsx` and `ComplianceFilters.tsx` are not part of this model: they call store members that `securityStore.ts` does not define.
- `AlertsPage.tsx` selection actions (`selectAll`, `clearSelection`, `acknowledgeAlerts`) are not defined by the alert store; `AlertsPage.HandleSelectAll` returns which of the two actions runs.
- AlertsPage.FilteredAlerts and AlertsPage.HandleSelectAll model the page over its declared types (src/types/index.ts, src/types/alerts.ts), not as it is wired. The page reads `useAlertStore()` (src/pages/AlertsPage.tsx:9). That store's state (src/stores/alertStore.ts:22-54) has no `selectedAlerts`, no `filters.dateRange`, no `filters.search`, and no `acknowledged` on its alerts, and its `filters.status` is a `string[]`. The store starts with `filters: {}` (alertStore.ts:73). As wired, `filters.dateRange.start` (AlertsPage.tsx:27) throws a TypeError on the first alert that passes the severity test, which with no filters set is every alert. `selectedAlerts.size` (AlertsPage.tsx:50) throws on `undefined`. `filters.status === 'active'` (AlertsPage.tsx:19) can never hold. The model states what the filter callback and the select-all handler are meant to do; it does not model these failures.
- Pure rendering components, `authStore.ts`, `lib/api.ts`, hooks and the landing, settings and insights pages are not part of this model.
- `SettingsStore.SettingsStore.constructor`: storage is read synchronously, as browser local storage is; the `version` and `migrate` options of `persist` and an asynchronous storage are not modelled, and neither is the JSON round trip that brings the `Date` fields of devices and logins back as strings.
- Id uniqueness in the agent registry and the agent-management page is not guaranteed by the code and is not assumed.
