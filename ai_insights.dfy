/** The insight generator of the collector (backend/src/controllers/aiInsightsController.ts): the
    summary figures handed to the language model, the settings schema, and the request's branching
    between refusing, serving cached insights and generating new ones. The database lookups are
    inputs and the model call is the `complete` oracle. Times are milliseconds. */
module AiInsights {
  import opened Wrappers
  import opened Lists

  /** `SystemInfo`: every field optional. */
  datatype SystemInfo = SystemInfo(health: Option<real>, cpuUsage: Option<real>, memoryPercent: Option<real>)

  datatype InsightAgent = InsightAgent(name: string, systemInfo: Option<SystemInfo>)

  /** `info?.health || 0`: a missing report, a missing field and 0 all count as 0. */
  function HealthOf(agent: InsightAgent): real
  {
    if agent.systemInfo.Some? && agent.systemInfo.value.health.Some? then agent.systemInfo.value.health.value else 0.0
  }

  /** The running total of the `reduce`, left to right. */
  function HealthSum(agents: seq<InsightAgent>): real
  {
    if agents == [] then 0.0 else HealthSum(agents[..|agents| - 1]) + HealthOf(agents[|agents| - 1])
  }

  /** `calculateSystemHealth`: the mean reported health, 0 for no agents. */
  function CalculateSystemHealth(agents: seq<InsightAgent>): (h: real)
    ensures agents == [] ==> h == 0.0
  {
    if |agents| == 0 then 0.0 else HealthSum(agents) / (|agents| as real)
  }

  lemma {:induction false} HealthSumBounds(agents: seq<InsightAgent>, lo: real, hi: real)
    requires forall i :: 0 <= i < |agents| ==> lo <= HealthOf(agents[i]) <= hi
    ensures lo * (|agents| as real) <= HealthSum(agents) <= hi * (|agents| as real)
  {
    if agents != [] {
      HealthSumBounds(agents[..|agents| - 1], lo, hi);
    }
  }

  /** The mean lies between the least and the greatest health counted. */
  lemma SystemHealthBounds(agents: seq<InsightAgent>, lo: real, hi: real)
    requires agents != []
    requires forall i :: 0 <= i < |agents| ==> lo <= HealthOf(agents[i]) <= hi
    ensures lo <= CalculateSystemHealth(agents) <= hi
  {
    HealthSumBounds(agents, lo, hi);
    QuotientBounds(HealthSum(agents), |agents| as real, lo, hi);
  }

  lemma QuotientBounds(s: real, n: real, lo: real, hi: real)
    requires n > 0.0 && lo * n <= s <= hi * n
    ensures lo <= s / n <= hi
  {
    var q := s / n;
    assert q * n == s;
    assert (q - lo) * n >= 0.0 && (hi - q) * n >= 0.0;
  }

  /** Agents that report nothing pull the mean down as if they reported 0: one healthy agent at 100 and
      one silent agent average 50. */
  lemma SilentAgentCountsAsZero(name1: string, name2: string)
    ensures CalculateSystemHealth([InsightAgent(name1, Some(SystemInfo(Some(100.0), None, None))),
                                   InsightAgent(name2, None)]) == 50.0
  {
    var agents := [InsightAgent(name1, Some(SystemInfo(Some(100.0), None, None))), InsightAgent(name2, None)];
    assert agents[..1] == [agents[0]] && agents[..1][..0] == [];
    assert HealthSum(agents[..1]) == 100.0;
    assert HealthSum(agents) == 100.0;
  }

  /** One entry of `mapAgentMetrics`: missing fields stay missing here, unlike in the health mean. */
  datatype AgentMetrics = AgentMetrics(name: string, health: Option<real>, cpu: Option<real>, memory: Option<real>)

  function AgentMetricsOf(agent: InsightAgent): AgentMetrics
  {
    match agent.systemInfo
    case None => AgentMetrics(agent.name, None, None, None)
    case Some(info) => AgentMetrics(agent.name, info.health, info.cpuUsage, info.memoryPercent)
  }

  /** `mapAgentMetrics`: one entry per agent, in order. */
  function MapAgentMetrics(agents: seq<InsightAgent>): (r: seq<AgentMetrics>)
    ensures |r| == |agents|
  {
    Map(AgentMetricsOf, agents)
  }

  /** Entry i is agent i's name with `cpu_usage` renamed `cpu` and `memory_percent` renamed `memory`. */
  lemma AgentMetricsRenames(agents: seq<InsightAgent>, i: nat)
    requires i < |agents| && agents[i].systemInfo.Some?
    ensures var m := MapAgentMetrics(agents)[i];
      var info := agents[i].systemInfo.value;
      m.name == agents[i].name && m.health == info.health && m.cpu == info.cpuUsage && m.memory == info.memoryPercent
  {
  }

  // ---------------------------------------------------------------------------
  // The data handed to the model

  datatype StoredAlert = StoredAlert(severity: string, title: string, timestamp: int)

  predicate IsCritical(a: StoredAlert)
  {
    a.severity == "critical"
  }

  datatype InsightData = InsightData(
    activeAgents: nat,
    systemHealth: real,
    criticalAlerts: nat,
    recentIncidents: seq<StoredAlert>,
    agentMetrics: seq<AgentMetrics>,
    securityEvents: seq<StoredAlert>)

  /** The `data` object: `alerts` is the newest hundred, newest first, as the store returns them. */
  function GatherData(agents: seq<InsightAgent>, alerts: seq<StoredAlert>): (d: InsightData)
    ensures d.criticalAlerts <= |alerts|
    ensures |d.recentIncidents| == if |alerts| < 10 then |alerts| else 10
    ensures d.recentIncidents <= alerts
  {
    InsightData(|agents|, CalculateSystemHealth(agents), |Filter(IsCritical, alerts)|,
                alerts[..if |alerts| < 10 then |alerts| else 10], MapAgentMetrics(agents), alerts)
  }

  /** The critical count counts exactly the alerts of severity `critical`. */
  lemma CriticalAlertsCounted(agents: seq<InsightAgent>, alerts: seq<StoredAlert>)
    ensures GatherData(agents, alerts).criticalAlerts == 0 <==> forall a :: a in alerts ==> a.severity != "critical"
    ensures GatherData(agents, alerts).criticalAlerts == |alerts| <== forall a :: a in alerts ==> a.severity == "critical"
  {
    if forall a :: a in alerts ==> a.severity == "critical" {
      FilterAll(IsCritical, alerts);
    }
    if forall a :: a in alerts ==> a.severity != "critical" {
      FilterNone(IsCritical, alerts);
    }
  }

  // ---------------------------------------------------------------------------
  // Settings

  datatype Provider = OpenAI | Anthropic

  datatype AiSettings = AiSettings(provider: Provider, apiKey: string)

  /** `aiProviderSchema.parse`: the provider must be one of the two names and the key non-empty. */
  function ParseAiSettings(provider: string, apiKey: string): (r: Option<AiSettings>)
    ensures r.Some? <==> (provider == "openai" || provider == "anthropic") && |apiKey| >= 1
    ensures r.Some? ==> r.value.apiKey == apiKey && (r.value.provider == Anthropic <==> provider == "anthropic")
  {
    if |apiKey| < 1 then None
    else if provider == "openai" then Some(AiSettings(OpenAI, apiKey))
    else if provider == "anthropic" then Some(AiSettings(Anthropic, apiKey))
    else None
  }

  /** The client is Anthropic's for `anthropic` and OpenAI's for any other stored value, including none. */
  function SelectProvider(aiProvider: Option<string>): (p: Provider)
    ensures p == Anthropic <==> aiProvider == Some("anthropic")
  {
    if aiProvider == Some("anthropic") then Anthropic else OpenAI
  }

  // ---------------------------------------------------------------------------
  // generateInsights

  datatype InsightType = SecurityPosture | AgentPerformance | ThreatAnalysis

  const InsightTypes: seq<InsightType> := [SecurityPosture, AgentPerformance, ThreatAnalysis]

  /** `CACHE_DURATION`, in hours. */
  const CacheDurationHours := 24

  datatype Insight = Insight(userId: string, kind: InsightType, analysis: string, expiresAt: int)

  datatype UserPreferences = UserPreferences(aiProvider: Option<string>, aiApiKey: Option<string>)

  datatype InsightsReply = BadRequest(error: string) | Insights(insights: seq<Insight>) | ServerError(error: string)

  function NewInsight(userId: string, kind: InsightType, analysis: string, now: int): Insight
  {
    Insight(userId, kind, analysis, now + CacheDurationHours * 60 * 60 * 1000)
  }

  predicate Live(now: int, i: Insight)
  {
    i.expiresAt > now
  }

  /** The three model answers, one per insight type, or None when any call fails. */
  function Analyses(provider: Provider, data: InsightData, complete: (Provider, InsightType, InsightData) -> Option<string>)
    : (r: Option<seq<string>>)
    ensures r.Some? ==> |r.value| == 3
    ensures r.Some? <==> forall t :: t in InsightTypes ==> complete(provider, t, data).Some?
  {
    var a := complete(provider, SecurityPosture, data);
    var b := complete(provider, AgentPerformance, data);
    var c := complete(provider, ThreatAnalysis, data);
    if a.Some? && b.Some? && c.Some? then Some([a.value, b.value, c.value]) else None
  }

  /** `generateInsights` for the user `userId`, whose preferences, stored insights, agents and alerts
      the store returns. */
  function GenerateInsights(userId: Option<string>, prefs: Option<UserPreferences>, stored: seq<Insight>,
                            agents: seq<InsightAgent>, alerts: seq<StoredAlert>,
                            complete: (Provider, InsightType, InsightData) -> Option<string>, now: int)
    : (r: InsightsReply)
    ensures userId.None? || userId == Some("") ==> r == BadRequest("User ID required")
    ensures userId.Some? && userId.value != "" && (prefs.None? || prefs.value.aiApiKey.None? || prefs.value.aiApiKey == Some(""))
            ==> r == BadRequest("AI API key not configured")
    ensures r.Insights? ==> userId.Some? && prefs.Some? && prefs.value.aiApiKey.Some? && prefs.value.aiApiKey.value != ""
  {
    if userId.None? || userId.value == "" then BadRequest("User ID required")
    else if prefs.None? || prefs.value.aiApiKey.None? || prefs.value.aiApiKey.value == "" then
      BadRequest("AI API key not configured")
    else
      var live := Filter((i: Insight) => Live(now, i), stored);
      if |live| > 0 then Insights(live)
      else
        var data := GatherData(agents, alerts);
        match Analyses(SelectProvider(prefs.value.aiProvider), data, complete)
        case None => ServerError("Failed to generate insights")
        case Some(texts) =>
          Insights(seq(3, k requires 0 <= k < 3 => NewInsight(userId.value, InsightTypes[k], texts[k], now)))
  }

  /** While any stored insight is still live, those are served and the model is not consulted: the
      reply does not depend on the agents, the alerts or the model. */
  lemma LiveInsightsServed(userId: string, prefs: UserPreferences, stored: seq<Insight>,
                           agents1: seq<InsightAgent>, alerts1: seq<StoredAlert>, complete1: (Provider, InsightType, InsightData) -> Option<string>,
                           agents2: seq<InsightAgent>, alerts2: seq<StoredAlert>, complete2: (Provider, InsightType, InsightData) -> Option<string>,
                           now: int, i: Insight)
    requires userId != "" && prefs.aiApiKey.Some? && prefs.aiApiKey.value != ""
    requires i in stored && i.expiresAt > now
    ensures var r := GenerateInsights(Some(userId), Some(prefs), stored, agents1, alerts1, complete1, now);
      && r == GenerateInsights(Some(userId), Some(prefs), stored, agents2, alerts2, complete2, now)
      && r.Insights? && i in r.insights
      && forall j :: j in r.insights ==> j in stored && j.expiresAt > now
  {
  }

  /** Otherwise exactly one insight per type is created, in the order security posture, agent
      performance, threat analysis, each expiring 24 hours after the request. */
  lemma FreshInsightsGenerated(userId: string, prefs: UserPreferences, stored: seq<Insight>,
                               agents: seq<InsightAgent>, alerts: seq<StoredAlert>,
                               complete: (Provider, InsightType, InsightData) -> Option<string>, now: int)
    requires userId != "" && prefs.aiApiKey.Some? && prefs.aiApiKey.value != ""
    requires forall i :: i in stored ==> i.expiresAt <= now
    requires forall t :: t in InsightTypes ==> complete(SelectProvider(prefs.aiProvider), t, GatherData(agents, alerts)).Some?
    ensures var r := GenerateInsights(Some(userId), Some(prefs), stored, agents, alerts, complete, now);
      && r.Insights? && |r.insights| == 3
      && (forall k :: 0 <= k < 3 ==>
            r.insights[k].kind == InsightTypes[k] && r.insights[k].userId == userId && r.insights[k].expiresAt == now + 86400000)
      && r.insights[0].analysis == complete(SelectProvider(prefs.aiProvider), SecurityPosture, GatherData(agents, alerts)).value
  {
    FilterNone((i: Insight) => Live(now, i), stored);
  }

  /** `getInsights`: the user's stored insights that are still live; a request without a user id is
      refused. */
  function GetInsights(userId: Option<string>, stored: seq<Insight>, now: int): (r: InsightsReply)
    ensures userId.None? || userId == Some("") ==> r == BadRequest("User ID required")
    ensures userId.Some? && userId.value != "" ==> r.Insights?
    ensures r.Insights? ==> IsSubsequence(r.insights, stored) && forall i :: i in r.insights <==> i in stored && Live(now, i)
  {
    if userId.None? || userId.value == "" then BadRequest("User ID required")
    else Insights(Filter((i: Insight) => Live(now, i), stored))
  }

  /** Freshly generated insights are served by `getInsights` for the next 24 hours, and not after. */
  lemma GeneratedInsightsCached(userId: string, prefs: UserPreferences, stored: seq<Insight>,
                                agents: seq<InsightAgent>, alerts: seq<StoredAlert>,
                                complete: (Provider, InsightType, InsightData) -> Option<string>, now: int, later: int)
    requires userId != "" && prefs.aiApiKey.Some? && prefs.aiApiKey.value != ""
    requires forall i :: i in stored ==> i.expiresAt <= now
    requires forall t :: t in InsightTypes ==> complete(SelectProvider(prefs.aiProvider), t, GatherData(agents, alerts)).Some?
    ensures var made := GenerateInsights(Some(userId), Some(prefs), stored, agents, alerts, complete, now).insights;
      && (now <= later < now + 86400000 ==> GetInsights(Some(userId), made, later) == Insights(made))
      && (later >= now + 86400000 ==> GetInsights(Some(userId), made, later) == Insights([]))
  {
    FreshInsightsGenerated(userId, prefs, stored, agents, alerts, complete, now);
    var made := GenerateInsights(Some(userId), Some(prefs), stored, agents, alerts, complete, now).insights;
    if now <= later < now + 86400000 {
      assert forall k :: 0 <= k < |made| ==> Live(later, made[k]);
      FilterAll((i: Insight) => Live(later, i), made);
    }
    if later >= now + 86400000 {
      assert forall k :: 0 <= k < |made| ==> !Live(later, made[k]);
      FilterNone((i: Insight) => Live(later, i), made);
    }
  }

  /** `updateAISettings`: the validated provider and key are stored in the user's preferences; a body
      the schema rejects, or a user without preferences, is a server error (None). */
  function UpdateAiSettings(prefs: Option<UserPreferences>, provider: string, apiKey: string): (r: Option<UserPreferences>)
    ensures r.Some? <==> prefs.Some? && ParseAiSettings(provider, apiKey).Some?
    ensures r.Some? ==> r.value.aiProvider == Some(provider) && r.value.aiApiKey == Some(apiKey)
  {
    if prefs.None? || ParseAiSettings(provider, apiKey).None? then None
    else Some(prefs.value.(aiProvider := Some(provider), aiApiKey := Some(apiKey)))
  }

  /** Saved settings get past the key check of `generateInsights`, and its client is the provider the
      schema accepted. */
  lemma SavedSettingsEnableInsights(prefs: Option<UserPreferences>, provider: string, apiKey: string)
    requires UpdateAiSettings(prefs, provider, apiKey).Some?
    ensures var p := UpdateAiSettings(prefs, provider, apiKey).value;
      && p.aiApiKey.Some? && p.aiApiKey.value != ""
      && SelectProvider(p.aiProvider) == ParseAiSettings(provider, apiKey).value.provider
  {
  }
}
