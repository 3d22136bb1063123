/** The agent health card of the dashboard (src/components/dashboard/AgentHealthMetrics.tsx): the
    health bands, the per-agent indicator, the metrics built from the deployed agents the backend
    returns, and the bar chart of the selected metric. Local storage, the request and the clock are
    inputs of the fetch. */
module AgentHealthMetrics {
  import opened Wrappers
  import opened Lists

  datatype HealthStatus = Good | Warning | Critical

  /** `getHealthStatus`: good below 50, warning below 80, critical from 80 on. */
  function GetHealthStatus(metric: real): (s: HealthStatus)
    ensures s == Good <==> metric < 50.0
    ensures s == Warning <==> 50.0 <= metric < 80.0
    ensures s == Critical <==> metric >= 80.0
  {
    if metric < 50.0 then Good else if metric < 80.0 then Warning else Critical
  }

  function Rank(s: HealthStatus): nat
  {
    match s
    case Good => 0
    case Warning => 1
    case Critical => 2
  }

  /** A higher reading never has a better status. */
  lemma HealthStatusMonotone(a: real, b: real)
    requires a <= b
    ensures Rank(GetHealthStatus(a)) <= Rank(GetHealthStatus(b))
  {
  }

  /** `id` is None where the component copied an undefined value. */
  datatype AgentMetric = AgentMetric(
    id: Option<string>,
    name: string,
    cpu: real,
    memory: real,
    diskUsage: real,
    eventsPerMinute: real,
    responseTime: real,
    lastUpdated: int)

  function Max3(a: real, b: real, c: real): real
  {
    if a >= b && a >= c then a else if b >= c then b else c
  }

  /** The badge on an agent's card: the status of its highest reading. */
  function Indicator(m: AgentMetric): HealthStatus
  {
    GetHealthStatus(Max3(m.cpu, m.memory, m.diskUsage))
  }

  function MaxRank(a: nat, b: nat, c: nat): nat
  {
    if a >= b && a >= c then a else if b >= c then b else c
  }

  /** The badge shows the worst of the three statuses: no reading is worse than it, and one of them is
      as bad. */
  lemma IndicatorIsWorst(m: AgentMetric)
    ensures Rank(Indicator(m)) == MaxRank(Rank(GetHealthStatus(m.cpu)), Rank(GetHealthStatus(m.memory)),
                                          Rank(GetHealthStatus(m.diskUsage)))
  {
    var x := Max3(m.cpu, m.memory, m.diskUsage);
    HealthStatusMonotone(m.cpu, x);
    HealthStatusMonotone(m.memory, x);
    HealthStatusMonotone(m.diskUsage, x);
  }

  /** The readings an agent last reported; any of them may be missing. */
  datatype SystemInfo = SystemInfo(cpuUsage: Option<real>, memoryPercent: Option<real>, diskPercent: Option<real>)

  /** A deployed agent as the component reads it from the reply; `objectId` is the reply's `_id` key,
      None when the reply has no such key. */
  datatype DeployedAgent = DeployedAgent(objectId: Option<string>, name: string, systemInfo: Option<SystemInfo>,
                                         lastActive: int)

  /** `x || 0`. */
  function OrZero(x: Option<real>): real
  {
    x.GetOr(0.0)
  }

  /** The mapping from a deployed agent to its metrics: missing readings are 0, events per minute and
      response time are always 0. */
  function ToMetric(a: DeployedAgent): (m: AgentMetric)
    ensures m.id == a.objectId && m.name == a.name && m.lastUpdated == a.lastActive
    ensures a.systemInfo.None? ==> m.cpu == 0.0 && m.memory == 0.0 && m.diskUsage == 0.0
    ensures a.systemInfo.Some? ==> m.cpu == OrZero(a.systemInfo.value.cpuUsage)
                                   && m.memory == OrZero(a.systemInfo.value.memoryPercent)
                                   && m.diskUsage == OrZero(a.systemInfo.value.diskPercent)
    ensures m.eventsPerMinute == 0.0 && m.responseTime == 0.0
  {
    var info := a.systemInfo.GetOr(SystemInfo(None, None, None));
    AgentMetric(a.objectId, a.name, OrZero(info.cpuUsage), OrZero(info.memoryPercent), OrZero(info.diskPercent), 0.0, 0.0,
                a.lastActive)
  }

  /** An agent that never reported is shown as healthy. */
  lemma SilentAgentIsGood(a: DeployedAgent)
    requires a.systemInfo.None?
    ensures Indicator(ToMetric(a)) == Good
  {
  }

  datatype MetricKind = Cpu | Memory | DiskUsage

  function Field(m: AgentMetric, k: MetricKind): real
  {
    match k
    case Cpu => m.cpu
    case Memory => m.memory
    case DiskUsage => m.diskUsage
  }

  datatype ChartEntry = ChartEntry(name: string, value: real)

  function ChartEntryOf(m: AgentMetric, k: MetricKind): ChartEntry
  {
    ChartEntry(m.name, Field(m, k))
  }

  /** `chartData`: one bar per agent, in order, valued at the selected metric. */
  function ChartData(metrics: seq<AgentMetric>, k: MetricKind): (r: seq<ChartEntry>)
    ensures |r| == |metrics|
    ensures forall i :: 0 <= i < |metrics| ==> r[i].name == metrics[i].name && r[i].value == Field(metrics[i], k)
  {
    Map((m: AgentMetric) => ChartEntryOf(m, k), metrics)
  }

  /** After a fetch, the bars show the readings the agents reported, 0 where one is missing. */
  lemma ChartOfFetched(agents: seq<DeployedAgent>, i: nat)
    requires i < |agents|
    ensures var r := ChartData(Map(ToMetric, agents), Cpu);
      && |r| == |agents| && r[i].name == agents[i].name
      && r[i].value == (if agents[i].systemInfo.Some? then OrZero(agents[i].systemInfo.value.cpuUsage) else 0.0)
  {
  }

  const DeployedAgentsPath := "/api/agents/deployed?userId="

  class AgentHealthMetrics {
    var metrics: seq<AgentMetric>
    var selectedMetric: MetricKind
    var lastUpdated: string
    var isMinimized: bool
    /** The GET requests sent, oldest first. */
    var requests: seq<string>

    /** The card starts with no metrics, CPU selected, no update time, expanded. */
    constructor()
      ensures metrics == [] && selectedMetric == Cpu && lastUpdated == "" && !isMinimized && requests == []
    {
      metrics, selectedMetric, lastUpdated, isMinimized, requests := [], Cpu, "", false, [];
    }

    /** `fetchAgentMetrics`: without a stored user id nothing is requested and nothing changes; with
        one, the deployed agents are requested, and a response replaces the metrics and stamps the
        time, while a failure is only logged. */
    method FetchAgentMetrics(userId: Option<string>, response: Option<seq<DeployedAgent>>, timeString: string)
      modifies this`metrics, this`lastUpdated, this`requests
      ensures userId.None? || userId == Some("") ==> unchanged(this)
      ensures userId.Some? && userId.value != "" ==> requests == old(requests) + [DeployedAgentsPath + userId.value]
      ensures userId.Some? && userId.value != "" && response.Some? ==>
                metrics == Map(ToMetric, response.value) && lastUpdated == timeString
      ensures response.None? ==> metrics == old(metrics) && lastUpdated == old(lastUpdated)
    {
      if userId.None? || userId.value == "" {
        return;
      }
      requests := requests + [DeployedAgentsPath + userId.value];
      if response.Some? {
        metrics := Map(ToMetric, response.value);
        lastUpdated := timeString;
      }
    }

    /** The metric selector. */
    method SelectMetric(k: MetricKind)
      modifies this`selectedMetric
      ensures selectedMetric == k
    {
      selectedMetric := k;
    }

    /** The minimise button. */
    method ToggleMinimized()
      modifies this`isMinimized
      ensures isMinimized == !old(isMinimized)
    {
      isMinimized := !isMinimized;
    }
  }
}
