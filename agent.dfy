/** The unified host agent (agent/src/agent.py): one tick of the resource monitor, the Windows-update
    probe and one cycle of the security-scan loop. psutil readings, PowerShell outcomes, the clock each
    token is issued from and the float-to-text rendering are inputs; every POST is recorded in the
    returned outbox. */
module Agent {
  import opened Wrappers
  import opened Text
  import opened Records
  import opened Lists

  // ---------------------------------------------------------------------------
  // Authentication

  /** `get_auth_token`: AGENT_ID (default `default`), the issue time and `type: agent`, signed with
      AGENT_SECRET (default `default-secret`). */
  function AgentToken(agentIdEnv: Option<string>, secretEnv: Option<string>, issuedAt: string): (t: Token)
    ensures t.claims.Keys == {"agent_id", "timestamp", "type"}
    ensures t.claims["type"] == "agent" && t.claims["timestamp"] == issuedAt
    ensures t.claims["agent_id"] == (if agentIdEnv.Some? then agentIdEnv.value else "default")
    ensures t.secret == (if secretEnv.Some? then secretEnv.value else "default-secret")
  {
    Token(map["agent_id" := agentIdEnv.GetOr("default"), "timestamp" := issuedAt, "type" := "agent"],
          secretEnv.GetOr("default-secret"))
  }

  function AlertRequest(alert: AgentAlert, token: Token): Request
  {
    Request(AlertPath, token, AlertBody(alert))
  }

  /** The AGENT_ID and AGENT_SECRET settings `get_auth_token` reads. */
  datatype Credentials = Credentials(agentIdEnv: Option<string>, secretEnv: Option<string>)

  /** The tokens `send_alert` mints, one per post: the k-th post of a tick mints its own at the time
      `clock(k)` the clock reads then. */
  function MintAt(c: Credentials, clock: nat -> string): nat -> Token
  {
    (k: nat) => AgentToken(c.agentIdEnv, c.secretEnv, clock(k))
  }

  /** `send_alert` for each alert in turn: every alert is posted once, in order, with the token
      `mint(k)` of its own, where k counts the `first` posts before these. A refused post is logged and
      does not stop the next one. */
  function AlertRequests(alerts: seq<AgentAlert>, mint: nat -> Token, first: nat): (rs: seq<Request>)
    ensures |rs| == |alerts|
  {
    if alerts == [] then []
    else
      AlertRequests(alerts[..|alerts| - 1], mint, first)
      + [AlertRequest(alerts[|alerts| - 1], mint(first + |alerts| - 1))]
  }

  /** The i-th post carries the i-th alert, on the alerts route, with the token minted for it. */
  lemma {:induction false} AlertRequestsAt(alerts: seq<AgentAlert>, mint: nat -> Token, first: nat, i: nat)
    requires i < |alerts|
    ensures AlertRequests(alerts, mint, first)[i].path == AlertPath
    ensures AlertRequests(alerts, mint, first)[i].body == AlertBody(alerts[i])
    ensures AlertRequests(alerts, mint, first)[i].token == mint(first + i)
    decreases |alerts|
  {
    var init := alerts[..|alerts| - 1];
    if i < |alerts| - 1 {
      AlertRequestsAt(init, mint, first, i);
    }
  }

  /** Each post of a tick carries the agent's token issued at its own clock reading, so two posts
      minted at different times carry different tokens. */
  lemma EachAlertOwnToken(alerts: seq<AgentAlert>, c: Credentials, clock: nat -> string, first: nat, i: nat, j: nat)
    requires i < |alerts| && j < |alerts|
    ensures AlertRequests(alerts, MintAt(c, clock), first)[i].token
         == AgentToken(c.agentIdEnv, c.secretEnv, clock(first + i))
    ensures clock(first + i) != clock(first + j) ==>
      AlertRequests(alerts, MintAt(c, clock), first)[i].token != AlertRequests(alerts, MintAt(c, clock), first)[j].token
  {
    AlertRequestsAt(alerts, MintAt(c, clock), first, i);
    AlertRequestsAt(alerts, MintAt(c, clock), first, j);
  }

  // ---------------------------------------------------------------------------
  // Resource monitor

  /** CPU_THRESHOLD, MEMORY_THRESHOLD and DISK_THRESHOLD, in percent. */
  datatype Thresholds = Thresholds(cpu: real, memory: real, disk: real)

  function ConfiguredThresholds(cpuEnv: Option<real>, memoryEnv: Option<real>, diskEnv: Option<real>): (t: Thresholds)
    ensures cpuEnv.None? ==> t.cpu == 80.0
    ensures memoryEnv.None? ==> t.memory == 80.0
    ensures diskEnv.None? ==> t.disk == 90.0
    ensures cpuEnv.Some? ==> t.cpu == cpuEnv.value
    ensures memoryEnv.Some? ==> t.memory == memoryEnv.value
    ensures diskEnv.Some? ==> t.disk == diskEnv.value
  {
    Thresholds(cpuEnv.GetOr(80.0), memoryEnv.GetOr(80.0), diskEnv.GetOr(90.0))
  }

  /** One mounted partition and its usage percentage, or None when reading the usage raised. */
  datatype Partition = Partition(mountpoint: string, usage: Option<real>)

  function MetricAlert(title: string, description: string, metric: string, value: real, threshold: real, now: int)
    : AgentAlert
  {
    AgentAlert(title, description, "warning", "system", Some(MetricReading(metric, value, threshold)), now)
  }

  function CpuAlert(cpu: real, threshold: real, show: real -> string, now: int): AgentAlert
  {
    MetricAlert("High CPU Usage", "CPU usage is at " + show(cpu) + "%", "cpu", cpu, threshold, now)
  }

  function MemoryAlert(memory: real, threshold: real, show: real -> string, now: int): AgentAlert
  {
    MetricAlert("High Memory Usage", "Memory usage is at " + show(memory) + "%", "memory", memory, threshold, now)
  }

  function DiskAlert(p: Partition, usage: real, threshold: real, show: real -> string, now: int): AgentAlert
  {
    MetricAlert("High Disk Usage", "Disk usage on " + p.mountpoint + " is at " + show(usage) + "%",
      "disk", usage, threshold, now)
  }

  /** The partition is readable and over the disk threshold. */
  predicate DiskBreach(p: Partition, threshold: real)
  {
    p.usage.Some? && p.usage.value > threshold
  }

  function PartitionAlerts(p: Partition, threshold: real, show: real -> string, now: int): seq<AgentAlert>
  {
    if DiskBreach(p, threshold) then [DiskAlert(p, p.usage.value, threshold, show, now)] else []
  }

  function DiskAlerts(parts: seq<Partition>, threshold: real, show: real -> string, now: int): seq<AgentAlert>
  {
    if parts == [] then []
    else DiskAlerts(parts[..|parts| - 1], threshold, show, now) + PartitionAlerts(parts[|parts| - 1], threshold, show, now)
  }

  function Breach(reading: Option<real>, threshold: real): nat
  {
    if reading.Some? && reading.value > threshold then 1 else 0
  }

  /** The alert for one reading when it is strictly above its threshold. */
  function Over(value: real, threshold: real, alert: AgentAlert): seq<AgentAlert>
  {
    if value > threshold then [alert] else []
  }

  /** The alerts of one monitoring tick. A CPU reading that raises ends the tick with no alert; a memory
      reading or partition listing that raises ends it after the alerts already raised. */
  function TickAlerts(cpu: Option<real>, memory: Option<real>, partitions: Option<seq<Partition>>,
                      th: Thresholds, show: real -> string, now: int): seq<AgentAlert>
  {
    if cpu.None? then []
    else
      var cpuAlerts := Over(cpu.value, th.cpu, CpuAlert(cpu.value, th.cpu, show, now));
      if memory.None? then cpuAlerts
      else
        var memoryAlerts := Over(memory.value, th.memory, MemoryAlert(memory.value, th.memory, show, now));
        if partitions.None? then cpuAlerts + memoryAlerts
        else cpuAlerts + memoryAlerts + DiskAlerts(partitions.value, th.disk, show, now)
  }

  /** The disk check of one tick: a partition whose usage cannot be read is skipped, the others are
      still checked. */
  method CheckPartitions(parts: seq<Partition>, threshold: real, show: real -> string, now: int,
                         mint: nat -> Token, first: nat)
    returns (sent: seq<Request>)
    ensures sent == AlertRequests(DiskAlerts(parts, threshold, show, now), mint, first)
  {
    sent := [];
    ghost var alerts: seq<AgentAlert> := [];
    var i := 0;
    while i < |parts|
      invariant i <= |parts|
      invariant alerts == DiskAlerts(parts[..i], threshold, show, now)
      invariant sent == AlertRequests(alerts, mint, first)
    {
      assert parts[..i + 1][..i] == parts[..i];
      var p := parts[i];
      if p.usage.Some? && p.usage.value > threshold {
        var alert := DiskAlert(p, p.usage.value, threshold, show, now);
        assert (alerts + [alert])[..|alerts|] == alerts;
        alerts := alerts + [alert];
        sent := sent + [AlertRequest(alert, mint(first + |sent|))];
      }
      i := i + 1;
    }
    assert parts[..i] == parts;
  }

  /** One iteration of `check_system_metrics`: every alert is posted with a token minted for it, the
      k-th post of the tick at time `clock(k)`. */
  method CheckSystemMetrics(cpu: Option<real>, memory: Option<real>, partitions: Option<seq<Partition>>,
                            th: Thresholds, show: real -> string, now: int, c: Credentials, clock: nat -> string)
    returns (sent: seq<Request>)
    ensures sent == AlertRequests(TickAlerts(cpu, memory, partitions, th, show, now), MintAt(c, clock), 0)
  {
    sent := [];
    if cpu.None? {
      return;
    }
    var alerts := Over(cpu.value, th.cpu, CpuAlert(cpu.value, th.cpu, show, now));
    if memory.None? {
      assert TickAlerts(cpu, memory, partitions, th, show, now) == alerts;
      sent := AlertRequests(alerts, MintAt(c, clock), 0);
      return;
    }
    alerts := alerts + Over(memory.value, th.memory, MemoryAlert(memory.value, th.memory, show, now));
    sent := AlertRequests(alerts, MintAt(c, clock), 0);
    if partitions.None? {
      assert TickAlerts(cpu, memory, partitions, th, show, now) == alerts;
    } else {
      ghost var diskAlerts := DiskAlerts(partitions.value, th.disk, show, now);
      assert TickAlerts(cpu, memory, partitions, th, show, now) == alerts + diskAlerts;
      var disk := CheckPartitions(partitions.value, th.disk, show, now, MintAt(c, clock), |alerts|);
      PostedInTurn(alerts, diskAlerts, MintAt(c, clock), sent, disk);
      sent := sent + disk;
    }
  }

  /** The posts of a tick so far followed by the disk posts are the posts of all its alerts. */
  lemma PostedInTurn(a: seq<AgentAlert>, b: seq<AgentAlert>, mint: nat -> Token, sa: seq<Request>, sb: seq<Request>)
    requires sa == AlertRequests(a, mint, 0) && sb == AlertRequests(b, mint, |a|)
    ensures sa + sb == AlertRequests(a + b, mint, 0)
  {
    AlertRequestsAppend(a, b, mint, 0);
  }

  /** Posting two runs of alerts one after the other is posting their concatenation, the second run's
      tokens counted on from the first's. */
  lemma {:induction false} AlertRequestsAppend(a: seq<AgentAlert>, b: seq<AgentAlert>, mint: nat -> Token, first: nat)
    ensures AlertRequests(a + b, mint, first) == AlertRequests(a, mint, first) + AlertRequests(b, mint, first + |a|)
    decreases |b|
  {
    if b == [] {
      assert a + b == a;
    } else {
      var init := b[..|b| - 1];
      assert (a + b)[..|a + b| - 1] == a + init;
      assert (a + b)[|a + b| - 1] == b[|b| - 1];
      AlertRequestsAppend(a, init, mint, first);
    }
  }

  /** Every disk alert comes from one readable partition over the threshold, and every such partition
      raises exactly one. */
  lemma {:induction false} DiskAlertsPerPartition(parts: seq<Partition>, threshold: real, show: real -> string, now: int)
    ensures |DiskAlerts(parts, threshold, show, now)| == |Filter((p: Partition) => DiskBreach(p, threshold), parts)|
    ensures forall a :: a in DiskAlerts(parts, threshold, show, now) ==>
      exists p :: p in parts && DiskBreach(p, threshold) && a == DiskAlert(p, p.usage.value, threshold, show, now)
  {
    if parts != [] {
      var init, last := parts[..|parts| - 1], parts[|parts| - 1];
      assert parts == init + [last];
      DiskAlertsPerPartition(init, threshold, show, now);
      FilterSnoc((p: Partition) => DiskBreach(p, threshold), init, last);
      forall a | a in DiskAlerts(parts, threshold, show, now)
        ensures exists p :: p in parts && DiskBreach(p, threshold) && a == DiskAlert(p, p.usage.value, threshold, show, now)
      {
        if a !in DiskAlerts(init, threshold, show, now) {
          assert last in parts;
        } else {
          var p :| p in init && DiskBreach(p, threshold) && a == DiskAlert(p, p.usage.value, threshold, show, now);
          assert p in parts;
        }
      }
    }
  }

  /** Every alert of a tick is a `warning` from `system` carrying its metric, a value strictly above
      its threshold, and that threshold. */
  lemma TickAlertsShape(cpu: Option<real>, memory: Option<real>, partitions: Option<seq<Partition>>,
                        th: Thresholds, show: real -> string, now: int)
    ensures forall a :: a in TickAlerts(cpu, memory, partitions, th, show, now) ==>
      a.severity == "warning" && a.source == "system" && a.reading.Some?
      && a.reading.value.value > a.reading.value.threshold
      && a.reading.value.metric in {"cpu", "memory", "disk"}
  {
    if cpu.Some? && memory.Some? && partitions.Some? {
      DiskAlertsPerPartition(partitions.value, th.disk, show, now);
    }
  }

  /** The comparison is strict: readings equal to their thresholds raise nothing. */
  lemma AtThresholdNoAlert(partitions: seq<Partition>, th: Thresholds, show: real -> string, now: int)
    requires forall p :: p in partitions ==> p.usage.Some? && p.usage.value == th.disk
    ensures TickAlerts(Some(th.cpu), Some(th.memory), Some(partitions), th, show, now) == []
  {
    DiskAlertsPerPartition(partitions, th.disk, show, now);
    FilterNone((p: Partition) => DiskBreach(p, th.disk), partitions);
  }

  /** The monitor keeps no state between ticks: a CPU reading above the threshold raises the CPU alert
      first on every tick, whatever happened before. */
  lemma PersistentBreachRealerts(cpu: real, memory: Option<real>, partitions: Option<seq<Partition>>,
                                 th: Thresholds, show: real -> string, now: int)
    requires cpu > th.cpu
    ensures var alerts := TickAlerts(Some(cpu), memory, partitions, th, show, now);
      |alerts| >= 1 && alerts[0] == CpuAlert(cpu, th.cpu, show, now)
  {
  }

  /** At most one CPU alert and one memory alert per tick, followed by the disk alerts. */
  lemma TickAlertsLayout(cpu: Option<real>, memory: Option<real>, partitions: Option<seq<Partition>>,
                         th: Thresholds, show: real -> string, now: int)
    requires cpu.Some? && memory.Some? && partitions.Some?
    ensures TickAlerts(cpu, memory, partitions, th, show, now)
      == (if Breach(cpu, th.cpu) == 1 then [CpuAlert(cpu.value, th.cpu, show, now)] else [])
         + (if Breach(memory, th.memory) == 1 then [MemoryAlert(memory.value, th.memory, show, now)] else [])
         + DiskAlerts(partitions.value, th.disk, show, now)
    ensures |TickAlerts(cpu, memory, partitions, th, show, now)|
      == Breach(cpu, th.cpu) + Breach(memory, th.memory)
         + |Filter((p: Partition) => DiskBreach(p, th.disk), partitions.value)|
  {
    DiskAlertsPerPartition(partitions.value, th.disk, show, now);
  }

  // ---------------------------------------------------------------------------
  // PowerShell and the Windows-update probe

  /** How a `powershell -Command` run ended: with its output, with a non-zero exit status
      (CalledProcessError), or with any other exception, which `run_powershell_command` lets escape. */
  datatype CommandOutcome = Completed(stdout: string) | ExitedNonZero | LaunchFailed(message: string)

  /** `run_powershell_command`: the stripped output, `""` on a non-zero exit, None when the
      exception escapes. */
  function RunPowershellCommand(o: CommandOutcome): (r: Option<string>)
    ensures r.None? <==> o.LaunchFailed?
    ensures o.Completed? ==> r.value == Strip(o.stdout)
    ensures o.ExitedNonZero? ==> r.value == ""
  {
    match o
    case Completed(out) => Some(Strip(out))
    case ExitedNonZero => Some("")
    case LaunchFailed(_) => None
  }

  function UpdateIssue(osVersion: string, node: string, now: int): Vulnerability
  {
    Vulnerability("Windows Update Issues Detected", "Windows Update service is not functioning properly",
      "high", 7.5, "Windows Update Service", [osVersion],
      "Check Windows Update service and ensure it is running", now, "open", "windows", node, "os",
      ["windows", "updates"])
  }

  predicate ReportsUpdateFailure(log: string)
  {
    Contains(log, "Failed") || Contains(log, "Error")
  }

  /** `scan_windows_vulnerabilities`: one finding when the update log mentions `Failed` or `Error`;
      None when the PowerShell call raised. */
  method ScanWindowsVulnerabilities(update: CommandOutcome, osVersion: string, node: string, now: int)
    returns (r: Option<seq<Vulnerability>>)
    ensures r.None? <==> update.LaunchFailed?
    ensures r.Some? ==> (r.value != [] <==> ReportsUpdateFailure(RunPowershellCommand(update).value))
    ensures r.Some? ==> r.value == [] || r.value == [UpdateIssue(osVersion, node, now)]
  {
    var status := RunPowershellCommand(update);
    if status.None? {
      return None;
    }
    var vulnerabilities := [];
    if Contains(status.value, "Failed") || Contains(status.value, "Error") {
      vulnerabilities := vulnerabilities + [UpdateIssue(osVersion, node, now)];
    }
    r := Some(vulnerabilities);
  }

  /** A command that exits non-zero reads as `""`, which reports nothing. */
  lemma FailedCommandNoFinding()
    ensures RunPowershellCommand(ExitedNonZero) == Some("")
    ensures !ReportsUpdateFailure("")
  {
  }

  // ---------------------------------------------------------------------------
  // Dispatch and the scan cycle

  /** `send_security_results`: the whole payload as one request to the endpoint's path, or nothing
      for an unknown endpoint. */
  function SecurityResultRequests(endpoint: string, data: ScanPayload, token: Token): (rs: seq<Request>)
    ensures |rs| <= 1
    ensures rs != [] <==> endpoint in {"vulnerabilities", "compliance"}
    ensures forall r :: r in rs ==> r.body == ScanBody(data) && r.token == token
    ensures endpoint == "vulnerabilities" ==> rs == [Request(VulnerabilityScanPath, token, ScanBody(data))]
    ensures endpoint == "compliance" ==> rs == [Request(ComplianceCheckPath, token, ScanBody(data))]
  {
    if endpoint == "vulnerabilities" then [Request(VulnerabilityScanPath, token, ScanBody(data))]
    else if endpoint == "compliance" then [Request(ComplianceCheckPath, token, ScanBody(data))]
    else []
  }

  /** `check_windows_compliance`: no compliance checks are implemented in this agent. */
  function CheckWindowsCompliance(): seq<ComplianceControl>
  {
    []
  }

  function ScanErrorAlert(message: string, now: int): AgentAlert
  {
    AgentAlert("Security Scan Error", "Error during security scan: " + message, "error", "security", None, now)
  }

  /** One iteration of `run_security_scans`: the update findings are posted, unchunked, only when there
      are any; compliance results are empty and never posted; an escaped exception is reported as one
      alert. */
  method RunSecurityScans(update: CommandOutcome, osVersion: string, node: string, now: int,
                          resultsToken: Token, alertToken: Token)
    returns (posted: seq<Request>)
    ensures update.LaunchFailed? ==> posted == [AlertRequest(ScanErrorAlert(update.message, now), alertToken)]
    ensures !update.LaunchFailed? && !ReportsUpdateFailure(RunPowershellCommand(update).value) ==> posted == []
    ensures !update.LaunchFailed? && ReportsUpdateFailure(RunPowershellCommand(update).value) ==>
      posted == [Request(VulnerabilityScanPath, resultsToken,
                         ScanBody(ScanPayload(Some([UpdateIssue(osVersion, node, now)]), None)))]
  {
    posted := [];
    var vulnerabilities := ScanWindowsVulnerabilities(update, osVersion, node, now);
    if vulnerabilities.None? {
      posted := posted + [AlertRequest(ScanErrorAlert(update.message, now), alertToken)];
      return;
    }
    if vulnerabilities.value != [] {
      posted := posted + SecurityResultRequests("vulnerabilities", ScanPayload(Some(vulnerabilities.value), None), resultsToken);
    }
    var compliance := CheckWindowsCompliance();
    if compliance != [] {
      posted := posted + SecurityResultRequests("compliance", ScanPayload(None, Some(compliance)), resultsToken);
    }
  }

  /** A scan error is reported with severity `error` from source `security`, without a metric reading. */
  lemma ScanErrorAlertShape(message: string, now: int)
    ensures var a := ScanErrorAlert(message, now);
      a.severity == "error" && a.source == "security" && a.reading.None?
      && a.description == "Error during security scan: " + message
  {
  }
}
