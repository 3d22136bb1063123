/** The stand-alone host scan (agent/src/security_scan.py): listening ports, processes started from
    temporary directories, and the findings derived from both. The psutil tables are inputs. */
module SecurityScan {
  import opened Wrappers
  import opened Text
  import opened Lists

  // ---------------------------------------------------------------------------
  // Open ports

  /** One row of `psutil.net_connections(kind='inet')`. */
  datatype Connection = Connection(status: string, port: nat, ip: string, pid: Option<nat>)

  datatype OpenPort = OpenPort(port: nat, address: string, pid: Option<nat>)

  predicate IsListening(c: Connection)
  {
    c.status == "LISTEN"
  }

  function ToOpenPort(c: Connection): OpenPort
  {
    OpenPort(c.port, c.ip, c.pid)
  }

  function ListeningPorts(conns: seq<Connection>): seq<OpenPort>
  {
    if conns == [] then []
    else
      var last := conns[|conns| - 1];
      ListeningPorts(conns[..|conns| - 1]) + if IsListening(last) then [ToOpenPort(last)] else []
  }

  /** `check_open_ports`. */
  method CheckOpenPorts(conns: seq<Connection>) returns (openPorts: seq<OpenPort>)
    ensures openPorts == ListeningPorts(conns)
  {
    openPorts := [];
    var i := 0;
    while i < |conns|
      invariant i <= |conns|
      invariant openPorts == ListeningPorts(conns[..i])
    {
      assert conns[..i + 1][..i] == conns[..i];
      var conn := conns[i];
      if conn.status == "LISTEN" {
        openPorts := openPorts + [OpenPort(conn.port, conn.ip, conn.pid)];
      }
      i := i + 1;
    }
    assert conns[..i] == conns;
  }

  /** The open ports are exactly the listening connections, in order, each with its port, address
      and pid. */
  lemma {:induction false} ListeningPortsAreListeners(conns: seq<Connection>)
    ensures ListeningPorts(conns) == Map(ToOpenPort, Filter(IsListening, conns))
  {
    if conns != [] {
      var init, last := conns[..|conns| - 1], conns[|conns| - 1];
      assert conns == init + [last];
      ListeningPortsAreListeners(init);
      FilterSnoc(IsListening, init, last);
      MapAppend(ToOpenPort, Filter(IsListening, init), if IsListening(last) then [last] else []);
    }
  }

  // ---------------------------------------------------------------------------
  // Suspicious processes

  /** The `pid`, `name`, `exe` and `cmdline` attributes of one process; `exe` and `cmdline` may be
      None. */
  datatype ProcessInfo = ProcessInfo(pid: nat, name: string, exe: Option<string>, cmdline: Option<seq<string>>)

  /** One process of `psutil.process_iter`, or one that vanished, denied access or was a zombie. */
  datatype ProcessRead = Read(info: ProcessInfo) | Skipped

  datatype SuspiciousProcess = SuspiciousProcess(pid: nat, name: string, path: string, cmdline: string)

  /** A non-empty executable path that, lower-cased, mentions `temp` or `tmp`. */
  predicate IsSuspiciousPath(exe: Option<string>)
  {
    exe.Some? && exe.value != "" && (Contains(Lower(exe.value), "temp") || Contains(Lower(exe.value), "tmp"))
  }

  predicate IsSuspiciousRead(r: ProcessRead)
  {
    r.Read? && IsSuspiciousPath(r.info.exe)
  }

  function ToSuspicious(r: ProcessRead): SuspiciousProcess
    requires IsSuspiciousRead(r)
  {
    SuspiciousProcess(r.info.pid, r.info.name, r.info.exe.value, Join(r.info.cmdline.GetOr([]), " "))
  }

  function SuspiciousProcesses(entries: seq<ProcessRead>): seq<SuspiciousProcess>
  {
    if entries == [] then []
    else
      var last := entries[|entries| - 1];
      SuspiciousProcesses(entries[..|entries| - 1]) + if IsSuspiciousRead(last) then [ToSuspicious(last)] else []
  }

  /** `check_running_processes`: a process that cannot be read is passed over and the loop goes on. */
  method CheckRunningProcesses(entries: seq<ProcessRead>) returns (suspicious: seq<SuspiciousProcess>)
    ensures suspicious == SuspiciousProcesses(entries)
  {
    suspicious := [];
    var i := 0;
    while i < |entries|
      invariant i <= |entries|
      invariant suspicious == SuspiciousProcesses(entries[..i])
    {
      assert entries[..i + 1][..i] == entries[..i];
      var r := entries[i];
      if r.Read? {
        var exe := r.info.exe;
        if exe.Some? && exe.value != "" && (Contains(Lower(exe.value), "temp") || Contains(Lower(exe.value), "tmp")) {
          suspicious := suspicious + [SuspiciousProcess(r.info.pid, r.info.name, exe.value, Join(r.info.cmdline.GetOr([]), " "))];
        }
      }
      i := i + 1;
    }
    assert entries[..i] == entries;
  }

  /** Exactly the readable processes with a suspicious path are reported, in order; an unreadable one
      is skipped without affecting the others. */
  lemma {:induction false} SuspiciousAreFiltered(entries: seq<ProcessRead>)
    ensures |SuspiciousProcesses(entries)| == |Filter(IsSuspiciousRead, entries)|
    ensures forall k :: 0 <= k < |SuspiciousProcesses(entries)| ==>
      SuspiciousProcesses(entries)[k] == ToSuspicious(Filter(IsSuspiciousRead, entries)[k])
  {
    if entries != [] {
      var init, last := entries[..|entries| - 1], entries[|entries| - 1];
      assert entries == init + [last];
      SuspiciousAreFiltered(init);
      FilterSnoc(IsSuspiciousRead, init, last);
    }
  }

  /** The emptiness guard is subsumed by the substring test: the rule reduces to "the path mentions
      `temp` or `tmp`, ignoring case". */
  lemma SuspiciousPathRule(path: string)
    ensures IsSuspiciousPath(Some(path)) <==> Contains(Lower(path), "temp") || Contains(Lower(path), "tmp")
    ensures !IsSuspiciousPath(None)
  {
    if path == "" {
      assert Lower(path) == "";
    }
  }

  /** A missing command line is reported as the empty string; a present one is joined with single
      spaces. */
  lemma CommandLineJoin(pid: nat, name: string, exe: string, args: seq<string>)
    requires IsSuspiciousPath(Some(exe))
    ensures ToSuspicious(Read(ProcessInfo(pid, name, Some(exe), None))).cmdline == ""
    ensures ToSuspicious(Read(ProcessInfo(pid, name, Some(exe), Some(args)))).cmdline == Join(args, " ")
  {
  }

  // ---------------------------------------------------------------------------
  // Findings

  datatype Details = PortDetails(openPort: OpenPort) | ProcessDetails(process: SuspiciousProcess)

  datatype Finding = Finding(kind: string, severity: string, description: string, details: Details)

  const HighPortFloor: nat := 49152

  function PortFinding(p: OpenPort): Finding
  {
    Finding("open_port", "medium", "High port " + NatToString(p.port) + " open on " + p.address, PortDetails(p))
  }

  function ProcessFinding(p: SuspiciousProcess): Finding
  {
    Finding("suspicious_process", "high", "Suspicious process running from " + p.path, ProcessDetails(p))
  }

  predicate IsHighPort(p: OpenPort)
  {
    p.port > HighPortFloor
  }

  function PortFindings(ports: seq<OpenPort>): seq<Finding>
  {
    if ports == [] then []
    else
      var last := ports[|ports| - 1];
      PortFindings(ports[..|ports| - 1]) + if IsHighPort(last) then [PortFinding(last)] else []
  }

  function ProcessFindings(procs: seq<SuspiciousProcess>): seq<Finding>
  {
    if procs == [] then [] else ProcessFindings(procs[..|procs| - 1]) + [ProcessFinding(procs[|procs| - 1])]
  }

  /** The first loop of the findings step: one `medium` finding per port above 49152. */
  method CollectPortFindings(ports: seq<OpenPort>) returns (findings: seq<Finding>)
    ensures findings == PortFindings(ports)
  {
    findings := [];
    var i := 0;
    while i < |ports|
      invariant i <= |ports|
      invariant findings == PortFindings(ports[..i])
    {
      assert ports[..i + 1][..i] == ports[..i];
      if ports[i].port > HighPortFloor {
        findings := findings + [PortFinding(ports[i])];
      }
      i := i + 1;
    }
    assert ports[..i] == ports;
  }

  /** The second loop of the findings step: one `high` finding per suspicious process. */
  method CollectProcessFindings(procs: seq<SuspiciousProcess>) returns (findings: seq<Finding>)
    ensures findings == ProcessFindings(procs)
  {
    findings := [];
    var i := 0;
    while i < |procs|
      invariant i <= |procs|
      invariant findings == ProcessFindings(procs[..i])
    {
      assert procs[..i + 1][..i] == procs[..i];
      findings := findings + [ProcessFinding(procs[i])];
      i := i + 1;
    }
    assert procs[..i] == procs;
  }

  /** Port findings are exactly the ports above 49152, in order, each `medium`. */
  lemma {:induction false} PortFindingsAreHighPorts(ports: seq<OpenPort>)
    ensures PortFindings(ports) == Map(PortFinding, Filter(IsHighPort, ports))
    ensures forall f :: f in PortFindings(ports) ==> f.severity == "medium" && f.kind == "open_port"
  {
    if ports != [] {
      var init, last := ports[..|ports| - 1], ports[|ports| - 1];
      assert ports == init + [last];
      PortFindingsAreHighPorts(init);
      FilterSnoc(IsHighPort, init, last);
      MapAppend(PortFinding, Filter(IsHighPort, init), if IsHighPort(last) then [last] else []);
    }
  }

  /** The comparison is strict: port 49152 itself is not reported, 49153 is. */
  lemma HighPortBoundary(address: string, pid: Option<nat>)
    ensures PortFindings([OpenPort(49152, address, pid)]) == []
    ensures PortFindings([OpenPort(49153, address, pid)]) == [PortFinding(OpenPort(49153, address, pid))]
  {
    assert [OpenPort(49152, address, pid)][..0] == [];
    assert [OpenPort(49153, address, pid)][..0] == [];
  }

  /** Each suspicious process yields exactly one `high` finding, in order. */
  lemma {:induction false} ProcessFindingsOnePerProcess(procs: seq<SuspiciousProcess>)
    ensures ProcessFindings(procs) == Map(ProcessFinding, procs)
  {
    if procs != [] {
      var init := procs[..|procs| - 1];
      assert procs == init + [procs[|procs| - 1]];
      ProcessFindingsOnePerProcess(init);
      MapAppend(ProcessFinding, init, [procs[|procs| - 1]]);
    }
  }

  /** The fixed answers of the `check_system_integrity` placeholder. */
  datatype Integrity = Integrity(firewallEnabled: bool, antivirusRunning: bool, updatesPending: bool, systemModified: bool)

  function CheckSystemIntegrity(): Integrity
  {
    Integrity(true, true, false, false)
  }

  datatype ScanResults = ScanResults(
    timestamp: string,
    hostname: string,
    os: string,
    openPorts: seq<OpenPort>,
    suspiciousProcesses: seq<SuspiciousProcess>,
    systemIntegrity: Integrity,
    vulnerabilities: seq<Finding>,
    findings: seq<Finding>)

  /** `run_security_scan`: None when listing the connections or the processes raised; otherwise the
      port findings followed by the process findings. */
  method RunSecurityScan(conns: Option<seq<Connection>>, procs: Option<seq<ProcessRead>>,
                         timestamp: string, hostname: string, os: string)
    returns (r: Option<ScanResults>)
    ensures r.None? <==> conns.None? || procs.None?
    ensures r.Some? ==>
      r.value.openPorts == ListeningPorts(conns.value)
      && r.value.suspiciousProcesses == SuspiciousProcesses(procs.value)
      && r.value.findings == PortFindings(r.value.openPorts) + ProcessFindings(r.value.suspiciousProcesses)
      && r.value.systemIntegrity == CheckSystemIntegrity() && r.value.vulnerabilities == []
  {
    if conns.None? || procs.None? {
      return None;
    }
    var openPorts := CheckOpenPorts(conns.value);
    var suspicious := CheckRunningProcesses(procs.value);
    var portFindings := CollectPortFindings(openPorts);
    var processFindings := CollectProcessFindings(suspicious);
    r := Some(ScanResults(timestamp, hostname, os, openPorts, suspicious, CheckSystemIntegrity(), [],
                          portFindings + processFindings));
  }
}
