/** The osquery wrapper of the host agent (agent/src/osquery_manager.py): locating `osqueryi`,
    running a query, and renaming the rows of the process, network and system tables into the
    dashboard's event records. File existence, `shutil.which` and the outcome of each `osqueryi` run
    are inputs; query results are rows of string-valued columns, as `osqueryi --json` prints them. */
module OsqueryManager {
  import opened Wrappers
  import opened Lists

  /** One row of `osqueryi --json` output: column name to value. */
  type Row = map<string, string>

  /** `row.get(key)`. */
  function Get(row: Row, key: string): (v: Option<string>)
    ensures v.Some? <==> key in row
    ensures v.Some? ==> v.value == row[key]
  {
    if key in row then Some(row[key]) else None
  }

  // ---------------------------------------------------------------------------
  // Locating the binary

  const WindowsCandidates: seq<string> :=
    ["C:\\Program Files\\osquery\\osqueryi.exe", "C:\\ProgramData\\osquery\\osqueryi.exe", "C:\\osquery\\osqueryi.exe"]

  const UnixCandidates: seq<string> := ["/usr/bin/osqueryi", "/usr/local/bin/osqueryi", "/opt/osquery/bin/osqueryi"]

  /** The fixed install locations of the platform, then the PATH hit for the platform's binary name
      when there is one. */
  function Candidates(isWindows: bool, which: string -> Option<string>): (paths: seq<string>)
  {
    var fixed := if isWindows then WindowsCandidates else UnixCandidates;
    var onPath := which(if isWindows then "osqueryi.exe" else "osqueryi");
    fixed + if onPath.Some? && onPath.value != "" then [onPath.value] else []
  }

  predicate Usable(path: string, isFile: string -> bool)
  {
    path != "" && isFile(path)
  }

  /** The first non-empty path that names an existing file. */
  function FirstUsable(paths: seq<string>, isFile: string -> bool): (r: Option<string>)
    ensures r.None? <==> forall p :: p in paths ==> !Usable(p, isFile)
    ensures r.Some? ==> exists i :: 0 <= i < |paths| && paths[i] == r.value && Usable(paths[i], isFile)
                                    && forall j :: 0 <= j < i ==> !Usable(paths[j], isFile)
  {
    if paths == [] then None
    else if Usable(paths[0], isFile) then Some(paths[0])
    else
      var r := FirstUsable(paths[1..], isFile);
      assert forall p :: p in paths[1..] ==> p in paths;
      assert r.Some? ==> exists i :: 1 <= i < |paths| && paths[i] == r.value && Usable(paths[i], isFile)
                                     && forall j :: 0 <= j < i ==> !Usable(paths[j], isFile) by {
        if r.Some? {
          var i :| 0 <= i < |paths[1..]| && paths[1..][i] == r.value && Usable(paths[1..][i], isFile)
                   && forall j :: 0 <= j < i ==> !Usable(paths[1..][j], isFile);
          assert paths[i + 1] == r.value;
          assert forall j :: 1 <= j < i + 1 ==> paths[j] == paths[1..][j - 1];
        }
      }
      r
  }

  /** `_find_osquery`: the candidates are tried in order and the first existing file is returned. */
  method FindOsquery(isWindows: bool, which: string -> Option<string>, isFile: string -> bool)
    returns (found: Option<string>)
    ensures found == FirstUsable(Candidates(isWindows, which), isFile)
  {
    var paths := Candidates(isWindows, which);
    var i := 0;
    while i < |paths|
      invariant i <= |paths|
      invariant FirstUsable(paths[i..], isFile) == FirstUsable(paths, isFile)
    {
      assert paths[i..][1..] == paths[i + 1..];
      if paths[i] != "" && isFile(paths[i]) {
        return Some(paths[i]);
      }
      i := i + 1;
    }
    assert paths[i..] == [];
    return None;
  }

  /** The PATH hit is tried only after every fixed location. */
  lemma PathHitIsLastResort(isWindows: bool, which: string -> Option<string>, isFile: string -> bool)
    requires exists p :: p in (if isWindows then WindowsCandidates else UnixCandidates) && Usable(p, isFile)
    ensures var r := FirstUsable(Candidates(isWindows, which), isFile);
      r.Some? && r.value in (if isWindows then WindowsCandidates else UnixCandidates)
  {
    var fixed := if isWindows then WindowsCandidates else UnixCandidates;
    var paths := Candidates(isWindows, which);
    var r := FirstUsable(paths, isFile);
    var p :| p in fixed && Usable(p, isFile);
    var k :| 0 <= k < |fixed| && fixed[k] == p;
    assert paths[k] == p;
    var i :| 0 <= i < |paths| && paths[i] == r.value && Usable(paths[i], isFile)
             && forall j :: 0 <= j < i ==> !Usable(paths[j], isFile);
    assert i <= k;
    assert paths[i] == fixed[i];
  }

  // ---------------------------------------------------------------------------
  // Queries

  /** How one `osqueryi --json` run went: its exit status and its output parsed as rows (None when the
      output is not such JSON), or an exception while starting it. */
  datatype QueryRun = Exited(returnCode: int, parsed: Option<seq<Row>>) | Raised

  const ProcessesQuery := "SELECT pid, name, path, cmdline, state, parent, uid FROM processes;"
  const NetworkQuery := "SELECT DISTINCT processes.name, processes.path, listening.port, listening.address, listening.protocol FROM processes JOIN listening_ports AS listening ON processes.pid = listening.pid;"
  const SystemInfoQuery := "SELECT hostname, cpu_brand, physical_memory, hardware_vendor, hardware_model, hardware_serial FROM system_info;"

  // ---------------------------------------------------------------------------
  // Normalised records

  datatype EventData =
    | ProcessData(pid: Option<string>, name: Option<string>, path: Option<string>, command: Option<string>,
                  state: Option<string>, parentPid: Option<string>, userId: Option<string>)
    | NetworkData(processName: Option<string>, processPath: Option<string>, localPort: Option<string>,
                  localAddress: Option<string>, protocol: Option<string>)
    | SystemData(hostname: Option<string>, cpu: Option<string>, memory: Option<string>, vendor: Option<string>,
                 model: Option<string>, serial: Option<string>)

  datatype Event = Event(kind: string, timestamp: string, data: EventData)

  function ProcessEvent(row: Row, now: string): Event
  {
    Event("process", now, ProcessData(Get(row, "pid"), Get(row, "name"), Get(row, "path"), Get(row, "cmdline"),
                                      Get(row, "state"), Get(row, "parent"), Get(row, "uid")))
  }

  function NetworkEvent(row: Row, now: string): Event
  {
    Event("network_connection", now, NetworkData(Get(row, "name"), Get(row, "path"), Get(row, "port"),
                                                 Get(row, "address"), Get(row, "protocol")))
  }

  function SystemEvent(row: Row, now: string): Event
  {
    Event("system_info", now, SystemData(Get(row, "hostname"), Get(row, "cpu_brand"), Get(row, "physical_memory"),
                                         Get(row, "hardware_vendor"), Get(row, "hardware_model"), Get(row, "hardware_serial")))
  }

  /** The process columns keep their names except `cmdline`, `parent` and `uid`, which become
      `command`, `parent_pid` and `user_id`. */
  lemma ProcessRenames(row: Row, now: string)
    ensures var d := ProcessEvent(row, now).data;
      d.pid == Get(row, "pid") && d.name == Get(row, "name") && d.path == Get(row, "path")
      && d.state == Get(row, "state") && d.command == Get(row, "cmdline")
      && d.parentPid == Get(row, "parent") && d.userId == Get(row, "uid")
    ensures ProcessEvent(row, now).kind == "process"
  {
  }

  /** The network columns `name`, `path`, `port` and `address` become `process_name`, `process_path`,
      `local_port` and `local_address`; `protocol` is kept. */
  lemma NetworkRenames(row: Row, now: string)
    ensures var d := NetworkEvent(row, now).data;
      d.processName == Get(row, "name") && d.processPath == Get(row, "path") && d.localPort == Get(row, "port")
      && d.localAddress == Get(row, "address") && d.protocol == Get(row, "protocol")
    ensures NetworkEvent(row, now).kind == "network_connection"
  {
  }

  /** `format_system_info`: None when there are no rows or the first row is empty; otherwise only the
      first row is read. */
  function FormatSystemInfo(data: Option<seq<Row>>, now: string): (r: Option<Event>)
    ensures r.None? <==> data.None? || data.value == [] || data.value[0] == map[]
    ensures r.Some? ==> r.value == SystemEvent(data.value[0], now)
  {
    if data.None? || data.value == [] || data.value[0] == map[] then None else Some(SystemEvent(data.value[0], now))
  }

  /** Only the first row matters to the system record. */
  lemma SystemInfoReadsFirstRowOnly(first: Row, rest1: seq<Row>, rest2: seq<Row>, now: string)
    ensures FormatSystemInfo(Some([first] + rest1), now) == FormatSystemInfo(Some([first] + rest2), now)
  {
  }

  /** `format_process_data`: one record per row, in order; no rows (or no result) gives none. */
  method FormatProcessData(data: Option<seq<Row>>, now: string) returns (formatted: seq<Event>)
    ensures data.None? ==> formatted == []
    ensures data.Some? ==> formatted == Map((row: Row) => ProcessEvent(row, now), data.value)
  {
    formatted := [];
    if data.None? || data.value == [] {
      return;
    }
    var rows := data.value;
    var i := 0;
    while i < |rows|
      invariant i <= |rows|
      invariant formatted == Map((row: Row) => ProcessEvent(row, now), rows[..i])
    {
      formatted := formatted + [ProcessEvent(rows[i], now)];
      i := i + 1;
    }
    assert rows[..i] == rows;
  }

  /** `format_network_data`: one record per row, in order; no rows (or no result) gives none. */
  method FormatNetworkData(data: Option<seq<Row>>, now: string) returns (formatted: seq<Event>)
    ensures data.None? ==> formatted == []
    ensures data.Some? ==> formatted == Map((row: Row) => NetworkEvent(row, now), data.value)
  {
    formatted := [];
    if data.None? || data.value == [] {
      return;
    }
    var rows := data.value;
    var i := 0;
    while i < |rows|
      invariant i <= |rows|
      invariant formatted == Map((row: Row) => NetworkEvent(row, now), rows[..i])
    {
      formatted := formatted + [NetworkEvent(rows[i], now)];
      i := i + 1;
    }
    assert rows[..i] == rows;
  }

  datatype Collected = Collected(processes: seq<Event>, network: seq<Event>, system: Option<Event>)

  class OSQueryManager {
    /** `osqueryi_path`: where the binary was found, if anywhere. */
    var osqueryiPath: Option<string>

    /** `__init__`: the path is searched once, at construction. */
    constructor(isWindows: bool, which: string -> Option<string>, isFile: string -> bool)
      ensures osqueryiPath == FirstUsable(Candidates(isWindows, which), isFile)
    {
      var found := FindOsquery(isWindows, which, isFile);
      osqueryiPath := found;
    }

    /** `run_query`: the parsed rows when the binary is known, the run exits with status 0 and its output
        parses; None in every other case. */
    function RunQuery(run: QueryRun): (r: Option<seq<Row>>)
      reads this
      ensures r.Some? <==> osqueryiPath.Some? && run.Exited? && run.returnCode == 0 && run.parsed.Some?
      ensures r.Some? ==> r.value == run.parsed.value
    {
      if osqueryiPath.None? then None
      else match run
        case Raised => None
        case Exited(code, parsed) => if code != 0 then None else parsed
    }

    /** `collect_all_data`: without the binary, no processes, no connections and no system record;
        with it, each table comes from its own query, so one failed query empties only its own part. */
    method CollectAllData(runs: string -> QueryRun, now: string) returns (d: Collected)
      ensures osqueryiPath.None? ==> d == Collected([], [], None)
      ensures osqueryiPath.Some? ==>
        d.processes == (var rows := RunQuery(runs(ProcessesQuery));
                        if rows.None? then [] else Map((row: Row) => ProcessEvent(row, now), rows.value))
        && d.network == (var rows := RunQuery(runs(NetworkQuery));
                         if rows.None? then [] else Map((row: Row) => NetworkEvent(row, now), rows.value))
        && d.system == FormatSystemInfo(RunQuery(runs(SystemInfoQuery)), now)
    {
      if osqueryiPath.None? {
        return Collected([], [], None);
      }
      var processes := FormatProcessData(RunQuery(runs(ProcessesQuery)), now);
      var network := FormatNetworkData(RunQuery(runs(NetworkQuery)), now);
      d := Collected(processes, network, FormatSystemInfo(RunQuery(runs(SystemInfoQuery)), now));
    }
  }

  /** Every failure mode of `run_query` gives None: no binary, a non-zero exit, an exception, or output
      that does not parse. */
  lemma RunQueryFailures(m: OSQueryManager, code: int, rows: seq<Row>)
    ensures m.osqueryiPath.None? ==> m.RunQuery(Exited(0, Some(rows))).None?
    ensures code != 0 ==> m.RunQuery(Exited(code, Some(rows))).None?
    ensures m.RunQuery(Raised).None? && m.RunQuery(Exited(0, None)).None?
    ensures m.osqueryiPath.Some? ==> m.RunQuery(Exited(0, Some(rows))) == Some(rows)
  {
  }
}
