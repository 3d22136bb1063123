/** The osquery tab of the dashboard's agent view (src/components/agents/tabs/OSQueryTab.tsx): the
    per-state and per-protocol tallies behind its charts, the protocol names, the two search filters
    and the tab counters. Each row is the `data` part of a record the agent's osquery normaliser
    produced; every field may be missing. */
module OsqueryTab {
  import opened Wrappers
  import opened Text
  import opened Lists

  datatype ProcessRow = ProcessRow(name: Option<string>, path: Option<string>, command: Option<string>, state: Option<string>)

  datatype NetworkRow = NetworkRow(processName: Option<string>, localAddress: Option<string>, localPort: Option<string>,
                                   protocol: Option<string>)

  /** `x || "UNKNOWN"`: a missing or empty value is tallied as `UNKNOWN`. */
  function OrUnknown(v: Option<string>): string
  {
    if v.Some? && v.value != "" then v.value else "UNKNOWN"
  }

  function StateOf(p: ProcessRow): string
  {
    OrUnknown(p.state)
  }

  function ProtocolOf(n: NetworkRow): string
  {
    OrUnknown(n.protocol)
  }

  /** The `reduce` into a dictionary: one more for the key of each element, left to right. */
  function Tally(keys: seq<string>): (m: map<string, nat>)
    ensures forall k :: k in m <==> k in keys
    ensures forall k :: k in m ==> m[k] == multiset(keys)[k]
  {
    if keys == [] then map[]
    else
      var init, last := keys[..|keys| - 1], keys[|keys| - 1];
      assert keys == init + [last];
      var m := Tally(init);
      m[last := (if last in m then m[last] else 0) + 1]
  }

  /** `processStats`: processes per state. */
  function ProcessStats(processes: Option<seq<ProcessRow>>): map<string, nat>
  {
    if processes.None? then map[] else Tally(Map(StateOf, processes.value))
  }

  /** `networkStats`: connections per protocol. */
  function NetworkStats(network: Option<seq<NetworkRow>>): map<string, nat>
  {
    if network.None? then map[] else Tally(Map(ProtocolOf, network.value))
  }

  /** Each process is counted once, under its state: the tallies are the multiset of the states, whose
      size is the number of processes, and a process without a state is counted under `UNKNOWN`. */
  lemma ProcessStatsCounts(processes: seq<ProcessRow>, i: nat)
    requires i < |processes|
    ensures var m := ProcessStats(Some(processes));
      && (forall k :: k in m ==> m[k] == multiset(Map(StateOf, processes))[k])
      && |multiset(Map(StateOf, processes))| == |processes|
      && (processes[i].state.None? ==> "UNKNOWN" in m)
      && StateOf(processes[i]) in m && m[StateOf(processes[i])] >= 1
  {
    var states := Map(StateOf, processes);
    assert states[i] == StateOf(processes[i]);
    assert StateOf(processes[i]) in states;
  }

  /** Without data there are no tallies and the tab counters read 0. */
  lemma AbsentDataIsEmpty()
    ensures ProcessStats(None) == map[] && NetworkStats(None) == map[]
    ensures Length<ProcessRow>(None) == 0 && Length<NetworkRow>(None) == 0
  {
  }

  /** `xs?.length || 0`. */
  function Length<T>(xs: Option<seq<T>>): (n: nat)
    ensures xs.Some? ==> n == |xs.value|
  {
    if xs.None? then 0 else |xs.value|
  }

  /** The chart label of a protocol number: 6 is TCP, 17 is UDP, anything else is shown as it is. */
  function ProtocolName(name: string): (r: string)
    ensures name == "6" ==> r == "TCP"
    ensures name == "17" ==> r == "UDP"
    ensures name != "6" && name != "17" ==> r == name
  {
    if name == "6" then "TCP" else if name == "17" then "UDP" else name
  }

  /** The entries of the network chart, without their order. */
  function NetworkChartData(stats: map<string, nat>): (entries: set<(string, nat)>)
    ensures forall k :: k in stats ==> (ProtocolName(k), stats[k]) in entries
    ensures forall e :: e in entries ==> exists k :: k in stats && e == (ProtocolName(k), stats[k])
  {
    set k | k in stats :: (ProtocolName(k), stats[k])
  }

  /** `field?.toLowerCase().includes(query)`: a missing field never matches. */
  predicate FieldMatches(field: Option<string>, query: string)
  {
    field.Some? && Contains(Lower(field.value), query)
  }

  predicate ProcessMatches(p: ProcessRow, search: string)
  {
    var q := Lower(search);
    FieldMatches(p.name, q) || FieldMatches(p.path, q) || FieldMatches(p.command, q)
  }

  /** The address is searched without lower-casing it, the other two fields ignoring case. */
  predicate NetworkMatches(n: NetworkRow, search: string)
  {
    var q := Lower(search);
    FieldMatches(n.processName, q) || (n.localAddress.Some? && Contains(n.localAddress.value, q))
    || (n.localPort.Some? && Contains(n.localPort.value, q))
  }

  /** `filteredProcesses`. */
  function FilteredProcesses(processes: Option<seq<ProcessRow>>, search: string): (r: Option<seq<ProcessRow>>)
    ensures r.None? <==> processes.None?
    ensures r.Some? ==> IsSubsequence(r.value, processes.value)
                        && forall p :: p in r.value <==> p in processes.value && ProcessMatches(p, search)
  {
    if processes.None? then None else Some(Filter((p: ProcessRow) => ProcessMatches(p, search), processes.value))
  }

  /** `filteredNetwork`. */
  function FilteredNetwork(network: Option<seq<NetworkRow>>, search: string): (r: Option<seq<NetworkRow>>)
    ensures r.None? <==> network.None?
    ensures r.Some? ==> IsSubsequence(r.value, network.value)
                        && forall n :: n in r.value <==> n in network.value && NetworkMatches(n, search)
  {
    if network.None? then None else Some(Filter((n: NetworkRow) => NetworkMatches(n, search), network.value))
  }

  /** An empty search keeps exactly the processes that have a name, a path or a command: one with none
      of the three is hidden even then. */
  lemma EmptyProcessSearch(p: ProcessRow)
    ensures ProcessMatches(p, "") <==> p.name.Some? || p.path.Some? || p.command.Some?
  {
    if p.name.Some? { EverythingContainsEmpty(Lower(p.name.value)); }
    if p.path.Some? { EverythingContainsEmpty(Lower(p.path.value)); }
    if p.command.Some? { EverythingContainsEmpty(Lower(p.command.value)); }
  }

  /** Process search ignores ASCII case in the query. */
  lemma ProcessSearchIgnoresCase(p: ProcessRow, s1: string, s2: string)
    requires Lower(s1) == Lower(s2)
    ensures ProcessMatches(p, s1) <==> ProcessMatches(p, s2)
  {
  }

  /** The address is compared with the lower-cased query: a connection found only by an address that
      contains the query as typed, but not its lower-case form, is not listed. */
  lemma AddressSearchIsCaseSensitive(n: NetworkRow, search: string)
    requires n.processName.None? && n.localPort.None? && n.localAddress.Some?
    requires !Contains(n.localAddress.value, Lower(search))
    ensures !NetworkMatches(n, search)
  {
  }
}
