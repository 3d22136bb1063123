/** The stand-alone security scanner of the host agent (agent/src/security_scanner.py):
    CVSS severity bands, the nmap "VULNERABLE" filter, the Windows compliance
    decision rules, the installed-software line parser, and the chunked upload
    of results to the collector. PowerShell, nmap, importlib and HTTP are inputs:
    probe outputs, parsed scan tables and a per-request acceptance oracle. */
module SecurityScanner {
  import opened Wrappers
  import opened Text
  import opened Records
  import opened Lists

  // ---------------------------------------------------------------------------
  // Authentication

  /** `get_auth_token`: AGENT_ID (default `default`) and the issue time, signed with
      AGENT_SECRET (default `default-secret`). The claims carry no `type`. */
  function ScannerToken(agentIdEnv: Option<string>, secretEnv: Option<string>, issuedAt: string): (t: Token)
    ensures t.claims.Keys == {"agent_id", "timestamp"}
    ensures "type" !in t.claims
    ensures t.claims["agent_id"] == (if agentIdEnv.Some? then agentIdEnv.value else "default")
    ensures t.secret == (if secretEnv.Some? then secretEnv.value else "default-secret")
  {
    Token(map["agent_id" := agentIdEnv.GetOr("default"), "timestamp" := issuedAt],
          secretEnv.GetOr("default-secret"))
  }

  // ---------------------------------------------------------------------------
  // CVSS severity

  datatype CvssSeverity = Low | Medium | High | Critical {
    function Rank(): nat {
      match this
      case Low => 0
      case Medium => 1
      case High => 2
      case Critical => 3
    }

    function Name(): string {
      match this
      case Low => "low"
      case Medium => "medium"
      case High => "high"
      case Critical => "critical"
    }
  }

  /** `map_cvss_to_severity`. */
  function MapCvssToSeverity(score: real): CvssSeverity
  {
    if score >= 9.0 then Critical
    else if score >= 7.0 then High
    else if score >= 4.0 then Medium
    else Low
  }

  /** The qualitative severity rating scale of section 5 of the CVSS v3.1 specification. */
  datatype Rating = RatingNone | RatingLow | RatingMedium | RatingHigh | RatingCritical {
    function Name(): string {
      match this
      case RatingNone => "none"
      case RatingLow => "low"
      case RatingMedium => "medium"
      case RatingHigh => "high"
      case RatingCritical => "critical"
    }
  }

  function Cvss31Rating(score: real): Rating
    requires 0.0 <= score <= 10.0
  {
    if score == 0.0 then RatingNone
    else if score < 4.0 then RatingLow
    else if score < 7.0 then RatingMedium
    else if score < 9.0 then RatingHigh
    else RatingCritical
  }

  /** The mapping agrees with the CVSS v3.1 scale on every score above 0.0; a score of 0.0,
      "None" in the standard, is reported as `low`. */
  lemma CvssAgreesWithStandard(score: real)
    requires 0.0 <= score <= 10.0
    ensures score > 0.0 ==> MapCvssToSeverity(score).Name() == Cvss31Rating(score).Name()
    ensures score == 0.0 ==> MapCvssToSeverity(score) == Low && Cvss31Rating(score) == RatingNone
  {
  }

  /** A higher score never yields a lower severity. */
  lemma CvssMonotone(s1: real, s2: real)
    requires s1 <= s2
    ensures MapCvssToSeverity(s1).Rank() <= MapCvssToSeverity(s2).Rank()
  {
  }

  /** The band boundaries belong to the upper band. */
  lemma CvssBoundaries()
    ensures MapCvssToSeverity(4.0) == Medium && MapCvssToSeverity(7.0) == High
    ensures MapCvssToSeverity(9.0) == Critical && MapCvssToSeverity(3.9999) == Low
    ensures MapCvssToSeverity(0.0) == Low
  {
  }

  // ---------------------------------------------------------------------------
  // Chunked upload

  const ChunkSize: nat := 50

  function Min(a: int, b: int): int
  {
    if a <= b then a else b
  }

  /** The slices `xs[i:i + 50]` for i = 0, 50, 100, ... below `len(xs)`. */
  function Chunks<T>(xs: seq<T>): seq<seq<T>>
    decreases |xs|
  {
    if xs == [] then []
    else if |xs| <= ChunkSize then [xs]
    else [xs[..ChunkSize]] + Chunks(xs[ChunkSize..])
  }

  function Flatten<T>(css: seq<seq<T>>): seq<T>
  {
    if css == [] then [] else css[0] + Flatten(css[1..])
  }

  /** n records make ceil(n / 50) chunks. */
  lemma {:induction false} ChunksCount<T>(xs: seq<T>)
    ensures |Chunks(xs)| == (|xs| + ChunkSize - 1) / ChunkSize
    decreases |xs|
  {
    if |xs| > ChunkSize {
      ChunksCount(xs[ChunkSize..]);
    }
  }

  /** Every chunk holds 1 to 50 records, and all but the last hold exactly 50. */
  lemma {:induction false} ChunksSizes<T>(xs: seq<T>)
    ensures forall k :: 0 <= k < |Chunks(xs)| ==> 1 <= |Chunks(xs)[k]| <= ChunkSize
    ensures forall k :: 0 <= k < |Chunks(xs)| - 1 ==> |Chunks(xs)[k]| == ChunkSize
    decreases |xs|
  {
    if |xs| > ChunkSize {
      ChunksSizes(xs[ChunkSize..]);
    }
  }

  /** The chunks, concatenated in order, are the original records. */
  lemma {:induction false} ChunksConcat<T>(xs: seq<T>)
    ensures Flatten(Chunks(xs)) == xs
    decreases |xs|
  {
    if xs != [] && |xs| <= ChunkSize {
      assert Flatten([xs]) == xs + Flatten<T>([]);
    } else if |xs| > ChunkSize {
      ChunksConcat(xs[ChunkSize..]);
      var cs := Chunks(xs);
      assert cs[1..] == Chunks(xs[ChunkSize..]);
      assert xs == xs[..ChunkSize] + xs[ChunkSize..];
    }
  }

  /** Chunk k is the slice of `xs` starting at 50k. */
  lemma {:induction false} ChunkAt<T>(xs: seq<T>, k: nat)
    requires k < |Chunks(xs)|
    ensures k * ChunkSize < |xs|
    ensures Chunks(xs)[k] == xs[k * ChunkSize..Min(k * ChunkSize + ChunkSize, |xs|)]
    decreases |xs|
  {
    if k > 0 {
      var ys := xs[ChunkSize..];
      ChunkAt(ys, k - 1);
      var a, b := (k - 1) * ChunkSize, Min((k - 1) * ChunkSize + ChunkSize, |ys|);
      assert ChunkSize + a == k * ChunkSize;
      assert ChunkSize + b == Min(k * ChunkSize + ChunkSize, |xs|);
      assert ys[a..b] == xs[ChunkSize + a..ChunkSize + b];
    }
  }

  /** The example of a 120-record upload: three requests of 50, 50 and 20 records. */
  lemma ChunksOf120<T>(xs: seq<T>)
    requires |xs| == 120
    ensures |Chunks(xs)| == 3
    ensures |Chunks(xs)[0]| == 50 && |Chunks(xs)[1]| == 50 && |Chunks(xs)[2]| == 20
  {
    ChunksCount(xs);
    ChunkAt(xs, 0);
    ChunkAt(xs, 1);
    ChunkAt(xs, 2);
  }

  /** The index of the first request the collector refuses among the first n, or n if none is refused. */
  function FirstRejection(accepted: nat -> bool, n: nat): (k: nat)
    ensures k <= n
    ensures forall j :: 0 <= j < k ==> accepted(j)
    ensures k < n ==> !accepted(k)
    decreases n
  {
    if n == 0 then 0
    else
      var k := FirstRejection(accepted, n - 1);
      if k < n - 1 then k else if accepted(n - 1) then n else n - 1
  }

  /** The three properties of `FirstRejection` determine it. */
  lemma {:induction false} FirstRejectionIs(accepted: nat -> bool, n: nat, k: nat)
    requires k <= n
    requires forall j :: 0 <= j < k ==> accepted(j)
    requires k < n ==> !accepted(k)
    ensures FirstRejection(accepted, n) == k
    decreases n
  {
    if n > 0 {
      if k < n - 1 {
        FirstRejectionIs(accepted, n - 1, k);
      } else {
        FirstRejectionIs(accepted, n - 1, n - 1);
      }
    }
  }

  function ChunkRequest(chunk: seq<Vulnerability>, token: Token): Request
  {
    Request(VulnerabilityScanPath, token, ScanBody(ScanPayload(Some(chunk), None)))
  }

  /** The requests `send_results` issues: the vulnerability chunks up to and including the first
      refused one, the compliance payload as a single request, or nothing for any other endpoint. */
  function SentRequests(endpoint: string, data: ScanPayload, token: Token, accepted: nat -> bool): seq<Request>
  {
    if endpoint == "vulnerabilities" && data.vulnerabilities.Some? then
      var cs := Chunks(data.vulnerabilities.value);
      var k := FirstRejection(accepted, |cs|);
      seq(if k < |cs| then k + 1 else |cs|, j requires 0 <= j < |cs| => ChunkRequest(cs[j], token))
    else if endpoint == "compliance" && data.compliance.Some? then
      [Request(ComplianceCheckPath, token, ScanBody(data))]
    else []
  }

  /** When chunk k is refused, chunks 0..k-1 were each sent once and accepted, chunk k was sent, and
      no later chunk was sent; when none is refused, every chunk was sent once, in order. */
  lemma ChunkFailureStopsUpload(vs: seq<Vulnerability>, token: Token, accepted: nat -> bool, k: nat)
    requires k < |Chunks(vs)| && !accepted(k)
    requires forall j :: 0 <= j < k ==> accepted(j)
    ensures var sent := SentRequests("vulnerabilities", ScanPayload(Some(vs), None), token, accepted);
      |sent| == k + 1 && forall j :: 0 <= j <= k ==> sent[j] == ChunkRequest(Chunks(vs)[j], token)
  {
    FirstRejectionIs(accepted, |Chunks(vs)|, k);
  }

  /** With every chunk accepted, the posted bodies reassemble the whole upload. */
  lemma FullUploadReassembles(vs: seq<Vulnerability>, token: Token, accepted: nat -> bool)
    requires forall j :: 0 <= j < |Chunks(vs)| ==> accepted(j)
    ensures var sent := SentRequests("vulnerabilities", ScanPayload(Some(vs), None), token, accepted);
      |sent| == |Chunks(vs)|
      && (forall j :: 0 <= j < |sent| ==> sent[j] == ChunkRequest(Chunks(vs)[j], token))
      && (forall j :: 0 <= j < |sent| ==> sent[j].body.payload.vulnerabilities == Some(Chunks(vs)[j]))
      && Flatten(Chunks(vs)) == vs
  {
    FirstRejectionIs(accepted, |Chunks(vs)|, |Chunks(vs)|);
    ChunksConcat(vs);
  }

  /** An unknown endpoint, or an endpoint whose payload key is missing, sends nothing. */
  lemma UnknownEndpointSendsNothing(endpoint: string, data: ScanPayload, token: Token, accepted: nat -> bool)
    requires !(endpoint == "vulnerabilities" && data.vulnerabilities.Some?)
    requires !(endpoint == "compliance" && data.compliance.Some?)
    ensures SentRequests(endpoint, data, token, accepted) == []
  {
  }

  /** `send_results`: the bearer token is minted once per call; a refused request (an exception from
      `raise_for_status`) ends the upload and is swallowed. */
  method SendResults(endpoint: string, data: ScanPayload, token: Token, accepted: nat -> bool)
    returns (posted: seq<Request>)
    ensures posted == SentRequests(endpoint, data, token, accepted)
  {
    posted := [];
    if endpoint == "vulnerabilities" && data.vulnerabilities.Some? {
      var vs := data.vulnerabilities.value;
      ghost var cs := Chunks(vs);
      ChunksCount(vs);
      var i, k := 0, 0;
      var refused := false;
      while i < |vs| && !refused
        invariant i == k * ChunkSize
        invariant k <= |cs|
        invariant !refused ==> (k < |cs| <==> i < |vs|)
        invariant !refused ==> |posted| == k && forall j :: 0 <= j < k ==> accepted(j)
        invariant refused ==> 0 < k && |posted| == k && !accepted(k - 1)
                              && forall j :: 0 <= j < k - 1 ==> accepted(j)
        invariant forall j :: 0 <= j < |posted| ==> posted[j] == ChunkRequest(cs[j], token)
      {
        ChunkAt(vs, k);
        var chunk := vs[i..Min(i + ChunkSize, |vs|)];
        posted := posted + [ChunkRequest(chunk, token)];
        if !accepted(k) {
          refused := true;
        }
        i, k := i + ChunkSize, k + 1;
      }
      if refused {
        FirstRejectionIs(accepted, |cs|, k - 1);
      } else {
        FirstRejectionIs(accepted, |cs|, |cs|);
      }
    } else if endpoint == "compliance" && data.compliance.Some? {
      posted := [Request(ComplianceCheckPath, token, ScanBody(data))];
    }
  }

  // ---------------------------------------------------------------------------
  // Compliance checks

  /** Antivirus control: compliant iff the probe output, stripped and lower-cased, is `true`. */
  function DefenderControl(out: string, now: int): ComplianceControl
  {
    var s := Strip(out);
    ComplianceControl("ISO27001", "A.12.2.1", "Antivirus Protection", "Windows Defender status check",
      if Lower(s) == "true" then "compliant" else "non_compliant",
      "Windows Defender enabled: " + s, now, now + Day, "high")
  }

  /** Firewall control: compliant iff some profile reports `True`. */
  function FirewallControl(out: string, now: int): ComplianceControl
  {
    var s := Strip(out);
    ComplianceControl("ISO27001", "A.13.1.1", "Network Security", "Windows Firewall status check",
      if Contains(s, "True") then "compliant" else "non_compliant",
      "Windows Firewall profiles enabled: " + s, now, now + Day, "high")
  }

  /** The minimum password length read from `net accounts`: its decimal digits, concatenated. */
  function MinPasswordLength(out: string): nat
  {
    DecimalValue(DigitsOf(Strip(out)))
  }

  /** Password control: compliant iff the minimum length is at least 8; a failed probe still yields a
      non-compliant, high-risk control. */
  function PasswordControl(probe: Probe, now: int): ComplianceControl
  {
    match probe
    case Output(out) =>
      var n := MinPasswordLength(out);
      ComplianceControl("SOC2", "CC6.1", "Password Policy", "Password minimum length check",
        if n >= 8 then "compliant" else "non_compliant",
        "Minimum password length: " + NatToString(n), now, now + 30 * Day, "medium")
    case Raised(message) =>
      ComplianceControl("SOC2", "CC6.1", "Password Policy", "Password minimum length check",
        "non_compliant", "Unable to check password policy: " + message, now, now + Day, "high")
  }

  /** Update-service control: compliant iff the service state, lower-cased, is `running`. */
  function UpdateServiceControl(out: string, now: int): ComplianceControl
  {
    var s := Strip(out);
    ComplianceControl("SOC2", "CC7.1", "System Updates", "Windows Update service status",
      if Lower(s) == "running" then "compliant" else "non_compliant",
      "Windows Update service state: " + s, now, now + Day, "high")
  }

  /** The controls `check_windows_security` reports, in the order defender, firewall, password policy,
      update service; a check whose probe raised reports nothing, except the password check. */
  function WindowsControls(defender: Probe, firewall: Probe, password: Probe, update: Probe, now: int)
    : seq<ComplianceControl>
  {
    (if defender.Output? then [DefenderControl(defender.text, now)] else [])
    + (if firewall.Output? then [FirewallControl(firewall.text, now)] else [])
    + [PasswordControl(password, now)]
    + (if update.Output? then [UpdateServiceControl(update.text, now)] else [])
  }

  /** `check_windows_security`. */
  method CheckWindowsSecurity(defender: Probe, firewall: Probe, password: Probe, update: Probe, now: int)
    returns (controls: seq<ComplianceControl>)
    ensures controls == WindowsControls(defender, firewall, password, update, now)
  {
    controls := if defender.Output? then [DefenderControl(defender.text, now)] else [];
    controls := controls + if firewall.Output? then [FirewallControl(firewall.text, now)] else [];
    controls := controls + [PasswordControl(password, now)];
    controls := controls + if update.Output? then [UpdateServiceControl(update.text, now)] else [];
  }

  lemma DefenderRule(out: string, now: int)
    ensures DefenderControl(out, now).status == "compliant" <==> Lower(Strip(out)) == "true"
    ensures DefenderControl(out, now).status != "compliant" ==> DefenderControl(out, now).status == "non_compliant"
    ensures DefenderControl(out, now).riskLevel == "high" && DefenderControl(out, now).nextCheck == now + Day
  {
  }

  lemma FirewallRule(out: string, now: int)
    ensures FirewallControl(out, now).status == "compliant" <==> Contains(Strip(out), "True")
    ensures FirewallControl(out, now).riskLevel == "high"
  {
  }

  lemma UpdateServiceRule(out: string, now: int)
    ensures UpdateServiceControl(out, now).status == "compliant" <==> Lower(Strip(out)) == "running"
    ensures UpdateServiceControl(out, now).riskLevel == "high"
  {
  }

  /** Output `Minimum password length 12` gives 12, compliant; output without digits gives 0. */
  /** A probe whose output is the decimal rendering of n reads back as n, and is compliant iff n >= 8. */
  lemma PasswordLengthReadsBack(n: nat, now: int)
    ensures MinPasswordLength(NatToString(n)) == n
    ensures PasswordControl(Output(NatToString(n)), now).status == "compliant" <==> n >= 8
  {
    var s := NatToString(n);
    assert !IsSpace(s[0]) && !IsSpace(s[|s| - 1]);
    StripUnchanged(s);
  }

  lemma PasswordRule(out: string, now: int)
    ensures PasswordControl(Output(out), now).status == "compliant" <==> MinPasswordLength(out) >= 8
    ensures PasswordControl(Output(out), now).nextCheck == now + 30 * Day
    ensures PasswordControl(Output(out), now).riskLevel == "medium"
    ensures DigitsOf(Strip(out)) == "" ==> MinPasswordLength(out) == 0
  {
  }

  /** A password probe that fails is reported, non-compliant and high-risk, with evidence from which
      the error's message reads back, and is looked at again a day later. */
  lemma PasswordProbeFailure(message: string, now: int)
    ensures var c := PasswordControl(Raised(message), now);
      c.status == "non_compliant" && c.riskLevel == "high" && c.controlId == "CC6.1"
      && c.evidence == "Unable to check password policy: " + message
      && c.evidence[|"Unable to check password policy: "|..] == message
      && c.lastChecked == now && c.nextCheck == now + Day
  {
  }

  function Ran(p: Probe): nat
  {
    if p.Output? then 1 else 0
  }

  /** Whatever the probes do, the result holds the password-policy control, plus one control for each
      other probe that ran. */
  lemma ComplianceBattery(defender: Probe, firewall: Probe, password: Probe, update: Probe, now: int)
    ensures var controls := WindowsControls(defender, firewall, password, update, now);
      |controls| == 1 + Ran(defender) + Ran(firewall) + Ran(update)
      && PasswordControl(password, now) in controls
  {
  }

  // ---------------------------------------------------------------------------
  // Installed software

  /** One entry of `importlib.metadata.distributions()`, or the exception the iteration raised. */
  datatype DistributionRead = Distribution(name: string, version: string) | ReadFailed

  function UnversionedPackage(name: string, now: int): Vulnerability
  {
    Vulnerability("Unversioned package: " + name, "Package " + name + " has no version specified",
      "medium", 5.0, name, ["unknown"], "Specify a version for this package", now, "open", "pip",
      "python-packages", "software", ["python", "dependencies"])
  }

  /** Findings for the packages without a version, up to the first failed read. */
  function UnversionedFindings(dists: seq<DistributionRead>, now: int): seq<Vulnerability>
  {
    if dists == [] then []
    else match dists[0]
      case ReadFailed => []
      case Distribution(name, version) =>
        (if version == "" then [UnversionedPackage(name, now)] else []) + UnversionedFindings(dists[1..], now)
  }

  datatype InstalledProgram = InstalledProgram(name: string, version: string)

  /** One line of the `Win32_Product` table: skipped when empty or containing `Name`, or when it has fewer
      than two whitespace-separated tokens; otherwise the last token is the version and the others,
      joined by single spaces, the name. */
  function ParseProgramLine(line: string): Option<InstalledProgram>
  {
    if line == "" || Contains(line, "Name") then None
    else
      var parts := Tokens(Strip(line));
      if |parts| < 2 then None
      else Some(InstalledProgram(Join(parts[..|parts| - 1], " "), parts[|parts| - 1]))
  }

  lemma ParseProgramLineAccepts(line: string)
    ensures ParseProgramLine(line).Some? <==>
      line != "" && !Contains(line, "Name") && |Tokens(Strip(line))| >= 2
  {
  }

  /** Splitting a token list before its last token and joining each side with single spaces gives
      back the tokens. */
  lemma SplitLastTokens(parts: seq<string>)
    requires |parts| >= 2 && forall i :: 0 <= i < |parts| ==> IsWord(parts[i])
    ensures Tokens(Join(parts[..|parts| - 1], " ")) == parts[..|parts| - 1]
    ensures Tokens(Join(parts[..|parts| - 1], " ") + " " + parts[|parts| - 1]) == parts
  {
    var init := parts[..|parts| - 1];
    TokensOfJoin(init);
    JoinSnoc(init, parts[|parts| - 1], " ");
    assert init + [parts[|parts| - 1]] == parts;
    TokensOfJoin(parts);
  }

  /** A parsed line re-splits into the same tokens: the name is every token but the last, the version
      is the last, and `name + " " + version` splits back into the line's tokens. */
  lemma ParseProgramLineRoundTrip(line: string)
    requires ParseProgramLine(line).Some?
    ensures var p := ParseProgramLine(line).value;
      var parts := Tokens(Strip(line));
      Tokens(p.name) == parts[..|parts| - 1]
      && IsWord(p.version) && p.version == parts[|parts| - 1]
      && Tokens(p.name + " " + p.version) == parts
  {
    var parts := Tokens(Strip(line));
    assert |parts| >= 2 && ParseProgramLine(line).value == InstalledProgram(Join(parts[..|parts| - 1], " "), parts[|parts| - 1]);
    SplitLastTokens(parts);
  }

  lemma ParseProgramLineExamples()
    ensures ParseProgramLine("Name Version") == None
    ensures ParseProgramLine("") == None
  {
    ContainsAt("Name Version", "Name", 0);
  }

  function ProgramVulnerability(p: InstalledProgram, now: int): Vulnerability
  {
    Vulnerability("Software scan: " + p.name, "Installed program: " + p.name + " version " + p.version,
      "info", 0.0, p.name, [p.version], "Keep software updated", now, "open", "windows",
      "installed-programs", "software", ["windows", "programs"])
  }

  /** The findings one line of the table contributes: one if it parses, none otherwise. */
  function LineFindings(line: string, now: int): seq<Vulnerability>
  {
    match ParseProgramLine(line)
    case Some(p) => [ProgramVulnerability(p, now)]
    case None => []
  }

  /** The findings of the table's lines, in order. */
  function ProgramFindings(lines: seq<string>, now: int): seq<Vulnerability>
  {
    if lines == [] then [] else ProgramFindings(lines[..|lines| - 1], now) + LineFindings(lines[|lines| - 1], now)
  }

  predicate IsProgramLine(line: string)
  {
    ParseProgramLine(line).Some?
  }

  /** There is one program finding per parsable line, and each is built from such a line. */
  lemma {:induction false} ProgramFindingsFromLines(lines: seq<string>, now: int)
    ensures |ProgramFindings(lines, now)| == |Filter(IsProgramLine, lines)|
    ensures forall v :: v in ProgramFindings(lines, now) ==>
      exists line :: line in lines && IsProgramLine(line) && v == ProgramVulnerability(ParseProgramLine(line).value, now)
  {
    if lines != [] {
      var init, last := lines[..|lines| - 1], lines[|lines| - 1];
      assert lines == init + [last];
      ProgramFindingsFromLines(init, now);
      FilterSnoc(IsProgramLine, init, last);
      forall v | v in ProgramFindings(lines, now)
        ensures exists line :: line in lines && IsProgramLine(line)
                               && v == ProgramVulnerability(ParseProgramLine(line).value, now)
      {
        if v !in ProgramFindings(init, now) {
          assert IsProgramLine(last) && v == ProgramVulnerability(ParseProgramLine(last).value, now);
        } else {
          var line :| line in init && IsProgramLine(line)
                      && v == ProgramVulnerability(ParseProgramLine(line).value, now);
          assert line in lines;
        }
      }
    }
  }

  /** The first half of `check_installed_software`: a finding per package without a version, until
      the iteration over the installed distributions raises. */
  method ScanDistributions(dists: seq<DistributionRead>, now: int) returns (vulns: seq<Vulnerability>)
    ensures vulns == UnversionedFindings(dists, now)
  {
    vulns := [];
    var i := 0;
    while i < |dists| && dists[i].Distribution?
      invariant i <= |dists|
      invariant vulns + UnversionedFindings(dists[i..], now) == UnversionedFindings(dists, now)
    {
      assert dists[i..][1..] == dists[i + 1..];
      if dists[i].version == "" {
        vulns := vulns + [UnversionedPackage(dists[i].name, now)];
      }
      i := i + 1;
    }
    assert UnversionedFindings(dists[i..], now) == [];
  }

  lemma ProgramFindingsSnoc(lines: seq<string>, j: nat, now: int)
    requires j < |lines|
    ensures ProgramFindings(lines[..j + 1], now) == ProgramFindings(lines[..j], now) + LineFindings(lines[j], now)
  {
    assert lines[..j + 1][..j] == lines[..j];
  }

  /** The second half of `check_installed_software`: the table is stripped and split into lines, and
      each parsable line yields one finding. */
  method ScanInstalledPrograms(table: string, now: int) returns (vulns: seq<Vulnerability>)
    ensures vulns == ProgramFindings(SplitOn(Strip(table), '\n'), now)
  {
    var lines := SplitOn(Strip(table), '\n');
    vulns := ScanLines(lines, now);
  }

  /** The loop over the table's lines. */
  method ScanLines(lines: seq<string>, now: int) returns (vulns: seq<Vulnerability>)
    ensures vulns == ProgramFindings(lines, now)
  {
    vulns := [];
    var j := 0;
    while j < |lines|
      invariant j <= |lines|
      invariant vulns == ProgramFindings(lines[..j], now)
    {
      ProgramFindingsSnoc(lines, j, now);
      vulns := vulns + LineFindings(lines[j], now);
      j := j + 1;
    }
    assert lines[..j] == lines;
  }

  /** Package findings first, then program findings; a programs probe that raised contributes nothing. */
  function SoftwareFindings(dists: seq<DistributionRead>, programs: Probe, now: int): seq<Vulnerability>
  {
    UnversionedFindings(dists, now)
    + (if programs.Output? then ProgramFindings(SplitOn(Strip(programs.text), '\n'), now) else [])
  }

  /** `check_installed_software`. */
  method CheckInstalledSoftware(dists: seq<DistributionRead>, programs: Probe, now: int)
    returns (vulns: seq<Vulnerability>)
    ensures vulns == SoftwareFindings(dists, programs, now)
  {
    vulns := ScanDistributions(dists, now);
    if programs.Output? {
      var more := ScanInstalledPrograms(programs.text, now);
      vulns := vulns + more;
    } else {
      assert vulns == vulns + [];
    }
  }

  // ---------------------------------------------------------------------------
  // Network scan

  datatype ScriptResult = ScriptResult(name: string, output: string)

  /** One scanned port of one host and protocol: the service name, its version when nmap reports one,
      and the outputs of the scripts that ran on it. */
  datatype PortInfo = PortInfo(host: string, service: string, version: Option<string>, scripts: seq<ScriptResult>)

  function NmapVulnerability(p: PortInfo, s: ScriptResult, now: int): Vulnerability
  {
    Vulnerability(s.name + " vulnerability in " + p.service, s.output, "high", 7.5,
      p.service + " " + p.version.GetOr(""), [p.version.GetOr("unknown")],
      "Update the affected service to the latest version", now, "open", "nmap",
      p.host, "host", ["network", "port-scan"])
  }

  /** The finding one script contributes: one when its output reports `VULNERABLE`. */
  function ScriptFinding(p: PortInfo, s: ScriptResult, now: int): seq<Vulnerability>
  {
    if Contains(s.output, "VULNERABLE") then [NmapVulnerability(p, s, now)] else []
  }

  function ScriptFindings(p: PortInfo, scripts: seq<ScriptResult>, now: int): seq<Vulnerability>
  {
    if scripts == [] then []
    else ScriptFindings(p, scripts[..|scripts| - 1], now) + ScriptFinding(p, scripts[|scripts| - 1], now)
  }

  function NmapFindings(ports: seq<PortInfo>, now: int): seq<Vulnerability>
  {
    if ports == [] then []
    else NmapFindings(ports[..|ports| - 1], now) + ScriptFindings(ports[|ports| - 1], ports[|ports| - 1].scripts, now)
  }

  lemma {:induction false} ScriptFindingsMembers(p: PortInfo, scripts: seq<ScriptResult>, now: int, v: Vulnerability)
    ensures v in ScriptFindings(p, scripts, now) <==>
      exists j :: 0 <= j < |scripts| && Contains(scripts[j].output, "VULNERABLE")
                  && v == NmapVulnerability(p, scripts[j], now)
  {
    if scripts != [] {
      var init := scripts[..|scripts| - 1];
      ScriptFindingsMembers(p, init, now, v);
      if v in ScriptFindings(p, init, now) {
        var j :| 0 <= j < |init| && Contains(init[j].output, "VULNERABLE") && v == NmapVulnerability(p, init[j], now);
        assert scripts[j] == init[j];
      }
      if exists j :: 0 <= j < |scripts| && Contains(scripts[j].output, "VULNERABLE")
                     && v == NmapVulnerability(p, scripts[j], now) {
        var j :| 0 <= j < |scripts| && Contains(scripts[j].output, "VULNERABLE")
                 && v == NmapVulnerability(p, scripts[j], now);
        if j < |scripts| - 1 {
          assert init[j] == scripts[j];
        }
      }
    }
  }

  /** A network finding is a finding of one of the scanned ports, and every such finding is reported. */
  lemma {:induction false} NmapFindingsMembers(ports: seq<PortInfo>, now: int, v: Vulnerability)
    ensures v in NmapFindings(ports, now) <==>
      exists i :: 0 <= i < |ports| && v in ScriptFindings(ports[i], ports[i].scripts, now)
  {
    if ports != [] {
      var init := ports[..|ports| - 1];
      NmapFindingsMembers(init, now, v);
      if v in NmapFindings(init, now) {
        var i :| 0 <= i < |init| && v in ScriptFindings(init[i], init[i].scripts, now);
        assert ports[i] == init[i];
      }
      if exists i :: 0 <= i < |ports| && v in ScriptFindings(ports[i], ports[i].scripts, now) {
        var i :| 0 <= i < |ports| && v in ScriptFindings(ports[i], ports[i].scripts, now);
        if i < |ports| - 1 {
          assert init[i] == ports[i];
        }
      }
    }
  }

  /** Hence a network finding is exactly a script result reporting `VULNERABLE` on a scanned port. */
  lemma NmapFindingIsVulnerableScript(ports: seq<PortInfo>, now: int, v: Vulnerability)
    ensures v in NmapFindings(ports, now) <==>
      exists i, j :: 0 <= i < |ports| && 0 <= j < |ports[i].scripts|
        && Contains(ports[i].scripts[j].output, "VULNERABLE")
        && v == NmapVulnerability(ports[i], ports[i].scripts[j], now)
  {
    NmapFindingsMembers(ports, now, v);
    forall i | 0 <= i < |ports| {
      ScriptFindingsMembers(ports[i], ports[i].scripts, now, v);
    }
  }

  /** The innermost loop of `run_nmap_scan`: the scripts of one port, in order. */
  lemma ScriptFindingsSnoc(p: PortInfo, scripts: seq<ScriptResult>, j: nat, now: int)
    requires j < |scripts|
    ensures ScriptFindings(p, scripts[..j + 1], now) == ScriptFindings(p, scripts[..j], now) + ScriptFinding(p, scripts[j], now)
  {
    assert scripts[..j + 1][..j] == scripts[..j];
  }

  method ScanPort(p: PortInfo, now: int) returns (found: seq<Vulnerability>)
    ensures found == ScriptFindings(p, p.scripts, now)
  {
    found := [];
    var j := 0;
    while j < |p.scripts|
      invariant j <= |p.scripts|
      invariant found == ScriptFindings(p, p.scripts[..j], now)
    {
      ScriptFindingsSnoc(p, p.scripts, j, now);
      found := found + ScriptFinding(p, p.scripts[j], now);
      j := j + 1;
    }
    assert p.scripts[..j] == p.scripts;
  }

  /** `run_nmap_scan`: for every host, protocol, port and script, in scan order, a finding when the
      script output reports `VULNERABLE`; a scan that raises yields no findings. */
  method RunNmapScan(scan: Option<seq<PortInfo>>, now: int) returns (vulns: seq<Vulnerability>)
    ensures vulns == if scan.None? then [] else NmapFindings(scan.value, now)
  {
    vulns := [];
    if scan.Some? {
      var ports := scan.value;
      var i := 0;
      while i < |ports|
        invariant i <= |ports|
        invariant vulns == NmapFindings(ports[..i], now)
      {
        var found := ScanPort(ports[i], now);
        assert ports[..i + 1][..i] == ports[..i];
        vulns := vulns + found;
        i := i + 1;
      }
      assert ports[..i] == ports;
    }
  }

  // ---------------------------------------------------------------------------
  // One scan cycle of `main`

  function ComplianceRequest(controls: seq<ComplianceControl>, token: Token): Request
  {
    Request(ComplianceCheckPath, token, ScanBody(ScanPayload(None, Some(controls))))
  }

  /** An upload to the compliance endpoint is one request carrying the whole list. */
  lemma ComplianceUploadIsOneRequest(controls: seq<ComplianceControl>, token: Token, accepted: nat -> bool)
    ensures SentRequests("compliance", ScanPayload(None, Some(controls)), token, accepted)
      == [ComplianceRequest(controls, token)]
  {
  }

  /** One iteration of the scanner's main loop: network and software findings are uploaded (chunked)
      only when there are any; the compliance results always include the password control, so they
      are uploaded as one request on every cycle. */
  method ScanCycle(scan: Option<seq<PortInfo>>, dists: seq<DistributionRead>, programs: Probe,
                   defender: Probe, firewall: Probe, password: Probe, update: Probe, now: int,
                   vulnToken: Token, complianceToken: Token, accepted: nat -> bool)
    returns (vulns: seq<Vulnerability>, controls: seq<ComplianceControl>, posted: seq<Request>)
    ensures vulns == (if scan.None? then [] else NmapFindings(scan.value, now)) + SoftwareFindings(dists, programs, now)
    ensures controls == WindowsControls(defender, firewall, password, update, now) && |controls| > 0
    ensures posted ==
      (if |vulns| > 0 then SentRequests("vulnerabilities", ScanPayload(Some(vulns), None), vulnToken, accepted) else [])
      + [ComplianceRequest(controls, complianceToken)]
  {
    var net := RunNmapScan(scan, now);
    var sw := CheckInstalledSoftware(dists, programs, now);
    vulns := net + sw;
    posted := [];
    if |vulns| > 0 {
      posted := SendResults("vulnerabilities", ScanPayload(Some(vulns), None), vulnToken, accepted);
    }
    controls := CheckWindowsSecurity(defender, firewall, password, update, now);
    ComplianceBattery(defender, firewall, password, update, now);
    if |controls| > 0 {
      var sent := SendResults("compliance", ScanPayload(None, Some(controls)), complianceToken, accepted);
      ComplianceUploadIsOneRequest(controls, complianceToken, accepted);
      posted := posted + sent;
    }
  }
}
