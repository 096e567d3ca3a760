/** The scan data model: the five severity levels and their order, the
    common-ports and risky-services tables, the entities built by the parser,
    the two severity heuristics, and the dictionary form `to_dict` produces. */
module Models {
  import opened Wrappers
  import opened Text

  // ---------------------------------------------------------------------------
  // Severity
  // ---------------------------------------------------------------------------

  datatype Severity = Info | Low | Medium | High | Critical

  /** SEVERITY_ORDER: severity name to rank. */
  const SeverityOrder: map<string, nat> :=
    map["info" := 0, "low" := 1, "medium" := 2, "high" := 3, "critical" := 4]

  function Name(s: Severity): string {
    match s
    case Info => "info"
    case Low => "low"
    case Medium => "medium"
    case High => "high"
    case Critical => "critical"
  }

  /** The rank SEVERITY_ORDER gives the level's name. */
  function Rank(s: Severity): (r: nat)
    ensures Name(s) in SeverityOrder && SeverityOrder[Name(s)] == r
  {
    match s
    case Info => 0
    case Low => 1
    case Medium => 2
    case High => 3
    case Critical => 4
  }

  /** The level a SEVERITY_ORDER key names; `None` for every other string. */
  function SeverityNamed(name: string): (r: Option<Severity>)
    ensures r.Some? <==> name in SeverityOrder
    ensures r.Some? ==> Name(r.value) == name
  {
    if name == "info" then Some(Info)
    else if name == "low" then Some(Low)
    else if name == "medium" then Some(Medium)
    else if name == "high" then Some(High)
    else if name == "critical" then Some(Critical)
    else None
  }

  /** SEVERITY_ORDER ranks exactly the five names, in the order
      info < low < medium < high < critical, and names each level once. */
  lemma SeverityOrderIsStrictTotalOrder()
    ensures SeverityOrder.Keys == {Name(Info), Name(Low), Name(Medium), Name(High), Name(Critical)}
    ensures Rank(Info) < Rank(Low) < Rank(Medium) < Rank(High) < Rank(Critical)
    ensures forall a: Severity, b: Severity :: Rank(a) == Rank(b) ==> a == b
    ensures forall s: Severity :: SeverityNamed(Name(s)) == Some(s)
  {
  }

  /** `SEVERITY_ORDER.get(name, 0)`. */
  function OrderOf(name: string): (r: nat)
    ensures r <= Rank(Critical)
    ensures SeverityNamed(name).Some? ==> r == Rank(SeverityNamed(name).value)
    ensures SeverityNamed(name).None? ==> r == 0
  {
    if name in SeverityOrder then SeverityOrder[name] else 0
  }

  /** `(name or 'info').lower()`: the key a severity value is looked up
      under, an unset value standing for `info`. */
  function SeverityKey(name: string): string {
    Lower(if name == "" then "info" else name)
  }

  /** `max((a, b), key=lambda s: SEVERITY_ORDER[s])`: the first of the highest. */
  function Max(a: Severity, b: Severity): (r: Severity)
    ensures Rank(r) >= Rank(a) && Rank(r) >= Rank(b)
    ensures r == a || r == b
  {
    if Rank(b) > Rank(a) then b else a
  }

  // ---------------------------------------------------------------------------
  // Reference tables
  // ---------------------------------------------------------------------------

  /** COMMON_PORTS, written as the union of two displays of about thirty
      ports each, which keeps membership questions small for the verifier. */
  const CommonPorts: set<int> := {
    20, 21, 22, 23, 25, 53, 67, 68, 69, 80, 110, 111, 123, 137, 138, 139, 143,
    161, 162, 389, 443, 445, 465, 514, 587, 993, 995, 1080, 1194, 1433
  } + {
    1521, 2049, 2375, 2376, 3000, 3128, 3306, 3389, 4000, 4444, 5000, 5432, 5601,
    5900, 5985, 5986, 6379, 6443, 6667, 8000, 8001, 8008, 8080, 8081, 8443,
    9000, 9200, 9300, 10000
  }

  const RiskyServices: set<string> := {
    "rdp", "smb", "mssql", "mysql", "postgresql", "ssh", "telnet", "vnc",
    "ftp", "http", "https", "ldap", "winrm", "elastic", "redis"
  }

  // ---------------------------------------------------------------------------
  // Entities
  // ---------------------------------------------------------------------------

  datatype Address = Address(addressType: string, address: string)

  datatype Service = Service(name: string, product: string, version: string, extrainfo: string)

  datatype ScriptFinding = ScriptFinding(id: string, output: string, severity: Severity)

  datatype OsMatch = OsMatch(name: string, accuracy: string)

  /** A port entry. `riskScore` is the attribute the parser attaches after
      construction; `None` while it is not set. */
  datatype PortEntry = PortEntry(
    port: int,
    protocol: string,
    state: string,
    service: Option<Service>,
    scripts: seq<ScriptFinding>,
    severity: Severity,
    riskScore: Option<int>)

  datatype HostEntry = HostEntry(
    status: string,
    addresses: seq<Address>,
    hostnames: seq<string>,
    ports: seq<PortEntry>,
    os: Option<OsMatch>,
    riskScore: Option<int>)

  datatype ScanResult = ScanResult(
    target: string,
    scanTime: string,
    scannerVersion: string,
    hosts: seq<HostEntry>,
    totalRisk: Option<int>)

  /** `getattr(p, 'risk_score', 0)`. */
  function PortRisk(p: PortEntry): int {
    p.riskScore.GetOr(0)
  }

  function HostRisk(h: HostEntry): int {
    h.riskScore.GetOr(0)
  }

  function SumPortRisk(ps: seq<PortEntry>): int {
    if |ps| == 0 then 0 else PortRisk(ps[0]) + SumPortRisk(ps[1..])
  }

  function SumHostRisk(hs: seq<HostEntry>): int {
    if |hs| == 0 then 0 else HostRisk(hs[0]) + SumHostRisk(hs[1..])
  }

  // ---------------------------------------------------------------------------
  // Finding severity
  // ---------------------------------------------------------------------------

  /** The text a finding is classified by: lower-cased output, a space, lower-cased id. */
  function FindingText(f: ScriptFinding): (r: string)
    ensures IsLower(r)
    ensures |r| == |f.output| + 1 + |f.id| && r[|f.output|] == ' '
  {
    Lower(f.output) + " " + Lower(f.id)
  }

  predicate FindingHighText(text: string) {
    Contains(text, "cve-") || Contains(text, "critical")
  }

  predicate FindingMediumText(text: string) {
    Contains(text, "vulnerab") || Contains(text, "weak") || Contains(text, "insecure")
  }

  /** heuristic_severity_for_finding. */
  function FindingSeverity(f: ScriptFinding): (r: Severity)
    ensures r == Info || r == Medium || r == High
  {
    var text := FindingText(f);
    if FindingHighText(text) then High
    else if FindingMediumText(text) then Medium
    else Info
  }

  // ---------------------------------------------------------------------------
  // Port severity
  // ---------------------------------------------------------------------------

  /** The level before services and findings are looked at. */
  function BaseSeverity(port: int): (r: Severity)
    ensures r == Info || r == Low
    ensures r == Info <==> port in CommonPorts
  {
    if port in CommonPorts then Info else Low
  }

  /** The lower-cased service name, "unknown" when there is no service. */
  function ServiceName(p: PortEntry): (r: string)
    ensures IsLower(r)
    ensures p.service.None? ==> r == "unknown"
  {
    LowerIsLower(if p.service.Some? then p.service.value.name else "unknown");
    assert IsLower("unknown");
    Lower(if p.service.Some? then p.service.value.name else "unknown")
  }

  predicate IsRiskyService(name: string) {
    exists s :: s in RiskyServices && Contains(name, s)
  }

  /** A finding output that makes the port `high` at once. */
  predicate PortHighText(text: string) {
    Contains(text, "cve-") || Contains(text, "vulnerab") || Contains(text, "critical")
  }

  /** A finding output that raises the port to at least `medium`. */
  predicate PortMediumText(text: string) {
    Contains(text, "weak") || Contains(text, "insecure")
  }

  /** The level after the port number and the service are looked at. */
  function ServiceSeverity(p: PortEntry): (r: Severity)
    ensures Rank(r) <= Rank(Medium)
  {
    var base := BaseSeverity(p.port);
    if IsRiskyService(ServiceName(p)) then Max(base, Medium) else base
  }

  /** The loop over the findings: the first output that names a CVE, a
      vulnerability or `critical` returns `high`; a weak or insecure one
      raises the level to at least `medium`. */
  function ScanFindings(fs: seq<ScriptFinding>, sev: Severity): (r: Severity)
    requires sev != Critical
    ensures Rank(r) >= Rank(sev)
    ensures r != Critical
  {
    if |fs| == 0 then sev
    else
      var text := Lower(fs[0].output);
      if PortHighText(text) then High
      else ScanFindings(fs[1..], if PortMediumText(text) then Max(sev, Medium) else sev)
  }

  /** heuristic_severity_for_port. */
  function PortSeverity(p: PortEntry): (r: Severity)
    ensures r != Critical
    ensures Rank(r) >= Rank(BaseSeverity(p.port))
    ensures IsRiskyService(ServiceName(p)) ==> Rank(r) >= Rank(Medium)
  {
    ScanFindings(p.scripts, ServiceSeverity(p))
  }

  predicate SomeOutputHigh(fs: seq<ScriptFinding>) {
    exists k :: 0 <= k < |fs| && PortHighText(Lower(fs[k].output))
  }

  predicate SomeOutputMedium(fs: seq<ScriptFinding>) {
    exists k :: 0 <= k < |fs| && PortMediumText(Lower(fs[k].output))
  }

  lemma {:induction false} ScanFindingsClassifies(fs: seq<ScriptFinding>, sev: Severity)
    requires Rank(sev) <= Rank(Medium)
    ensures ScanFindings(fs, sev) ==
      if SomeOutputHigh(fs) then High
      else if SomeOutputMedium(fs) then Max(sev, Medium)
      else sev
  {
    if |fs| > 0 {
      var text := Lower(fs[0].output);
      if !PortHighText(text) {
        var next := if PortMediumText(text) then Max(sev, Medium) else sev;
        ScanFindingsClassifies(fs[1..], next);
        assert SomeOutputHigh(fs) <==> SomeOutputHigh(fs[1..]) by {
          if SomeOutputHigh(fs) {
            var k :| 0 <= k < |fs| && PortHighText(Lower(fs[k].output));
            assert fs[1..][k - 1] == fs[k];
          }
          if SomeOutputHigh(fs[1..]) {
            var k :| 0 <= k < |fs[1..]| && PortHighText(Lower(fs[1..][k].output));
            assert fs[k + 1] == fs[1..][k];
          }
        }
        assert SomeOutputMedium(fs) <==> PortMediumText(text) || SomeOutputMedium(fs[1..]) by {
          if SomeOutputMedium(fs) {
            var k :| 0 <= k < |fs| && PortMediumText(Lower(fs[k].output));
            if k > 0 {
              assert fs[1..][k - 1] == fs[k];
            }
          }
          if SomeOutputMedium(fs[1..]) {
            var k :| 0 <= k < |fs[1..]| && PortMediumText(Lower(fs[1..][k].output));
            assert fs[k + 1] == fs[1..][k];
          }
        }
      } else {
        assert SomeOutputHigh(fs) by {
          assert PortHighText(Lower(fs[0].output));
        }
      }
    }
  }

  /** The port level, stated without the loop: `high` when any finding's
      output names a CVE, a vulnerability or `critical`, wherever it stands;
      otherwise `medium` when the service is risky or any output is weak or
      insecure; otherwise the base level of the port number. */
  lemma PortSeverityClassifies(p: PortEntry)
    ensures PortSeverity(p) ==
      if SomeOutputHigh(p.scripts) then High
      else if IsRiskyService(ServiceName(p)) || SomeOutputMedium(p.scripts) then Medium
      else BaseSeverity(p.port)
  {
    ScanFindingsClassifies(p.scripts, ServiceSeverity(p));
  }

  /** A port is `high` exactly when one of its finding outputs triggers it. */
  lemma PortHighIff(p: PortEntry)
    ensures PortSeverity(p) == High <==> SomeOutputHigh(p.scripts)
  {
    PortSeverityClassifies(p);
  }

  /** Port classification reads the findings' outputs, never their ids or
      severities. */
  lemma PortSeverityIgnoresIds(p: PortEntry, q: PortEntry)
    requires p.port == q.port && p.service == q.service
    requires |p.scripts| == |q.scripts|
    requires forall k :: 0 <= k < |p.scripts| ==> p.scripts[k].output == q.scripts[k].output
    ensures PortSeverity(p) == PortSeverity(q)
  {
    PortSeverityClassifies(p);
    PortSeverityClassifies(q);
    assert SomeOutputHigh(p.scripts) == SomeOutputHigh(q.scripts) by {
      if SomeOutputHigh(p.scripts) {
        var k :| 0 <= k < |p.scripts| && PortHighText(Lower(p.scripts[k].output));
        assert PortHighText(Lower(q.scripts[k].output));
      }
      if SomeOutputHigh(q.scripts) {
        var k :| 0 <= k < |q.scripts| && PortHighText(Lower(q.scripts[k].output));
        assert PortHighText(Lower(p.scripts[k].output));
      }
    }
    assert SomeOutputMedium(p.scripts) == SomeOutputMedium(q.scripts) by {
      if SomeOutputMedium(p.scripts) {
        var k :| 0 <= k < |p.scripts| && PortMediumText(Lower(p.scripts[k].output));
        assert PortMediumText(Lower(q.scripts[k].output));
      }
      if SomeOutputMedium(q.scripts) {
        var k :| 0 <= k < |q.scripts| && PortMediumText(Lower(q.scripts[k].output));
        assert PortMediumText(Lower(p.scripts[k].output));
      }
    }
  }

  /** A finding whose output names a CVE or `critical` is `high` both on its
      own and for the port that carries it. */
  lemma CveFindingIsHighEverywhere(p: PortEntry, k: int)
    requires 0 <= k < |p.scripts|
    requires Contains(Lower(p.scripts[k].output), "cve-") || Contains(Lower(p.scripts[k].output), "critical")
    ensures FindingSeverity(p.scripts[k]) == High
    ensures PortSeverity(p) == High
  {
    var f := p.scripts[k];
    ContainsAppend(Lower(f.output), " " + Lower(f.id), "cve-");
    ContainsAppend(Lower(f.output), " " + Lower(f.id), "critical");
    assert FindingText(f) == Lower(f.output) + (" " + Lower(f.id));
    PortHighIff(p);
  }

  /** The finding heuristic tests output and id alike: a finding is `high`
      exactly when either names a CVE or `critical`, otherwise `medium` exactly
      when either mentions a vulnerability, `weak` or `insecure`, and `info`
      in every other case. */
  lemma FindingSeverityClassifies(f: ScriptFinding)
    ensures FindingSeverity(f) == High <==> FindingHighText(Lower(f.output)) || FindingHighText(Lower(f.id))
    ensures FindingSeverity(f) == Medium <==>
      && !(FindingHighText(Lower(f.output)) || FindingHighText(Lower(f.id)))
      && (FindingMediumText(Lower(f.output)) || FindingMediumText(Lower(f.id)))
    ensures FindingSeverity(f) == Info <==>
      && !(FindingHighText(Lower(f.output)) || FindingHighText(Lower(f.id)))
      && !(FindingMediumText(Lower(f.output)) || FindingMediumText(Lower(f.id)))
  {
    assert FindingText(f) == Lower(f.output) + " " + Lower(f.id);
    HighTextAcrossSpace(Lower(f.output), Lower(f.id));
    MediumTextAcrossSpace(Lower(f.output), Lower(f.id));
  }

  lemma HighTextAcrossSpace(a: string, b: string)
    ensures FindingHighText(a + " " + b) <==> FindingHighText(a) || FindingHighText(b)
  {
    ContainsAcrossSpace(a, b, "cve-");
    ContainsAcrossSpace(a, b, "critical");
  }

  lemma MediumTextAcrossSpace(a: string, b: string)
    ensures FindingMediumText(a + " " + b) <==> FindingMediumText(a) || FindingMediumText(b)
  {
    ContainsAcrossSpace(a, b, "vulnerab");
    ContainsAcrossSpace(a, b, "weak");
    ContainsAcrossSpace(a, b, "insecure");
  }

  /** A finding output that makes its port `high` makes the finding itself at
      least `medium`. */
  lemma PortTriggerIsAtLeastMediumFinding(f: ScriptFinding)
    requires PortHighText(Lower(f.output))
    ensures Rank(FindingSeverity(f)) >= Rank(Medium)
  {
    var text := Lower(f.output);
    var rest := " " + Lower(f.id);
    assert FindingText(f) == text + rest;
    ContainsAppend(text, rest, "cve-");
    ContainsAppend(text, rest, "vulnerab");
    ContainsAppend(text, rest, "critical");
  }

  // ---------------------------------------------------------------------------
  // The dictionary form (to_dict)
  // ---------------------------------------------------------------------------

  /** A port number as read back from a dictionary: an integer, or a value
      `int()` rejects. */
  datatype PortNumber = Known(n: int) | Unparsable

  /** Severities are plain strings in the dictionary form; the empty string
      stands for every value Python treats as false (`None`, `''`). */
  datatype FindingRecord = FindingRecord(id: string, output: string, severity: string)

  datatype PortRecord = PortRecord(
    port: PortNumber,
    protocol: string,
    state: string,
    service: Option<Service>,
    scripts: seq<FindingRecord>,
    severity: string,
    riskScore: Option<int>)

  datatype HostRecord = HostRecord(
    status: string,
    addresses: seq<Address>,
    hostnames: seq<string>,
    ports: seq<PortRecord>,
    os: Option<OsMatch>,
    riskScore: Option<int>)

  datatype ScanRecord = ScanRecord(
    target: string,
    scanTime: string,
    scannerVersion: string,
    hosts: seq<HostRecord>,
    totalRisk: Option<int>)

  function FindingToRecord(f: ScriptFinding): FindingRecord {
    FindingRecord(f.id, f.output, Name(f.severity))
  }

  function FindingsToRecords(fs: seq<ScriptFinding>): (r: seq<FindingRecord>)
    ensures |r| == |fs|
    ensures forall k :: 0 <= k < |fs| ==> r[k] == FindingToRecord(fs[k])
  {
    if |fs| == 0 then [] else [FindingToRecord(fs[0])] + FindingsToRecords(fs[1..])
  }

  /** One port as a dictionary; `keepRisk` says whether its risk score is carried. */
  function PortToRecord(p: PortEntry, keepRisk: bool): PortRecord {
    PortRecord(Known(p.port), p.protocol, p.state, p.service, FindingsToRecords(p.scripts),
               Name(p.severity), if keepRisk then p.riskScore else None)
  }

  function PortsToRecords(ps: seq<PortEntry>, keepRisk: bool): (r: seq<PortRecord>)
    ensures |r| == |ps|
    ensures forall k :: 0 <= k < |ps| ==> r[k] == PortToRecord(ps[k], keepRisk)
  {
    if |ps| == 0 then [] else [PortToRecord(ps[0], keepRisk)] + PortsToRecords(ps[1..], keepRisk)
  }

  function HostToRecord(h: HostEntry, keepRisk: bool): HostRecord {
    HostRecord(h.status, h.addresses, h.hostnames, PortsToRecords(h.ports, keepRisk),
               h.os, if keepRisk then h.riskScore else None)
  }

  function HostsToRecords(hs: seq<HostEntry>, keepRisk: bool): (r: seq<HostRecord>)
    ensures |r| == |hs|
    ensures forall k :: 0 <= k < |hs| ==> r[k] == HostToRecord(hs[k], keepRisk)
  {
    if |hs| == 0 then [] else [HostToRecord(hs[0], keepRisk)] + HostsToRecords(hs[1..], keepRisk)
  }

  /** ScanResult.to_dict as written: `asdict` copies the declared dataclass
      fields only, so the risk scores the parser attaches are not carried. */
  function ToDict(r: ScanResult): (d: ScanRecord)
    ensures d.target == r.target && d.scanTime == r.scanTime && d.scannerVersion == r.scannerVersion
    ensures |d.hosts| == |r.hosts|
    ensures d.totalRisk == None && forall i :: 0 <= i < |d.hosts| ==> d.hosts[i].riskScore == None
  {
    ScanRecord(r.target, r.scanTime, r.scannerVersion, HostsToRecords(r.hosts, false), None)
  }

  /** to_dict as its tests and report renderers read it: the same dictionary
      with the port, host and total risk scores carried along. */
  function ToDictWithRisk(r: ScanResult): (d: ScanRecord)
    ensures d.target == r.target && d.scanTime == r.scanTime && d.scannerVersion == r.scannerVersion
    ensures |d.hosts| == |r.hosts|
    ensures d.totalRisk == r.totalRisk
    ensures forall i :: 0 <= i < |d.hosts| ==> d.hosts[i].riskScore == r.hosts[i].riskScore
  {
    ScanRecord(r.target, r.scanTime, r.scannerVersion, HostsToRecords(r.hosts, true), r.totalRisk)
  }

  // Reading a dictionary back: the inverse of ToDictWithRisk.

  function FindingFromRecord(f: FindingRecord): Option<ScriptFinding> {
    match SeverityNamed(f.severity)
    case None => None
    case Some(s) => Some(ScriptFinding(f.id, f.output, s))
  }

  function FindingsFromRecords(fs: seq<FindingRecord>): Option<seq<ScriptFinding>> {
    if |fs| == 0 then Some([])
    else
      match (FindingFromRecord(fs[0]), FindingsFromRecords(fs[1..]))
      case (Some(f), Some(rest)) => Some([f] + rest)
      case _ => None
  }

  function PortFromRecord(p: PortRecord): Option<PortEntry> {
    match (p.port, SeverityNamed(p.severity), FindingsFromRecords(p.scripts))
    case (Known(n), Some(s), Some(fs)) => Some(PortEntry(n, p.protocol, p.state, p.service, fs, s, p.riskScore))
    case _ => None
  }

  function PortsFromRecords(ps: seq<PortRecord>): Option<seq<PortEntry>> {
    if |ps| == 0 then Some([])
    else
      match (PortFromRecord(ps[0]), PortsFromRecords(ps[1..]))
      case (Some(p), Some(rest)) => Some([p] + rest)
      case _ => None
  }

  function HostsFromRecords(hs: seq<HostRecord>): Option<seq<HostEntry>> {
    if |hs| == 0 then Some([])
    else
      match (PortsFromRecords(hs[0].ports), HostsFromRecords(hs[1..]))
      case (Some(ps), Some(rest)) =>
        var h := hs[0];
        Some([HostEntry(h.status, h.addresses, h.hostnames, ps, h.os, h.riskScore)] + rest)
      case _ => None
  }

  function FromDict(d: ScanRecord): Option<ScanResult> {
    match HostsFromRecords(d.hosts)
    case None => None
    case Some(hs) => Some(ScanResult(d.target, d.scanTime, d.scannerVersion, hs, d.totalRisk))
  }

  lemma {:induction false} FindingsRoundTrip(fs: seq<ScriptFinding>)
    ensures FindingsFromRecords(FindingsToRecords(fs)) == Some(fs)
  {
    if |fs| > 0 {
      FindingsRoundTrip(fs[1..]);
      assert SeverityNamed(Name(fs[0].severity)) == Some(fs[0].severity);
      assert [fs[0]] + fs[1..] == fs;
    }
  }

  lemma {:induction false} PortsRoundTrip(ps: seq<PortEntry>)
    ensures PortsFromRecords(PortsToRecords(ps, true)) == Some(ps)
  {
    if |ps| > 0 {
      PortsRoundTrip(ps[1..]);
      var p := ps[0];
      FindingsRoundTrip(p.scripts);
      assert SeverityNamed(Name(p.severity)) == Some(p.severity);
      assert [p] + ps[1..] == ps;
    }
  }

  lemma {:induction false} HostsRoundTrip(hs: seq<HostEntry>)
    ensures HostsFromRecords(HostsToRecords(hs, true)) == Some(hs)
  {
    if |hs| > 0 {
      HostsRoundTrip(hs[1..]);
      PortsRoundTrip(hs[0].ports);
      assert [hs[0]] + hs[1..] == hs;
    }
  }

  /** Reading back the dictionary with risk scores gives the scan result back:
      every field, every host, port and finding, in the same order. */
  lemma ToDictWithRiskRoundTrip(r: ScanResult)
    ensures FromDict(ToDictWithRisk(r)) == Some(r)
  {
    HostsRoundTrip(r.hosts);
  }

  /** The dictionary as written loses the risk scores and nothing else: read
      back, it is the scan result with every risk attribute unset. */
  lemma ToDictDropsRisk(r: ScanResult)
    ensures ToDict(r) == ToDictWithRisk(StripRisk(r))
    ensures FromDict(ToDict(r)) == Some(StripRisk(r))
    ensures (exists i :: 0 <= i < |r.hosts| && r.hosts[i].riskScore.Some?) ==> ToDict(r) != ToDictWithRisk(r)
  {
    StripRiskInvisible(r.hosts);
    ToDictWithRiskRoundTrip(StripRisk(r));
    if exists i :: 0 <= i < |r.hosts| && r.hosts[i].riskScore.Some? {
      var i :| 0 <= i < |r.hosts| && r.hosts[i].riskScore.Some?;
      assert ToDict(r).hosts[i].riskScore != ToDictWithRisk(r).hosts[i].riskScore;
    }
  }

  lemma {:induction false} StripPortRiskInvisible(ps: seq<PortEntry>)
    ensures PortsToRecords(ps, false) == PortsToRecords(StripPortsRisk(ps), true)
  {
    if |ps| > 0 {
      StripPortRiskInvisible(ps[1..]);
      assert StripPortsRisk(ps)[1..] == StripPortsRisk(ps[1..]);
    }
  }

  lemma {:induction false} StripRiskInvisible(hs: seq<HostEntry>)
    ensures HostsToRecords(hs, false) == HostsToRecords(StripHostsRisk(hs), true)
  {
    if |hs| > 0 {
      StripRiskInvisible(hs[1..]);
      StripPortRiskInvisible(hs[0].ports);
      assert StripHostsRisk(hs)[1..] == StripHostsRisk(hs[1..]);
    }
  }

  function StripPortsRisk(ps: seq<PortEntry>): seq<PortEntry> {
    if |ps| == 0 then [] else [ps[0].(riskScore := None)] + StripPortsRisk(ps[1..])
  }

  function StripHostsRisk(hs: seq<HostEntry>): seq<HostEntry> {
    if |hs| == 0 then []
    else [hs[0].(ports := StripPortsRisk(hs[0].ports), riskScore := None)] + StripHostsRisk(hs[1..])
  }

  /** The scan result with every risk attribute unset. */
  function StripRisk(r: ScanResult): ScanResult {
    r.(hosts := StripHostsRisk(r.hosts), totalRisk := None)
  }

  /** Every port of every host: host by host, each host's ports in order. */
  function AllPorts(hosts: seq<HostRecord>): seq<PortRecord> {
    if |hosts| == 0 then [] else hosts[0].ports + AllPorts(hosts[1..])
  }

  lemma {:induction false} AllPortsAppend(a: seq<HostRecord>, b: seq<HostRecord>)
    ensures AllPorts(a + b) == AllPorts(a) + AllPorts(b)
  {
    if |a| == 0 {
      assert a + b == b;
    } else {
      assert (a + b)[0] == a[0];
      assert (a + b)[1..] == a[1..] + b;
      AllPortsAppend(a[1..], b);
    }
  }
}
