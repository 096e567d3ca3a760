/** The expectations of the parser and filter tests, stated over a document
    of the shape they describe: one host that is up with an http port whose
    script output names a CVE, an ssh port whose output reports a weak
    algorithm, and an uncommon port without service information. */
module Samples {
  import opened Wrappers
  import opened Text
  import opened Xml
  import opened Models
  import opened Scanner
  import opened Filters
  import opened Render

  lemma MissingCharNeverContains(s: string, needle: string, c: char)
    requires c in needle && c !in s
    ensures !Contains(s, needle)
  {
    var k :| 0 <= k < |needle| && needle[k] == c;
    forall i ensures !OccursAt(s, needle, i) {
      if 0 <= i && i + |needle| <= |s| {
        assert s[i..i + |needle|][k] == s[i + k];
        assert s[i + k] in s;
      }
    }
    ContainsIffOccurs(s, needle);
  }

  /** No risky service name occurs in `unknown`, the name of a port without service. */
  lemma UnknownServiceIsNotRisky()
    ensures !IsRiskyService("unknown")
  {
    forall s | s in RiskyServices ensures !Contains("unknown", s) {
      MissingCharNeverContains("unknown", s, s[|s| - 1]);
    }
  }

  const HttpPort := PortEntry(80, "tcp", "open", Some(Service("http", "Apache httpd", "2.4.49", "")),
    [ScriptFinding("http-vuln", "CVE-1", High)], High, None)

  const SshPort := PortEntry(22, "tcp", "open", Some(Service("ssh", "OpenSSH", "7.4", "")),
    [ScriptFinding("ssh-algos", "weak", Medium)], Medium, None)

  const UncommonPort := PortEntry(9999, "tcp", "open", None, [], Low, None)

  /** The http port is `high` because its output names a CVE. */
  lemma HttpPortIsHigh()
    ensures PortSeverity(HttpPort) == High
    ensures FindingSeverity(HttpPort.scripts[0]) == High
  {
    assert Lower("CVE-1") == "cve-1";
    assert OccursAt("cve-1", "cve-", 0);
    ContainsAt("cve-1", "cve-", 0);
    CveFindingIsHighEverywhere(HttpPort, 0);
  }

  /** A port whose service is risky and none of whose outputs is high-level is `medium`. */
  lemma RiskyServiceIsMedium(p: PortEntry)
    requires IsRiskyService(ServiceName(p))
    requires forall k :: 0 <= k < |p.scripts| ==> !PortHighText(Lower(p.scripts[k].output))
    ensures PortSeverity(p) == Medium
  {
    PortSeverityClassifies(p);
  }

  lemma SshIsRisky(p: PortEntry)
    requires p.service.Some? && p.service.value.name == "ssh"
    ensures IsRiskyService(ServiceName(p))
  {
    assert Lower("ssh") == "ssh";
    assert OccursAt("ssh", "ssh", 0);
    ContainsAt("ssh", "ssh", 0);
    assert "ssh" in RiskyServices;
  }

  lemma WeakIsNotHigh(output: string)
    requires output == "weak"
    ensures !PortHighText(Lower(output))
  {
    assert Lower(output) == "weak";
    MissingCharNeverContains("weak", "cve-", 'c');
    MissingCharNeverContains("weak", "vulnerab", 'v');
    MissingCharNeverContains("weak", "critical", 'c');
  }

  /** The ssh port is `medium`: ssh is a risky service and `weak` raises no higher. */
  lemma SshPortIsMedium()
    ensures PortSeverity(SshPort) == Medium
  {
    SshIsRisky(SshPort);
    WeakIsNotHigh(SshPort.scripts[0].output);
    RiskyServiceIsMedium(SshPort);
  }

  lemma UncommonServiceName()
    ensures ServiceName(UncommonPort) == "unknown"
  {
    assert Lower("unknown") == "unknown";
  }

  lemma UncommonServiceLevel()
    ensures ServiceSeverity(UncommonPort) == Low
  {
    UncommonServiceName();
    UnknownServiceIsNotRisky();
    UncommonBase();
  }

  lemma UncommonBase()
    ensures BaseSeverity(9999) == Low
  {
  }

  /** Port 9999 is not common and has no service or findings: `low`. */
  lemma UncommonPortIsLow()
    ensures PortSeverity(UncommonPort) == Low
  {
    UncommonServiceLevel();
  }

  /** The three ports in dictionary form, with the levels proved above. */
  const HttpRecord := PortRecord(Known(80), "tcp", "open", HttpPort.service,
    [FindingRecord("http-vuln", "CVE-1", "high")], "high", None)
  const SshRecord := PortRecord(Known(22), "tcp", "open", SshPort.service,
    [FindingRecord("ssh-algos", "weak", "medium")], "medium", None)
  const UncommonRecord := PortRecord(Known(9999), "tcp", "open", None, [], "low", None)

  const SamplePorts: seq<PortRecord> := [HttpRecord, SshRecord, UncommonRecord]

  /** The three records are what `to_dict` stores for the three ports. */
  lemma SampleRecordsAreStored()
    ensures PortsToRecords([HttpPort, SshPort, UncommonPort], false) == SamplePorts
  {
    assert FindingsToRecords(HttpPort.scripts) == HttpRecord.scripts;
    assert FindingsToRecords(SshPort.scripts) == SshRecord.scripts;
  }

  lemma FilterThree(o: FilterOptions, a: PortRecord, b: PortRecord, c: PortRecord)
    ensures FilterPorts(o, [a, b, c]) ==
      (if Keeps(o, a) then [a] else []) + (if Keeps(o, b) then [b] else []) + (if Keeps(o, c) then [c] else [])
  {
    FilterOne(o, [a, b, c]);
    FilterOne(o, [b, c]);
    FilterOne(o, [c]);
  }

  lemma FilterOne(o: FilterOptions, ps: seq<PortRecord>)
    requires |ps| > 0
    ensures FilterPorts(o, ps) == (if Keeps(o, ps[0]) then [ps[0]] else []) + FilterPorts(o, ps[1..])
  {
  }

  lemma SampleLevels()
    ensures LevelOf("high") == 3 && LevelOf("medium") == 2 && LevelOf("low") == 1
  {
    LevelOfLowerName("high", High);
    LevelOfLowerName("medium", Medium);
    LevelOfLowerName("low", Low);
  }

  lemma LevelOfLowerName(name: string, s: Severity)
    requires name == Name(s)
    ensures LevelOf(name) == Rank(s)
  {
    LowerIsLower(name);
    assert IsLower(name);
  }

  lemma MediumThreshold(o: FilterOptions)
    requires o == DefaultOptions.(minSeverity := "medium")
    ensures Keeps(o, HttpRecord) && Keeps(o, SshRecord) && !Keeps(o, UncommonRecord)
  {
    SampleLevels();
  }

  /** A minimum severity of `medium` drops the `low` port and keeps the others. */
  lemma MinimumMediumDropsLowPort()
    ensures FilterPorts(DefaultOptions.(minSeverity := "medium"), SamplePorts) == [HttpRecord, SshRecord]
  {
    var o := DefaultOptions.(minSeverity := "medium");
    MediumThreshold(o);
    FilterThree(o, HttpRecord, SshRecord, UncommonRecord);
  }

  lemma SshServiceList()
    ensures ParseCsvSet("ssh") == {"ssh"}
  {
    assert IsCsvItem("ssh") by {
      assert Lower("ssh") == "ssh";
      StripUnpadded("ssh");
    }
    assert Join(["ssh"], ',') == "ssh";
    CsvRoundTrip(["ssh"]);
  }

  lemma SampleServiceKeys()
    ensures ServiceKey(HttpRecord) == "http" && ServiceKey(SshRecord) == "ssh" && ServiceKey(UncommonRecord) == ""
  {
    assert Lower("http") == "http";
    assert Lower("ssh") == "ssh";
  }

  lemma SshOptionExcludes(o: FilterOptions)
    requires o == DefaultOptions.(excludeServices := "ssh")
    ensures ExcludedServices(o) == {"ssh"} && ExcludedPorts(o) == {} && Threshold(o) == 0
  {
    SshServiceList();
    InfoIsLowest();
  }

  lemma SshExcluded(o: FilterOptions)
    requires o == DefaultOptions.(excludeServices := "ssh")
    ensures Keeps(o, HttpRecord) && !Keeps(o, SshRecord) && Keeps(o, UncommonRecord)
  {
    SshOptionExcludes(o);
    HttpKept(o);
    SshDropped(o);
    UncommonKept(o);
  }

  lemma HttpKept(o: FilterOptions)
    requires ExcludedServices(o) == {"ssh"} && ExcludedPorts(o) == {} && Threshold(o) == 0 && !o.onlyUncommonPorts
    ensures Keeps(o, HttpRecord)
  {
    SampleServiceKeys();
    KeptUnlessSsh(o, HttpRecord);
  }

  lemma KeptUnlessSsh(o: FilterOptions, p: PortRecord)
    requires ExcludedServices(o) == {"ssh"} && ExcludedPorts(o) == {} && Threshold(o) == 0 && !o.onlyUncommonPorts
    requires ServiceKey(p) != "ssh"
    ensures Keeps(o, p)
  {
  }

  lemma SshDropped(o: FilterOptions)
    requires ExcludedServices(o) == {"ssh"}
    ensures !Keeps(o, SshRecord)
  {
    SampleServiceKeys();
  }

  lemma UncommonKept(o: FilterOptions)
    requires ExcludedPorts(o) == {} && Threshold(o) == 0 && !o.onlyUncommonPorts
    ensures Keeps(o, UncommonRecord)
  {
    SampleServiceKeys();
  }

  /** Excluding the ssh service drops port 22 and keeps the others. */
  lemma ExcludingSshDropsPort22()
    ensures FilterPorts(DefaultOptions.(excludeServices := "ssh"), SamplePorts) == [HttpRecord, UncommonRecord]
  {
    var o := DefaultOptions.(excludeServices := "ssh");
    SshExcluded(o);
    FilterThree(o, HttpRecord, SshRecord, UncommonRecord);
  }

  /** The filter test's second step as it runs: `apply_filters` updates the
      stored dictionary in place, so the ssh filter sees the ports the
      `medium` filter left, and only port 80 remains. */
  lemma SshFilterAfterMediumFilter()
    ensures FilterPorts(DefaultOptions.(excludeServices := "ssh"), FilterPorts(DefaultOptions.(minSeverity := "medium"), SamplePorts))
            == [HttpRecord]
  {
    MinimumMediumDropsLowPort();
    SshOnHttpAndSsh(DefaultOptions.(excludeServices := "ssh"));
  }

  lemma SshOnHttpAndSsh(o: FilterOptions)
    requires o == DefaultOptions.(excludeServices := "ssh")
    ensures FilterPorts(o, [HttpRecord, SshRecord]) == [HttpRecord]
  {
    SshExcluded(o);
    FilterOne(o, [HttpRecord, SshRecord]);
    FilterOne(o, [SshRecord]);
  }

  // ---------------------------------------------------------------------------
  // The parse test's risk checks
  // ---------------------------------------------------------------------------

  /** With a risk function that scores every port above zero, the ports the
      parser keeps add up to at least one per port. */
  lemma {:induction false} PortRiskCountsPorts(ps: seq<PortEntry>, risk: RiskFn)
    requires forall p :: risk(p) > 0
    requires forall k :: 0 <= k < |ps| ==> WellFormedPort(ps[k], risk)
    ensures SumPortRisk(ps) >= |ps|
  {
    if |ps| > 0 {
      assert forall k :: 0 <= k < |ps[1..]| ==> ps[1..][k] == ps[k + 1];
      PortRiskCountsPorts(ps[1..], risk);
      assert PortRisk(ps[0]) == risk(ps[0].(riskScore := None));
    }
  }

  /** Under the same risk function, every parsed host scores at least its
      number of ports, and the total is at least every host's score. */
  lemma {:induction false} HostRiskBounds(hs: seq<HostEntry>, risk: RiskFn)
    requires forall p :: risk(p) > 0
    requires forall k :: 0 <= k < |hs| ==> WellFormedHost(hs[k], risk)
    ensures SumHostRisk(hs) >= 0
    ensures forall k :: 0 <= k < |hs| ==> HostRisk(hs[k]) >= |hs[k].ports|
    ensures forall k :: 0 <= k < |hs| ==> SumHostRisk(hs) >= HostRisk(hs[k])
  {
    if |hs| > 0 {
      assert forall k :: 0 <= k < |hs[1..]| ==> hs[1..][k] == hs[k + 1];
      HostRiskBounds(hs[1..], risk);
      PortRiskCountsPorts(hs[0].ports, risk);
      forall k | 0 < k < |hs|
        ensures HostRisk(hs[k]) >= |hs[k].ports| && SumHostRisk(hs) >= HostRisk(hs[k])
      {
        assert hs[k] == hs[1..][k - 1];
      }
    }
  }

  /** The stored dictionary has no host or total risk score, so the parse
      test's `host.get('risk_score', 0) > 0` reads 0 for every host. */
  lemma StoredRiskReadsZero(root: Elem, target: string, scanTime: string, risk: RiskFn)
    requires ParseXmlFile(root, target, scanTime, risk).Ok?
    ensures var d := ParseXmlFile(root, target, scanTime, risk).value;
      && d.totalRisk.GetOr(0) == 0
      && forall i :: 0 <= i < |d.hosts| ==> d.hosts[i].riskScore.GetOr(0) == 0
  {
  }

  /** With the scores carried into the stored dictionary, both risk checks of
      the parse test hold for any document: each host with a port scores above
      zero, and the total is at least each host's score. */
  lemma CorrectedRiskChecksHold(root: Elem, target: string, scanTime: string, risk: RiskFn)
    requires forall p :: risk(p) > 0
    requires ParseXmlFileCorrected(root, target, scanTime, risk).Ok?
    ensures var d := ParseXmlFileCorrected(root, target, scanTime, risk).value;
      forall i :: 0 <= i < |d.hosts| ==>
        && d.hosts[i].riskScore.GetOr(0) >= |d.hosts[i].ports|
        && d.totalRisk.GetOr(0) >= d.hosts[i].riskScore.GetOr(0)
  {
    var r := ParseScan(root, TargetLabel(target), scanTime, risk).value;
    HostRiskBounds(r.hosts, risk);
    var d := ParseXmlFileCorrected(root, target, scanTime, risk).value;
    assert d == ToDictWithRisk(r);
    forall i | 0 <= i < |d.hosts|
      ensures d.hosts[i].riskScore.GetOr(0) >= |d.hosts[i].ports|
    {
      assert d.hosts[i] == HostToRecord(r.hosts[i], true);
    }
  }
}
