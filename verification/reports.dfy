/** The report helpers shared by every output format: the per-severity port
    tally, the severity colours and the selection of potential
    vulnerabilities. */
module Reports {
  import opened Wrappers
  import opened Text
  import opened Models
  import opened Scanner
  import opened Filters

  // ---------------------------------------------------------------------------
  // _severity_counts
  // ---------------------------------------------------------------------------

  /** The severity key a port is tallied under. */
  function TallyKey(p: PortRecord): string {
    SeverityKey(p.severity)
  }

  /** The number of ports tallied under `key`. */
  function CountKey(ps: seq<PortRecord>, key: string): (n: nat)
    ensures n <= |ps|
  {
    if |ps| == 0 then 0 else (if TallyKey(ps[0]) == key then 1 else 0) + CountKey(ps[1..], key)
  }

  lemma {:induction false} CountKeyAppend(a: seq<PortRecord>, b: seq<PortRecord>, key: string)
    ensures CountKey(a + b, key) == CountKey(a, key) + CountKey(b, key)
  {
    if |a| == 0 {
      assert a + b == b;
    } else {
      assert (a + b)[0] == a[0];
      assert (a + b)[1..] == a[1..] + b;
      CountKeyAppend(a[1..], b, key);
    }
  }

  const ZeroCounts: map<string, nat> := map["info" := 0, "low" := 0, "medium" := 0, "high" := 0, "critical" := 0]

  lemma CountOneMore(done: seq<PortRecord>, ports: seq<PortRecord>, j: int)
    requires 0 <= j < |ports|
    ensures forall key ::
      CountKey(done + ports[..j + 1], key) == CountKey(done + ports[..j], key) + (if TallyKey(ports[j]) == key then 1 else 0)
  {
    assert done + ports[..j + 1] == (done + ports[..j]) + [ports[j]];
    forall key ensures CountKey(done + ports[..j + 1], key)
      == CountKey(done + ports[..j], key) + (if TallyKey(ports[j]) == key then 1 else 0)
    {
      CountKeyAppend(done + ports[..j], [ports[j]], key);
    }
  }

  lemma AllPortsOneMore(hosts: seq<HostRecord>, i: int)
    requires 0 <= i < |hosts|
    ensures AllPorts(hosts[..i + 1]) == AllPorts(hosts[..i]) + hosts[i].ports
  {
    assert hosts[..i + 1] == hosts[..i] + [hosts[i]];
    AllPortsAppend(hosts[..i], [hosts[i]]);
    assert AllPorts([hosts[i]]) == hosts[i].ports + [];
    assert hosts[i].ports + [] == hosts[i].ports;
  }

  /** _severity_counts: for each of the five severity names, the number of
      ports of all hosts whose severity (`info` when unset), lower-cased, is
      that name; ports with any other severity are not counted. */
  method SeverityCounts(d: ScanRecord) returns (counts: map<string, nat>)
    ensures counts.Keys == SeverityOrder.Keys
    ensures forall key :: key in counts ==> counts[key] == CountKey(AllPorts(d.hosts), key)
  {
    counts := ZeroCounts;
    var i := 0;
    while i < |d.hosts|
      invariant 0 <= i <= |d.hosts|
      invariant counts.Keys == SeverityOrder.Keys
      invariant forall key :: key in counts ==> counts[key] == CountKey(AllPorts(d.hosts[..i]), key)
    {
      var done := AllPorts(d.hosts[..i]);
      var ports := d.hosts[i].ports;
      var j := 0;
      assert done + ports[..0] == done;
      while j < |ports|
        invariant 0 <= j <= |ports|
        invariant counts.Keys == SeverityOrder.Keys
        invariant forall key :: key in counts ==> counts[key] == CountKey(done + ports[..j], key)
      {
        var key := TallyKey(ports[j]);
        CountOneMore(done, ports, j);
        if key in counts {
          counts := counts[key := counts[key] + 1];
        }
        j := j + 1;
      }
      assert ports[..j] == ports;
      AllPortsOneMore(d.hosts, i);
      i := i + 1;
    }
    assert d.hosts[..i] == d.hosts;
  }

  /** The ports whose severity key is none of the five names. */
  function CountUnknown(ps: seq<PortRecord>): (n: nat)
    ensures n <= |ps|
  {
    if |ps| == 0 then 0 else (if TallyKey(ps[0]) !in SeverityOrder then 1 else 0) + CountUnknown(ps[1..])
  }

  function CountsTotal(ps: seq<PortRecord>): nat {
    CountKey(ps, "info") + CountKey(ps, "low") + CountKey(ps, "medium") + CountKey(ps, "high") + CountKey(ps, "critical")
  }

  /** Every port is tallied under exactly one name or under none: the five
      counts and the unrecognised ports add up to the number of ports. */
  lemma {:induction false} CountsPartitionPorts(ps: seq<PortRecord>)
    ensures CountsTotal(ps) + CountUnknown(ps) == |ps|
  {
    if |ps| > 0 {
      CountsPartitionPorts(ps[1..]);
    }
  }

  lemma NamesAreKeys(s: Severity)
    ensures SeverityKey(Name(s)) == Name(s)
    ensures Name(s) in SeverityOrder
  {
    LowerIsLower(Name(s));
  }

  lemma {:induction false} ParsedPortsAllKnown(ps: seq<PortEntry>, keepRisk: bool)
    ensures CountUnknown(PortsToRecords(ps, keepRisk)) == 0
  {
    if |ps| > 0 {
      NamesAreKeys(ps[0].severity);
      ParsedPortsAllKnown(ps[1..], keepRisk);
      assert PortsToRecords(ps, keepRisk)[1..] == PortsToRecords(ps[1..], keepRisk);
    }
  }

  lemma {:induction false} ParsedHostsAllKnown(hs: seq<HostEntry>, keepRisk: bool)
    ensures CountUnknown(AllPorts(HostsToRecords(hs, keepRisk))) == 0
  {
    if |hs| > 0 {
      var recs := HostsToRecords(hs, keepRisk);
      ParsedPortsAllKnown(hs[0].ports, keepRisk);
      ParsedHostsAllKnown(hs[1..], keepRisk);
      assert recs[1..] == HostsToRecords(hs[1..], keepRisk);
      CountUnknownAppend(recs[0].ports, AllPorts(recs[1..]));
    }
  }

  lemma {:induction false} CountUnknownAppend(a: seq<PortRecord>, b: seq<PortRecord>)
    ensures CountUnknown(a + b) == CountUnknown(a) + CountUnknown(b)
  {
    if |a| == 0 {
      assert a + b == b;
    } else {
      assert (a + b)[0] == a[0];
      assert (a + b)[1..] == a[1..] + b;
      CountUnknownAppend(a[1..], b);
    }
  }

  /** For a parsed scan the five counts cover every open port, the number the
      summary reports. */
  lemma ParsedCountsCoverOpenPorts(r: ScanResult)
    ensures CountsTotal(AllPorts(ToDict(r).hosts)) == GetSummary(Some(ToDict(r))).totalOpenPorts
  {
    ParsedHostsAllKnown(r.hosts, false);
    CountsPartitionPorts(AllPorts(ToDict(r).hosts));
    OpenPortCountIsAllPorts(ToDict(r).hosts);
  }

  /** After filtering with a minimum severity, nothing is tallied under a
      name ranked below it. */
  lemma {:induction false} FilteredPortsCountNothingBelow(o: FilterOptions, ps: seq<PortRecord>, key: string)
    requires key in SeverityOrder && SeverityOrder[key] < Threshold(o)
    ensures CountKey(FilterPorts(o, ps), key) == 0
  {
    if |ps| > 0 {
      FilteredPortsCountNothingBelow(o, ps[1..], key);
    }
  }

  lemma {:induction false} FilteredCountsNothingBelow(d: ScanRecord, o: FilterOptions, key: string)
    requires key in SeverityOrder && SeverityOrder[key] < Threshold(o)
    ensures CountKey(AllPorts(ApplyFilters(d, o).hosts), key) == 0
  {
    FilteredHostsCountNothingBelow(o, d.hosts, key);
  }

  lemma {:induction false} FilteredHostsCountNothingBelow(o: FilterOptions, hs: seq<HostRecord>, key: string)
    requires key in SeverityOrder && SeverityOrder[key] < Threshold(o)
    ensures CountKey(AllPorts(FilterHosts(o, hs)), key) == 0
  {
    if |hs| > 0 {
      var fs := FilterHosts(o, hs);
      FilteredHostsCountNothingBelow(o, hs[1..], key);
      FilteredPortsCountNothingBelow(o, hs[0].ports, key);
      assert fs[1..] == FilterHosts(o, hs[1..]);
      CountKeyAppend(fs[0].ports, AllPorts(fs[1..]), key);
    }
  }

  // ---------------------------------------------------------------------------
  // _severity_color
  // ---------------------------------------------------------------------------

  const SeverityColors: map<string, string> := map[
    "critical" := "#8B0000",
    "high" := "#E74C3C",
    "medium" := "#F39C12",
    "low" := "#27AE60",
    "info" := "#7F8C8D"]

  const DefaultColor: string := "#7F8C8D"

  /** _severity_color: the colour of the severity's key, grey for any other. */
  function SeverityColor(sev: string): (c: string)
    ensures SeverityKey(sev) in SeverityOrder ==> c == SeverityColors[SeverityKey(sev)]
    ensures SeverityKey(sev) !in SeverityOrder ==> c == SeverityColors["info"]
  {
    var key := SeverityKey(sev);
    if key in SeverityColors then SeverityColors[key] else DefaultColor
  }

  /** Every level has its own colour, and an unknown severity is drawn like `info`. */
  lemma SeverityColorsDistinguishLevels()
    ensures SeverityColors.Keys == SeverityOrder.Keys
    ensures forall a, b :: a in SeverityColors && b in SeverityColors && a != b ==> SeverityColors[a] != SeverityColors[b]
    ensures DefaultColor == SeverityColors["info"]
  {
  }

  /** The colour does not depend on the case of the severity. */
  lemma SeverityColorIgnoresCase(sev: string)
    ensures SeverityColor(Lower(sev)) == SeverityColor(sev)
  {
    LowerIsLower(sev);
  }

  // ---------------------------------------------------------------------------
  // Potential vulnerabilities
  // ---------------------------------------------------------------------------

  /** A finding the reports list: its id mentions `vuln` in any case, or it
      has any output at all. */
  predicate IsPotentialVulnerability(f: FindingRecord) {
    Contains(Lower(f.id), "vuln") || f.output != ""
  }

  datatype Listing = Listing(port: PortNumber, finding: FindingRecord)

  function FindingListings(port: PortNumber, fs: seq<FindingRecord>): (r: seq<Listing>)
    ensures |r| <= |fs|
    ensures forall l :: l in r <==> l.port == port && l.finding in fs && IsPotentialVulnerability(l.finding)
  {
    if |fs| == 0 then []
    else
      var rest := FindingListings(port, fs[1..]);
      assert forall f :: f in fs <==> f == fs[0] || f in fs[1..];
      if IsPotentialVulnerability(fs[0]) then [Listing(port, fs[0])] + rest else rest
  }

  /** The listings keep the findings' order and multiplicity: they distribute
      over the script list, and one finding is listed once or not at all. */
  lemma {:induction false} FindingListingsAppend(port: PortNumber, a: seq<FindingRecord>, b: seq<FindingRecord>)
    ensures FindingListings(port, a + b) == FindingListings(port, a) + FindingListings(port, b)
  {
    if |a| == 0 {
      assert a + b == b;
    } else {
      assert (a + b)[0] == a[0];
      assert (a + b)[1..] == a[1..] + b;
      FindingListingsAppend(port, a[1..], b);
    }
  }

  lemma FindingListingsOne(port: PortNumber, f: FindingRecord)
    ensures FindingListings(port, [f]) == if IsPotentialVulnerability(f) then [Listing(port, f)] else []
  {
    assert [f][1..] == [];
  }

  /** The potential-vulnerability list of one host: port by port, each port's
      findings in order. */
  function HostListings(ps: seq<PortRecord>): (r: seq<Listing>)
    ensures forall l :: l in r <==> exists k :: 0 <= k < |ps| && l.port == ps[k].port && l.finding in ps[k].scripts && IsPotentialVulnerability(l.finding)
  {
    if |ps| == 0 then []
    else
      var r := FindingListings(ps[0].port, ps[0].scripts) + HostListings(ps[1..]);
      assert forall k :: 1 <= k < |ps| ==> ps[k] == ps[1..][k - 1];
      r
  }

  lemma {:induction false} HostListingsAppend(a: seq<PortRecord>, b: seq<PortRecord>)
    ensures HostListings(a + b) == HostListings(a) + HostListings(b)
  {
    if |a| == 0 {
      assert a + b == b;
    } else {
      assert (a + b)[0] == a[0];
      assert (a + b)[1..] == a[1..] + b;
      HostListingsAppend(a[1..], b);
    }
  }

  /** A single port contributes its own findings' listings, in script order. */
  lemma HostListingsOne(p: PortRecord)
    ensures HostListings([p]) == FindingListings(p.port, p.scripts)
  {
    assert [p][1..] == [];
  }

  lemma {:induction false} VulnScriptsAreListed(port: PortNumber, fs: seq<FindingRecord>)
    ensures CountVulnScripts(fs) <= |FindingListings(port, fs)|
  {
    if |fs| > 0 {
      VulnScriptsAreListed(port, fs[1..]);
    }
  }

  /** The summary's vulnerability count never exceeds the number of findings
      the reports list: a script whose id names `vuln` is always listed. */
  lemma {:induction false} SummaryCountAtMostListed(ps: seq<PortRecord>)
    ensures CountVulnInPorts(ps) <= |HostListings(ps)|
  {
    if |ps| > 0 {
      VulnScriptsAreListed(ps[0].port, ps[0].scripts);
      SummaryCountAtMostListed(ps[1..]);
    }
  }
}
