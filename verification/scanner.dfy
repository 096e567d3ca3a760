/** The scan parser: from the scanner's XML element tree to a ScanResult, and
    the summary of a stored result. */
module Scanner {
  import opened Wrappers
  import opened Text
  import opened Xml
  import opened Seqs
  import opened Models

  /** risk_score_for_port, whose definition is not part of this model: any
      function of the port entry it is given. */
  type RiskFn = PortEntry -> int

  /** The exceptions the parse raises for a well-formed document. */
  datatype ParseError =
    | InvalidPortId(portid: string) // `int(portid)` raises ValueError
    | HostOutsideRoot               // `root.remove(host)` raises ValueError

  // ---------------------------------------------------------------------------
  // _parse_port
  // ---------------------------------------------------------------------------

  /** The port's first `state` child says `open`. */
  predicate IsOpen(e: Elem) {
    var st := Find(e.children, "state");
    st.Some? && AttrIs(st.value, "state", "open")
  }

  /** `int(port_elem.get('portid', '0') or 0)`: a missing or empty portid is 0. */
  function PortIdOf(e: Elem): (r: Result<int, ParseError>)
    ensures "portid" !in e.attrs ==> r == Ok(0)
    ensures r.Err? <==> Get(e, "portid", "0") != "" && ParseInt(Get(e, "portid", "0")).None?
    ensures r.Ok? && Get(e, "portid", "0") != "" ==> ParseInt(Get(e, "portid", "0")) == Some(r.value)
  {
    assert IntToString(0) == "0";
    IntToStringRoundTrip(0);
    var raw := Get(e, "portid", "0");
    if raw == "" then Ok(0)
    else
      match ParseInt(raw)
      case Some(n) => Ok(n)
      case None => Err(InvalidPortId(raw))
  }

  /** The service attributes, each the element's own value or its default when absent. */
  function ServiceOf(e: Elem): (r: Service)
    ensures AttrIs(e, "name", r.name) || ("name" !in e.attrs && r.name == "unknown")
    ensures AttrIs(e, "product", r.product) || ("product" !in e.attrs && r.product == "")
    ensures AttrIs(e, "version", r.version) || ("version" !in e.attrs && r.version == "")
    ensures AttrIs(e, "extrainfo", r.extrainfo) || ("extrainfo" !in e.attrs && r.extrainfo == "")
  {
    Service(Get(e, "name", "unknown"), Get(e, "product", ""), Get(e, "version", ""), Get(e, "extrainfo", ""))
  }

  /** One `script` element as a finding, classified as soon as it is built. */
  function ScriptOf(e: Elem): ScriptFinding {
    var f := ScriptFinding(Get(e, "id", ""), Get(e, "output", ""), Info);
    f.(severity := FindingSeverity(f))
  }

  function ScriptsOf(es: seq<Elem>): (r: seq<ScriptFinding>)
    ensures |r| == |es|
    ensures forall k :: 0 <= k < |es| ==> r[k] == ScriptOf(es[k])
  {
    if |es| == 0 then [] else [ScriptOf(es[0])] + ScriptsOf(es[1..])
  }

  predicate WellFormedFinding(f: ScriptFinding) {
    f.severity == FindingSeverity(f)
  }

  /** What the parser guarantees of every port it keeps: it is open, each
      finding and the port itself carry the heuristic's level, and its risk
      score is the risk function applied to the entry before scoring. */
  predicate WellFormedPort(p: PortEntry, risk: RiskFn) {
    && p.state == "open"
    && (forall k :: 0 <= k < |p.scripts| ==> WellFormedFinding(p.scripts[k]))
    && p.severity == PortSeverity(p)
    && p.riskScore == Some(risk(p.(riskScore := None)))
  }

  /** The port entry as first built, before it is classified and scored. */
  function EntryOf(e: Elem, port: int): (r: PortEntry)
    requires IsOpen(e)
    ensures r.port == port && r.state == "open"
    ensures r.service.Some? <==> Find(e.children, "service").Some?
    ensures |r.scripts| == |FindAll(e.children, "script")|
    ensures r.severity == Info && r.riskScore == None
  {
    var service := match Find(e.children, "service")
      case None => None
      case Some(s) => Some(ServiceOf(s));
    PortEntry(port, Get(e, "protocol", ""), Get(Find(e.children, "state").value, "state", ""),
              service, ScriptsOf(FindAll(e.children, "script")), Info, None)
  }

  /** The heuristic's level, then the risk score of the classified entry. */
  function Scored(entry: PortEntry, risk: RiskFn): (p: PortEntry)
    requires forall k :: 0 <= k < |entry.scripts| ==> WellFormedFinding(entry.scripts[k])
    requires entry.state == "open"
    ensures WellFormedPort(p, risk)
    ensures p.port == entry.port && p.protocol == entry.protocol && p.service == entry.service && p.scripts == entry.scripts
  {
    var classified := entry.(severity := PortSeverity(entry), riskScore := None);
    PortSeverityIgnoresIds(classified, entry);
    classified.(riskScore := Some(risk(classified)))
  }

  /** _parse_port: `None` unless the port is open; raises on a non-numeric portid. */
  function ParsePort(e: Elem, risk: RiskFn): (r: Result<Option<PortEntry>, ParseError>)
    ensures r == Ok(None) <==> !IsOpen(e)
    ensures r.Err? <==> IsOpen(e) && PortIdOf(e).Err?
    ensures r.Ok? && r.value.Some? ==> WellFormedPort(r.value.value, risk)
    ensures r.Ok? && r.value.Some? ==> r.value.value.port == PortIdOf(e).value
  {
    if !IsOpen(e) then Ok(None)
    else
      var n :- PortIdOf(e);
      Ok(Some(Scored(EntryOf(e, n), risk)))
  }

  /** The loop shape shared by the port and host lists: each element parsed
      in document order, the `None`s skipped, the first exception raised. */
  function KeepParsed<T>(es: seq<Elem>, parse: Elem -> Result<Option<T>, ParseError>): (r: Result<seq<T>, ParseError>)
    ensures r.Err? <==> exists k :: 0 <= k < |es| && parse(es[k]).Err?
    ensures r.Ok? ==> |r.value| <= |es|
  {
    if |es| == 0 then Ok([])
    else
      var p :- parse(es[0]);
      var rest :- KeepParsed(es[1..], parse);
      assert forall k :: 1 <= k < |es| ==> es[k] == es[1..][k - 1];
      Ok((if p.Some? then [p.value] else []) + rest)
  }

  /** Exactly the `Some` results are kept. */
  lemma {:induction false} KeepParsedMembers<T(!new)>(es: seq<Elem>, parse: Elem -> Result<Option<T>, ParseError>)
    requires KeepParsed(es, parse).Ok?
    ensures forall x :: x in KeepParsed(es, parse).value <==> exists k :: 0 <= k < |es| && parse(es[k]) == Ok(Some(x))
  {
    if |es| > 0 {
      KeepParsedMembers(es[1..], parse);
      assert forall k :: 1 <= k < |es| ==> es[k] == es[1..][k - 1];
      forall x | exists k :: 0 <= k < |es| && parse(es[k]) == Ok(Some(x))
        ensures x in KeepParsed(es, parse).value
      {
        var k :| 0 <= k < |es| && parse(es[k]) == Ok(Some(x));
        if k > 0 {
          assert parse(es[1..][k - 1]) == Ok(Some(x));
        }
      }
    }
  }

  /** Results keep document order: parsing two runs of elements gives the
      results of the first followed by the results of the second. */
  lemma {:induction false} KeepParsedAppend<T>(a: seq<Elem>, b: seq<Elem>, parse: Elem -> Result<Option<T>, ParseError>)
    requires KeepParsed(a, parse).Ok?
    ensures KeepParsed(b, parse).Err? ==> KeepParsed(a + b, parse) == KeepParsed(b, parse)
    ensures KeepParsed(b, parse).Ok? ==> KeepParsed(a + b, parse) == Ok(KeepParsed(a, parse).value + KeepParsed(b, parse).value)
  {
    if |a| == 0 {
      assert a + b == b;
      if KeepParsed(b, parse).Ok? {
        assert [] + KeepParsed(b, parse).value == KeepParsed(b, parse).value;
      }
    } else {
      assert (a + b)[0] == a[0];
      assert (a + b)[1..] == a[1..] + b;
      KeepParsedAppend(a[1..], b, parse);
      var head := parse(a[0]).value;
      var first := if head.Some? then [head.value] else [];
      var tail := KeepParsed(a[1..], parse).value;
      assert KeepParsed(a, parse).value == first + tail;
      if KeepParsed(b, parse).Ok? {
        var pb := KeepParsed(b, parse).value;
        assert KeepParsed(a + b, parse).value == first + (tail + pb);
        assert first + (tail + pb) == (first + tail) + pb;
      }
    }
  }

  /** When every element parses to a value, the values are kept, in order. */
  lemma {:induction false} KeepParsedAll<T>(es: seq<Elem>, vs: seq<T>, parse: Elem -> Result<Option<T>, ParseError>)
    requires |es| == |vs|
    requires forall k :: 0 <= k < |es| ==> parse(es[k]) == Ok(Some(vs[k]))
    ensures KeepParsed(es, parse) == Ok(vs)
  {
    if |es| > 0 {
      assert forall k :: 0 <= k < |es| - 1 ==> es[1..][k] == es[k + 1] && vs[1..][k] == vs[k + 1];
      KeepParsedAll(es[1..], vs[1..], parse);
      assert [vs[0]] + vs[1..] == vs;
    }
  }

  /** The `port` children in order, closed ports skipped; the first bad portid raises. */
  function ParsePorts(es: seq<Elem>, risk: RiskFn): (r: Result<seq<PortEntry>, ParseError>)
    ensures r.Err? <==> exists k :: 0 <= k < |es| && IsOpen(es[k]) && PortIdOf(es[k]).Err?
    ensures r.Ok? ==> forall k :: 0 <= k < |r.value| ==> WellFormedPort(r.value[k], risk)
  {
    var r := KeepParsed(es, e => ParsePort(e, risk));
    if r.Ok? then
      KeepParsedMembers(es, e => ParsePort(e, risk));
      assert forall k :: 0 <= k < |r.value| ==> r.value[k] in r.value;
      r
    else r
  }

  // ---------------------------------------------------------------------------
  // _parse_host
  // ---------------------------------------------------------------------------

  /** The host's first `status` child says `up`. */
  predicate IsUp(e: Elem) {
    var st := Find(e.children, "status");
    st.Some? && AttrIs(st.value, "state", "up")
  }

  function AddressOf(e: Elem): Address {
    Address(Get(e, "addrtype", "unknown"), Get(e, "addr", ""))
  }

  function AddressesOf(es: seq<Elem>): (r: seq<Address>)
    ensures |r| == |es|
    ensures forall k :: 0 <= k < |es| ==> r[k] == AddressOf(es[k])
  {
    if |es| == 0 then [] else [AddressOf(es[0])] + AddressesOf(es[1..])
  }

  function NamesOf(es: seq<Elem>): (r: seq<string>)
    ensures |r| == |es|
    ensures forall k :: 0 <= k < |es| ==> r[k] == Get(es[k], "name", "")
  {
    if |es| == 0 then [] else [Get(es[0], "name", "")] + NamesOf(es[1..])
  }

  /** The `hostname` children of the first `hostnames` child. */
  function HostnamesOf(e: Elem): seq<string> {
    match Find(e.children, "hostnames")
    case None => []
    case Some(hn) => NamesOf(FindAll(hn.children, "hostname"))
  }

  /** The first `osmatch` of the first `os` child, if there is one. */
  function OsOf(e: Elem): (r: Option<OsMatch>)
    ensures r.Some? <==> Find(e.children, "os").Some? && Find(Find(e.children, "os").value.children, "osmatch").Some?
    ensures r.Some? ==>
      var m := Find(Find(e.children, "os").value.children, "osmatch").value;
      && (AttrIs(m, "name", r.value.name) || ("name" !in m.attrs && r.value.name == "Unknown"))
      && (AttrIs(m, "accuracy", r.value.accuracy) || ("accuracy" !in m.attrs && r.value.accuracy == "0"))
  {
    match Find(e.children, "os")
    case None => None
    case Some(os) =>
      match Find(os.children, "osmatch")
      case None => None
      case Some(m) => Some(OsMatch(Get(m, "name", "Unknown"), Get(m, "accuracy", "0")))
  }

  /** The ports under the first `ports` child. */
  function PortsOf(e: Elem, risk: RiskFn): Result<seq<PortEntry>, ParseError> {
    match Find(e.children, "ports")
    case None => Ok([])
    case Some(ps) => ParsePorts(FindAll(ps.children, "port"), risk)
  }

  /** What the parser guarantees of every host it keeps. */
  predicate WellFormedHost(h: HostEntry, risk: RiskFn) {
    && h.status == "up"
    && (forall k :: 0 <= k < |h.ports| ==> WellFormedPort(h.ports[k], risk))
    && h.riskScore == Some(SumPortRisk(h.ports))
  }

  /** _parse_host: `None` unless the host is up. */
  function ParseHost(e: Elem, risk: RiskFn): (r: Result<Option<HostEntry>, ParseError>)
    ensures r == Ok(None) <==> !IsUp(e)
    ensures r.Err? <==> IsUp(e) && PortsOf(e, risk).Err?
    ensures r.Ok? && r.value.Some? ==> WellFormedHost(r.value.value, risk)
  {
    if !IsUp(e) then Ok(None)
    else
      var ports :- PortsOf(e, risk);
      Ok(Some(HostOf(e, ports)))
  }

  /** The host entry built around its parsed ports, scored by their sum. */
  function HostOf(e: Elem, ports: seq<PortEntry>): (r: HostEntry)
    ensures r.status == "up" && r.ports == ports && r.os == OsOf(e)
    ensures |r.addresses| == |FindAll(e.children, "address")|
    ensures r.riskScore == Some(SumPortRisk(ports))
  {
    HostEntry("up", AddressesOf(FindAll(e.children, "address")), HostnamesOf(e), ports, OsOf(e), Some(SumPortRisk(ports)))
  }

  // ---------------------------------------------------------------------------
  // _parse_xml_output
  // ---------------------------------------------------------------------------

  /** The end event of an element tagged `host`, with its depth below the root. */
  datatype HostEvent = HostEvent(elem: Elem, depth: nat)

  /** The `host` end events of a subtree in document (post-)order. */
  function HostEvents(e: Elem, depth: nat): seq<HostEvent>
    decreases e
  {
    ChildHostEvents(e.children, depth + 1) + (if e.tag == "host" then [HostEvent(e, depth)] else [])
  }

  function ChildHostEvents(cs: seq<Elem>, depth: nat): seq<HostEvent>
    decreases cs
  {
    if |cs| == 0 then [] else HostEvents(cs[0], depth) + ChildHostEvents(cs[1..], depth)
  }

  /** The children left after `root.remove` of each child with that tag: the
      others, in their order. */
  function WithoutTag(cs: seq<Elem>, tag: string): (r: seq<Elem>)
    ensures forall k :: 0 <= k < |r| ==> r[k].tag != tag
    ensures IsSubsequence(r, cs)
    ensures forall x :: x in r <==> x in cs && x.tag != tag
  {
    if |cs| == 0 then []
    else
      var rest := WithoutTag(cs[1..], tag);
      assert forall x :: x in cs <==> x == cs[0] || x in cs[1..];
      if cs[0].tag == tag then rest
      else
        var r := [cs[0]] + rest;
        assert r[1..] == rest;
        r
  }

  /** The handling of each host end event: parse the host, then remove it from
      the root, which raises unless it is a direct child of the root. When the
      root itself is the host, its host children have been removed already. */
  function CollectHosts(events: seq<HostEvent>, root: Elem, risk: RiskFn): (r: Result<seq<HostEntry>, ParseError>)
    ensures r.Ok? ==> forall k :: 0 <= k < |events| ==> events[k].depth == 1
    ensures r.Ok? ==> |r.value| <= |events|
    ensures r.Ok? ==> forall k :: 0 <= k < |r.value| ==> WellFormedHost(r.value[k], risk)
  {
    if |events| == 0 then Ok([])
    else
      var ev := events[0];
      var elem := if ev.depth == 0 then root.(children := WithoutTag(root.children, "host")) else ev.elem;
      var h :- ParseHost(elem, risk);
      if ev.depth != 1 then Err(HostOutsideRoot)
      else
        var rest :- CollectHosts(events[1..], root, risk);
        Ok((if h.Some? then [h.value] else []) + rest)
  }

  /** What the parser guarantees of every result. */
  predicate WellFormedScan(r: ScanResult, risk: RiskFn) {
    && (forall k :: 0 <= k < |r.hosts| ==> WellFormedHost(r.hosts[k], risk))
    && r.totalRisk == Some(SumHostRisk(r.hosts))
  }

  /** _parse_xml_output over the document's root element, with the target
      label and the formatted scan time supplied by the caller. */
  function ParseScan(root: Elem, target: string, scanTime: string, risk: RiskFn): (r: Result<ScanResult, ParseError>)
    ensures r.Ok? ==> WellFormedScan(r.value, risk)
    ensures r.Ok? ==> r.value.target == target && r.value.scanTime == scanTime
    ensures r.Ok? ==> r.value.scannerVersion == Get(root, "version", "Unknown")
  {
    var hosts :- CollectHosts(HostEvents(root, 0), root, risk);
    Ok(ScanResult(target, scanTime, Get(root, "version", "Unknown"), hosts, Some(SumHostRisk(hosts))))
  }

  /** The target label parse_xml_file records: `offline` when none is given. */
  function TargetLabel(target: string): string {
    if target == "" then "offline" else target
  }

  /** parse_xml_file after the document is read: the target label defaults
      to `offline`, and the stored result is `to_dict()` of the parsed scan,
      which holds every host and port but none of the risk scores. */
  function ParseXmlFile(root: Elem, target: string, scanTime: string, risk: RiskFn): (r: Result<ScanRecord, ParseError>)
    ensures r.Ok? <==> ParseScan(root, target, scanTime, risk).Ok?
    ensures r.Ok? ==> r.value.target == TargetLabel(target)
    ensures r.Ok? ==> r.value.scanTime == scanTime && r.value.scannerVersion == Get(root, "version", "Unknown")
    ensures r.Ok? ==> |r.value.hosts| == |ParseScan(root, target, scanTime, risk).value.hosts|
    ensures r.Ok? ==> r.value.totalRisk.None? && forall i :: 0 <= i < |r.value.hosts| ==> r.value.hosts[i].riskScore.None?
    ensures r.Ok? ==> FromDict(r.value) == Some(StripRisk(ParseScan(root, TargetLabel(target), scanTime, risk).value))
  {
    var result :- ParseScan(root, TargetLabel(target), scanTime, risk);
    ToDictDropsRisk(result);
    Ok(ToDict(result))
  }

  /** parse_xml_file storing the dictionary its tests and reports read: the
      same, with the port, host and total risk scores carried along. */
  function ParseXmlFileCorrected(root: Elem, target: string, scanTime: string, risk: RiskFn): (r: Result<ScanRecord, ParseError>)
    ensures r.Ok? <==> ParseScan(root, target, scanTime, risk).Ok?
    ensures r.Ok? ==> r.value.target == TargetLabel(target)
    ensures r.Ok? ==> r.value.totalRisk == ParseScan(root, target, scanTime, risk).value.totalRisk
    ensures r.Ok? ==> FromDict(r.value) == Some(ParseScan(root, TargetLabel(target), scanTime, risk).value)
  {
    var result :- ParseScan(root, TargetLabel(target), scanTime, risk);
    ToDictWithRiskRoundTrip(result);
    Ok(ToDictWithRisk(result))
  }

  // ---------------------------------------------------------------------------
  // Which documents parse, and to what
  // ---------------------------------------------------------------------------

  /** No element of the subtree is tagged `host`. */
  predicate HostFree(e: Elem)
    decreases e
  {
    e.tag != "host" && forall k :: 0 <= k < |e.children| ==> HostFree(e.children[k])
  }

  /** Nothing below `e` is tagged `host`. */
  predicate HostFreeBelow(e: Elem) {
    forall k :: 0 <= k < |e.children| ==> HostFree(e.children[k])
  }

  /** The shape under which `root.remove` never raises: hosts are direct
      children of a root that is not itself a host, and hold no hosts. */
  predicate WellShaped(root: Elem) {
    root.tag != "host" && forall k :: 0 <= k < |root.children| ==> HostFreeBelow(root.children[k])
  }

  /** The host children, each parsed in document order, the ones not up skipped. */
  function ParseHostList(cs: seq<Elem>, risk: RiskFn): (r: Result<seq<HostEntry>, ParseError>)
    ensures r.Err? <==> exists k :: 0 <= k < |cs| && IsUp(cs[k]) && PortsOf(cs[k], risk).Err?
    ensures r.Ok? ==> forall k :: 0 <= k < |r.value| ==> WellFormedHost(r.value[k], risk)
  {
    var r := KeepParsed(cs, e => ParseHost(e, risk));
    if r.Ok? then
      KeepParsedMembers(cs, e => ParseHost(e, risk));
      assert forall k :: 0 <= k < |r.value| ==> r.value[k] in r.value;
      r
    else r
  }

  function AsEvents(cs: seq<Elem>, depth: nat): (r: seq<HostEvent>)
    ensures |r| == |cs|
    ensures forall k :: 0 <= k < |cs| ==> r[k] == HostEvent(cs[k], depth)
  {
    if |cs| == 0 then [] else [HostEvent(cs[0], depth)] + AsEvents(cs[1..], depth)
  }

  lemma {:induction false} HostFreeHasNoEvents(e: Elem, depth: nat)
    requires HostFree(e)
    ensures HostEvents(e, depth) == []
    decreases e, 1
  {
    HostFreeChildrenHaveNoEvents(e.children, depth + 1);
  }

  lemma {:induction false} HostFreeChildrenHaveNoEvents(cs: seq<Elem>, depth: nat)
    requires forall k :: 0 <= k < |cs| ==> HostFree(cs[k])
    ensures ChildHostEvents(cs, depth) == []
    decreases cs, 0
  {
    if |cs| > 0 {
      HostFreeHasNoEvents(cs[0], depth);
      HostFreeChildrenHaveNoEvents(cs[1..], depth);
    }
  }

  lemma {:induction false} WellShapedChildEvents(cs: seq<Elem>)
    requires forall k :: 0 <= k < |cs| ==> HostFreeBelow(cs[k])
    ensures ChildHostEvents(cs, 1) == AsEvents(FindAll(cs, "host"), 1)
  {
    if |cs| > 0 {
      WellShapedChildEvents(cs[1..]);
      HostFreeChildrenHaveNoEvents(cs[0].children, 2);
      assert HostEvents(cs[0], 1) == if cs[0].tag == "host" then [HostEvent(cs[0], 1)] else [];
    }
  }

  lemma {:induction false} CollectDirectHosts(cs: seq<Elem>, root: Elem, risk: RiskFn)
    requires forall k :: 0 <= k < |cs| ==> cs[k].tag == "host"
    ensures CollectHosts(AsEvents(cs, 1), root, risk) == ParseHostList(cs, risk)
  {
    if |cs| > 0 {
      CollectDirectHosts(cs[1..], root, risk);
      assert AsEvents(cs, 1)[1..] == AsEvents(cs[1..], 1);
    }
  }

  /** For a well-shaped document the result holds exactly the host children
      of the root that are up, in document order, under the caller's label. */
  lemma ParseScanKeepsUpHosts(root: Elem, target: string, scanTime: string, risk: RiskFn)
    requires WellShaped(root)
    ensures ParseScan(root, target, scanTime, risk) ==
      match ParseHostList(FindAll(root.children, "host"), risk)
      case Err(e) => Err(e)
      case Ok(hs) => Ok(ScanResult(target, scanTime, Get(root, "version", "Unknown"), hs, Some(SumHostRisk(hs))))
  {
    WellShapedChildEvents(root.children);
    assert HostEvents(root, 0) == AsEvents(FindAll(root.children, "host"), 1);
    CollectDirectHosts(FindAll(root.children, "host"), root, risk);
  }

  /** A document without host elements gives an empty result with total risk 0. */
  lemma EmptyScan(root: Elem, target: string, scanTime: string, risk: RiskFn)
    requires HostFree(root)
    ensures ParseScan(root, target, scanTime, risk) ==
      Ok(ScanResult(target, scanTime, Get(root, "version", "Unknown"), [], Some(0)))
  {
    HostFreeHasNoEvents(root, 0);
  }

  lemma {:induction false} EventsAreDeep(e: Elem, depth: nat)
    ensures forall k :: 0 <= k < |HostEvents(e, depth)| ==> HostEvents(e, depth)[k].depth >= depth
    decreases e, 1
  {
    ChildEventsAreDeep(e.children, depth + 1);
  }

  lemma {:induction false} ChildEventsAreDeep(cs: seq<Elem>, depth: nat)
    ensures forall k :: 0 <= k < |ChildHostEvents(cs, depth)| ==> ChildHostEvents(cs, depth)[k].depth >= depth
    decreases cs, 0
  {
    if |cs| > 0 {
      EventsAreDeep(cs[0], depth);
      ChildEventsAreDeep(cs[1..], depth);
    }
  }

  lemma {:induction false} HostfulHasEvent(e: Elem, depth: nat)
    requires !HostFree(e)
    ensures |HostEvents(e, depth)| > 0
    decreases e, 1
  {
    if e.tag != "host" {
      var k :| 0 <= k < |e.children| && !HostFree(e.children[k]);
      ChildHostfulHasEvent(e.children, k, depth + 1);
    }
  }

  lemma {:induction false} ChildHostfulHasEvent(cs: seq<Elem>, k: int, depth: nat)
    requires 0 <= k < |cs| && !HostFree(cs[k])
    ensures |ChildHostEvents(cs, depth)| > 0
    decreases cs, 0
  {
    if k == 0 {
      HostfulHasEvent(cs[0], depth);
    } else {
      ChildHostfulHasEvent(cs[1..], k - 1, depth);
    }
  }

  lemma {:induction false} ChildEventsInclude(cs: seq<Elem>, k: int, depth: nat, ev: HostEvent)
    requires 0 <= k < |cs| && ev in HostEvents(cs[k], depth)
    ensures ev in ChildHostEvents(cs, depth)
    decreases cs
  {
    if k > 0 {
      ChildEventsInclude(cs[1..], k - 1, depth, ev);
    }
  }

  lemma {:induction false} CollectRejectsDeepEvent(events: seq<HostEvent>, root: Elem, risk: RiskFn, ev: HostEvent)
    requires ev in events && ev.depth != 1
    ensures CollectHosts(events, root, risk).Err?
  {
  }

  /** A host that is the root, or that sits below another element than the
      root, makes `root.remove` raise: such documents never parse. */
  lemma ParseScanRejectsMisplacedHosts(root: Elem, target: string, scanTime: string, risk: RiskFn)
    requires !WellShaped(root)
    ensures ParseScan(root, target, scanTime, risk).Err?
  {
    var events := HostEvents(root, 0);
    if root.tag == "host" {
      assert events[|events| - 1] == HostEvent(root, 0);
      CollectRejectsDeepEvent(events, root, risk, HostEvent(root, 0));
    } else {
      var k :| 0 <= k < |root.children| && !HostFreeBelow(root.children[k]);
      var c := root.children[k];
      var j :| 0 <= j < |c.children| && !HostFree(c.children[j]);
      HostfulHasEvent(c.children[j], 2);
      EventsAreDeep(c.children[j], 2);
      var ev := HostEvents(c.children[j], 2)[0];
      ChildEventsInclude(c.children, j, 2, ev);
      assert ev in HostEvents(c, 1);
      ChildEventsInclude(root.children, k, 1, ev);
      assert ev in events;
      CollectRejectsDeepEvent(events, root, risk, ev);
    }
  }

  // ---------------------------------------------------------------------------
  // get_summary
  // ---------------------------------------------------------------------------

  datatype Summary =
    | NoResults // {'error': 'No scan results available'}
    | Summary(target: string, scanTime: string, totalHosts: nat, totalOpenPorts: nat, potentialVulnerabilities: nat)

  /** A script whose lower-cased id contains "vuln". */
  predicate IsVulnScript(f: FindingRecord) {
    Contains(Lower(f.id), "vuln")
  }

  function CountVulnScripts(fs: seq<FindingRecord>): (n: nat)
    ensures n <= |fs|
  {
    if |fs| == 0 then 0 else (if IsVulnScript(fs[0]) then 1 else 0) + CountVulnScripts(fs[1..])
  }

  function CountVulnInPorts(ps: seq<PortRecord>): nat {
    if |ps| == 0 then 0 else CountVulnScripts(ps[0].scripts) + CountVulnInPorts(ps[1..])
  }

  function OpenPortCount(hosts: seq<HostRecord>): nat {
    if |hosts| == 0 then 0 else |hosts[0].ports| + OpenPortCount(hosts[1..])
  }

  /** get_summary over the stored dictionary; `None` when no scan has been stored. */
  function GetSummary(stored: Option<ScanRecord>): (s: Summary)
    ensures s.NoResults? <==> stored.None?
    ensures s.Summary? ==> s.target == stored.value.target && s.scanTime == stored.value.scanTime
    ensures s.Summary? ==> s.totalHosts == |stored.value.hosts|
  {
    match stored
    case None => NoResults
    case Some(d) =>
      Summary(d.target, d.scanTime, |d.hosts|, OpenPortCount(d.hosts), CountVulnInPorts(AllPorts(d.hosts)))
  }

  lemma {:induction false} OpenPortCountIsAllPorts(hosts: seq<HostRecord>)
    ensures OpenPortCount(hosts) == |AllPorts(hosts)|
  {
    if |hosts| > 0 {
      OpenPortCountIsAllPorts(hosts[1..]);
    }
  }

  /** The summary of a parsed scan counts its up hosts and their open ports,
      and never more vulnerabilities than there are findings. */
  lemma SummaryOfParsedScan(r: ScanResult)
    ensures GetSummary(Some(ToDict(r))).totalHosts == |r.hosts|
    ensures GetSummary(Some(ToDict(r))).totalOpenPorts == |AllPorts(ToDict(r).hosts)|
    ensures GetSummary(Some(ToDict(r))).potentialVulnerabilities <= |AllFindings(AllPorts(ToDict(r).hosts))|
  {
    OpenPortCountIsAllPorts(ToDict(r).hosts);
    VulnCountBounded(AllPorts(ToDict(r).hosts));
  }

  /** Every finding of every port, port by port. */
  function AllFindings(ps: seq<PortRecord>): seq<FindingRecord> {
    if |ps| == 0 then [] else ps[0].scripts + AllFindings(ps[1..])
  }

  lemma {:induction false} VulnCountBounded(ps: seq<PortRecord>)
    ensures CountVulnInPorts(ps) <= |AllFindings(ps)|
  {
    if |ps| > 0 {
      VulnCountBounded(ps[1..]);
    }
  }
}
