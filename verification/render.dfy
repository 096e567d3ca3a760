/** The inverse of the scan parser: every result the parser can produce is
    the parse of an element tree, which this module writes out, and parsing
    that tree gives the result back. */
module Render {
  import opened Wrappers
  import opened Text
  import opened Xml
  import opened Models
  import opened Scanner

  function Leaf(tag: string, attrs: map<string, string>): Elem {
    Elem(tag, attrs, [])
  }

  function ScriptElem(f: ScriptFinding): Elem {
    Leaf("script", map["id" := f.id, "output" := f.output])
  }

  function ScriptElems(fs: seq<ScriptFinding>): (r: seq<Elem>)
    ensures |r| == |fs|
    ensures forall k :: 0 <= k < |r| ==> r[k] == ScriptElem(fs[k])
  {
    if |fs| == 0 then [] else [ScriptElem(fs[0])] + ScriptElems(fs[1..])
  }

  function ServiceElems(s: Option<Service>): (r: seq<Elem>)
    ensures |r| <= 1
  {
    match s
    case None => []
    case Some(v) => [Leaf("service", map["name" := v.name, "product" := v.product, "version" := v.version, "extrainfo" := v.extrainfo])]
  }

  function PortChildren(p: PortEntry): seq<Elem> {
    [Leaf("state", map["state" := p.state])] + ServiceElems(p.service) + ScriptElems(p.scripts)
  }

  function PortElem(p: PortEntry): Elem {
    Elem("port", map["protocol" := p.protocol, "portid" := IntToString(p.port)], PortChildren(p))
  }

  function PortElems(ps: seq<PortEntry>): (r: seq<Elem>)
    ensures |r| == |ps|
    ensures forall k :: 0 <= k < |r| ==> r[k] == PortElem(ps[k])
  {
    if |ps| == 0 then [] else [PortElem(ps[0])] + PortElems(ps[1..])
  }

  function AddressElems(as_: seq<Address>): (r: seq<Elem>)
    ensures |r| == |as_|
    ensures forall k :: 0 <= k < |r| ==> r[k] == Leaf("address", map["addrtype" := as_[k].addressType, "addr" := as_[k].address])
  {
    if |as_| == 0 then []
    else [Leaf("address", map["addrtype" := as_[0].addressType, "addr" := as_[0].address])] + AddressElems(as_[1..])
  }

  function HostnameElems(ns: seq<string>): (r: seq<Elem>)
    ensures |r| == |ns|
    ensures forall k :: 0 <= k < |r| ==> r[k] == Leaf("hostname", map["name" := ns[k]])
  {
    if |ns| == 0 then [] else [Leaf("hostname", map["name" := ns[0]])] + HostnameElems(ns[1..])
  }

  function OsElems(os: Option<OsMatch>): (r: seq<Elem>)
    ensures |r| <= 1
  {
    match os
    case None => []
    case Some(m) => [Elem("os", map[], [Leaf("osmatch", map["name" := m.name, "accuracy" := m.accuracy])])]
  }

  /** The children of a host after its status: addresses, then hostnames,
      ports and operating system. */
  function HostBody(h: HostEntry): seq<Elem> {
    AddressElems(h.addresses) + [Elem("hostnames", map[], HostnameElems(h.hostnames)), Elem("ports", map[], PortElems(h.ports))] + OsElems(h.os)
  }

  function HostElem(h: HostEntry): Elem {
    Elem("host", map[], [Leaf("status", map["state" := h.status])] + HostBody(h))
  }

  function HostElems(hs: seq<HostEntry>): (r: seq<Elem>)
    ensures |r| == |hs|
    ensures forall k :: 0 <= k < |r| ==> r[k] == HostElem(hs[k])
  {
    if |hs| == 0 then [] else [HostElem(hs[0])] + HostElems(hs[1..])
  }

  /** The document root of a result. */
  function ScanElem(r: ScanResult): Elem {
    Elem("nmaprun", map["version" := r.scannerVersion], HostElems(r.hosts))
  }

  // ---------------------------------------------------------------------------
  // Ports
  // ---------------------------------------------------------------------------

  lemma {:induction false} ScriptsRoundTrip(fs: seq<ScriptFinding>)
    requires forall k :: 0 <= k < |fs| ==> WellFormedFinding(fs[k])
    ensures ScriptsOf(ScriptElems(fs)) == fs
  {
    if |fs| > 0 {
      ScriptsRoundTrip(fs[1..]);
      assert ScriptElems(fs)[1..] == ScriptElems(fs[1..]);
    }
  }

  lemma PortStateQuery(p: PortEntry)
    ensures Find(PortChildren(p), "state") == Some(Leaf("state", map["state" := p.state]))
  {
  }

  lemma PortServiceQuery(p: PortEntry)
    ensures Find(PortChildren(p), "service") == if p.service.Some? then Some(ServiceElems(p.service)[0]) else None
  {
    var state := [Leaf("state", map["state" := p.state])];
    var svc := ServiceElems(p.service);
    var scripts := ScriptElems(p.scripts);
    FindAppend(state + svc, scripts, "service");
    FindAppend(state, svc, "service");
    assert Find(scripts, "service") == None;
  }

  lemma PortScriptsQuery(p: PortEntry)
    ensures FindAll(PortChildren(p), "script") == ScriptElems(p.scripts)
  {
    var state := [Leaf("state", map["state" := p.state])];
    var svc := ServiceElems(p.service);
    var scripts := ScriptElems(p.scripts);
    FindAllAppend(state + svc, scripts, "script");
    FindAllAppend(state, svc, "script");
    FindAllNone(state, "script");
    FindAllNone(svc, "script");
    FindAllOnly(scripts, "script");
  }

  lemma PortIdQuery(p: PortEntry)
    ensures PortIdOf(PortElem(p)) == Ok(p.port)
  {
    IntToStringRoundTrip(p.port);
  }

  lemma PortStateAttr(p: PortEntry)
    ensures IsOpen(PortElem(p)) <==> p.state == "open"
    ensures IsOpen(PortElem(p)) ==> Get(Find(PortElem(p).children, "state").value, "state", "") == p.state
  {
    PortStateQuery(p);
  }

  lemma PortServiceAttr(p: PortEntry)
    ensures (match Find(PortElem(p).children, "service") case None => None case Some(s) => Some(ServiceOf(s))) == p.service
  {
    PortServiceQuery(p);
  }

  lemma PortScriptsAttr(p: PortEntry)
    requires forall k :: 0 <= k < |p.scripts| ==> WellFormedFinding(p.scripts[k])
    ensures ScriptsOf(FindAll(PortElem(p).children, "script")) == p.scripts
  {
    PortScriptsQuery(p);
    ScriptsRoundTrip(p.scripts);
  }

  /** The entry the parser first builds from a written-out port is the port
      with its level and score still unset. */
  lemma PortEntryQuery(p: PortEntry)
    requires p.state == "open"
    requires forall k :: 0 <= k < |p.scripts| ==> WellFormedFinding(p.scripts[k])
    ensures IsOpen(PortElem(p))
    ensures EntryOf(PortElem(p), p.port) == p.(severity := Info, riskScore := None)
  {
    PortStateAttr(p);
    PortServiceAttr(p);
    PortScriptsAttr(p);
  }

  lemma PortScoredQuery(p: PortEntry, risk: RiskFn)
    requires WellFormedPort(p, risk)
    ensures Scored(p.(severity := Info, riskScore := None), risk) == p
  {
    PortSeverityIgnoresIds(p.(severity := Info, riskScore := None), p);
  }

  /** A port the parser produced is given back by parsing its element. */
  lemma PortRoundTrip(p: PortEntry, risk: RiskFn)
    requires WellFormedPort(p, risk)
    ensures ParsePort(PortElem(p), risk) == Ok(Some(p))
  {
    PortEntryQuery(p);
    PortIdQuery(p);
    PortScoredQuery(p, risk);
  }

  lemma PortsRoundTrip(ps: seq<PortEntry>, risk: RiskFn)
    requires forall k :: 0 <= k < |ps| ==> WellFormedPort(ps[k], risk)
    ensures ParsePorts(PortElems(ps), risk) == Ok(ps)
  {
    var es := PortElems(ps);
    var parse := e => ParsePort(e, risk);
    forall k | 0 <= k < |es| ensures parse(es[k]) == Ok(Some(ps[k])) {
      PortRoundTrip(ps[k], risk);
    }
    KeepParsedAll(es, ps, parse);
  }

  // ---------------------------------------------------------------------------
  // Hosts
  // ---------------------------------------------------------------------------

  lemma {:induction false} AddressesRoundTrip(as_: seq<Address>)
    ensures AddressesOf(AddressElems(as_)) == as_
  {
    if |as_| > 0 {
      AddressesRoundTrip(as_[1..]);
      assert AddressElems(as_)[1..] == AddressElems(as_[1..]);
    }
  }

  lemma {:induction false} HostnamesRoundTrip(ns: seq<string>)
    ensures NamesOf(HostnameElems(ns)) == ns
  {
    if |ns| > 0 {
      HostnamesRoundTrip(ns[1..]);
      assert HostnameElems(ns)[1..] == HostnameElems(ns[1..]);
    }
  }

  function HostMiddle(h: HostEntry): seq<Elem> {
    [Elem("hostnames", map[], HostnameElems(h.hostnames)), Elem("ports", map[], PortElems(h.ports))]
  }

  lemma HostBodySplit(h: HostEntry)
    ensures HostBody(h) == AddressElems(h.addresses) + HostMiddle(h) + OsElems(h.os)
  {
  }

  lemma HostAddressQuery(h: HostEntry)
    ensures FindAll(HostBody(h), "address") == AddressElems(h.addresses)
  {
    var addrs := AddressElems(h.addresses);
    HostBodySplit(h);
    FindAllAppend(addrs + HostMiddle(h), OsElems(h.os), "address");
    FindAllAppend(addrs, HostMiddle(h), "address");
    FindAllOnly(addrs, "address");
    FindAllNone(HostMiddle(h), "address");
    FindAllNone(OsElems(h.os), "address");
  }

  lemma HostHostnamesQuery(h: HostEntry)
    ensures Find(HostBody(h), "hostnames") == Some(HostMiddle(h)[0])
  {
    var addrs := AddressElems(h.addresses);
    HostBodySplit(h);
    FindAppend(addrs + HostMiddle(h), OsElems(h.os), "hostnames");
    FindAppend(addrs, HostMiddle(h), "hostnames");
    assert Find(addrs, "hostnames") == None;
  }

  lemma HostPortsQuery(h: HostEntry)
    ensures Find(HostBody(h), "ports") == Some(HostMiddle(h)[1])
  {
    var addrs := AddressElems(h.addresses);
    HostBodySplit(h);
    FindAppend(addrs + HostMiddle(h), OsElems(h.os), "ports");
    FindAppend(addrs, HostMiddle(h), "ports");
    assert Find(addrs, "ports") == None;
  }

  lemma HostOsQuery(h: HostEntry)
    ensures Find(HostBody(h), "os") == if h.os.Some? then Some(OsElems(h.os)[0]) else None
  {
    var addrs := AddressElems(h.addresses);
    HostBodySplit(h);
    FindAppend(addrs + HostMiddle(h), OsElems(h.os), "os");
    FindAppend(addrs, HostMiddle(h), "os");
    assert Find(addrs, "os") == None;
    assert Find(HostMiddle(h), "os") == None;
  }

  /** Below the status, a host's queries see only its body. */
  lemma HostChildrenAfterStatus(h: HostEntry, tag: string)
    requires tag != "status"
    ensures Find(HostElem(h).children, tag) == Find(HostBody(h), tag)
    ensures FindAll(HostElem(h).children, tag) == FindAll(HostBody(h), tag)
  {
    assert HostElem(h).children[1..] == HostBody(h);
  }

  lemma HostUpAttr(h: HostEntry)
    ensures IsUp(HostElem(h)) <==> h.status == "up"
  {
    assert HostElem(h).children[0] == Leaf("status", map["state" := h.status]);
  }

  lemma HostAddressesAttr(h: HostEntry)
    ensures AddressesOf(FindAll(HostElem(h).children, "address")) == h.addresses
  {
    HostChildrenAfterStatus(h, "address");
    HostAddressQuery(h);
    AddressesRoundTrip(h.addresses);
  }

  lemma HostnamesAttr(h: HostEntry)
    ensures HostnamesOf(HostElem(h)) == h.hostnames
  {
    HostChildrenAfterStatus(h, "hostnames");
    HostHostnamesQuery(h);
    HostnamesRoundTrip(h.hostnames);
    FindAllOnly(HostnameElems(h.hostnames), "hostname");
  }

  /** The operating-system child written for `os` reads back as `os`. */
  lemma OsRoundTrip(e: Elem, os: Option<OsMatch>)
    requires Find(e.children, "os") == if os.Some? then Some(OsElems(os)[0]) else None
    ensures OsOf(e) == os
  {
    if os.Some? {
      var m := Leaf("osmatch", map["name" := os.value.name, "accuracy" := os.value.accuracy]);
      assert OsElems(os)[0].children == [m];
      assert Get(m, "name", "Unknown") == os.value.name;
      assert Get(m, "accuracy", "0") == os.value.accuracy;
    }
  }

  lemma HostOsAttr(h: HostEntry)
    ensures OsOf(HostElem(h)) == h.os
  {
    HostChildrenAfterStatus(h, "os");
    HostOsQuery(h);
    OsRoundTrip(HostElem(h), h.os);
  }

  lemma HostPortsAttr(h: HostEntry, risk: RiskFn)
    requires forall k :: 0 <= k < |h.ports| ==> WellFormedPort(h.ports[k], risk)
    ensures PortsOf(HostElem(h), risk) == Ok(h.ports)
  {
    HostChildrenAfterStatus(h, "ports");
    HostPortsQuery(h);
    FindAllOnly(PortElems(h.ports), "port");
    PortsRoundTrip(h.ports, risk);
  }

  /** A host the parser produced is given back by parsing its element. */
  lemma HostRoundTrip(h: HostEntry, risk: RiskFn)
    requires WellFormedHost(h, risk)
    ensures ParseHost(HostElem(h), risk) == Ok(Some(h))
  {
    HostUpAttr(h);
    HostPortsAttr(h, risk);
    HostAddressesAttr(h);
    HostnamesAttr(h);
    HostOsAttr(h);
  }

  lemma HostsRoundTrip(hs: seq<HostEntry>, risk: RiskFn)
    requires forall k :: 0 <= k < |hs| ==> WellFormedHost(hs[k], risk)
    ensures ParseHostList(HostElems(hs), risk) == Ok(hs)
  {
    var es := HostElems(hs);
    var parse := e => ParseHost(e, risk);
    forall k | 0 <= k < |es| ensures parse(es[k]) == Ok(Some(hs[k])) {
      HostRoundTrip(hs[k], risk);
    }
    KeepParsedAll(es, hs, parse);
  }

  // ---------------------------------------------------------------------------
  // Documents
  // ---------------------------------------------------------------------------

  lemma {:induction false} LeavesHostFree(cs: seq<Elem>)
    requires forall k :: 0 <= k < |cs| ==> cs[k].tag != "host" && cs[k].children == []
    ensures forall k :: 0 <= k < |cs| ==> HostFree(cs[k])
  {
  }

  lemma PortElemHostFree(p: PortEntry)
    ensures HostFree(PortElem(p))
  {
    var cs := PortChildren(p);
    assert forall k :: 0 <= k < |ScriptElems(p.scripts)| ==> ScriptElems(p.scripts)[k].children == [];
    assert forall k :: 0 <= k < |cs| ==> cs[k].tag != "host" && cs[k].children == [];
    LeavesHostFree(cs);
  }

  lemma PortElemsHostFree(ps: seq<PortEntry>)
    ensures forall k :: 0 <= k < |PortElems(ps)| ==> HostFree(PortElems(ps)[k])
  {
    forall k | 0 <= k < |ps| ensures HostFree(PortElems(ps)[k]) {
      PortElemHostFree(ps[k]);
    }
  }

  lemma HostMiddleHostFree(h: HostEntry)
    ensures forall k :: 0 <= k < |HostMiddle(h)| ==> HostFree(HostMiddle(h)[k])
  {
    PortElemsHostFree(h.ports);
    LeavesHostFree(HostnameElems(h.hostnames));
  }

  lemma HostElemHostFreeBelow(h: HostEntry)
    ensures HostFreeBelow(HostElem(h))
  {
    var status := [Leaf("status", map["state" := h.status])];
    var addrs := AddressElems(h.addresses);
    var os := OsElems(h.os);
    HostBodySplit(h);
    HostMiddleHostFree(h);
    LeavesHostFree(addrs);
    if h.os.Some? {
      LeavesHostFree(os[0].children);
    }
    var cs := HostElem(h).children;
    assert cs == status + addrs + HostMiddle(h) + os;
    forall k | 0 <= k < |cs| ensures HostFree(cs[k]) {
      if k == 0 {
      } else if k < 1 + |addrs| {
        assert cs[k] == addrs[k - 1];
      } else if k < 3 + |addrs| {
        assert cs[k] == HostMiddle(h)[k - 1 - |addrs|];
      } else {
        assert cs[k] == os[k - 3 - |addrs|];
      }
    }
  }

  lemma ScanElemWellShaped(r: ScanResult)
    ensures WellShaped(ScanElem(r))
  {
    forall k | 0 <= k < |r.hosts| ensures HostFreeBelow(HostElems(r.hosts)[k]) {
      HostElemHostFreeBelow(r.hosts[k]);
    }
  }

  /** Every result the parser can produce is the parse of its own document:
      parsing is the left inverse of writing out. */
  lemma ScanRoundTrip(r: ScanResult, risk: RiskFn)
    requires WellFormedScan(r, risk)
    ensures ParseScan(ScanElem(r), r.target, r.scanTime, risk) == Ok(r)
  {
    var root := ScanElem(r);
    ScanElemWellShaped(r);
    ParseScanKeepsUpHosts(root, r.target, r.scanTime, risk);
    FindAllOnly(root.children, "host");
    HostsRoundTrip(r.hosts, risk);
  }
}
