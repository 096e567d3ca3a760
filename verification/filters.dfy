/** The report filters: the comma-separated option lists and the per-port
    filter applied to a scan in its dictionary form. */
module Filters {
  import opened Wrappers
  import opened Text
  import opened Seqs
  import opened Models
  import opened Scanner

  // ---------------------------------------------------------------------------
  // parse_csv_set
  // ---------------------------------------------------------------------------

  /** An item as parse_csv_set returns it: non-empty, lower-case, stripped,
      with no comma in it. */
  predicate IsCsvItem(x: string) {
    x != "" && IsLower(x) && Strip(x) == x && ',' !in x
  }

  /** The items of a comma-separated list: each piece stripped and lower-cased,
      the blank pieces dropped, duplicates merged. */
  function ParseCsvSet(value: string): (r: set<string>)
    ensures forall x :: x in r ==> IsCsvItem(x)
  {
    var pieces := Split(value, ',');
    var r := set v | v in pieces && Strip(v) != "" :: Lower(Strip(v));
    forall x | x in r ensures IsCsvItem(x) {
      var v :| v in pieces && Strip(v) != "" && x == Lower(Strip(v));
      NormalizedIsItem(v);
    }
    r
  }

  lemma NormalizedIsItem(v: string)
    requires ',' !in v && Strip(v) != ""
    ensures IsCsvItem(Lower(Strip(v)))
  {
    var t := Strip(v);
    LowerIsLower(t);
    StripKeepsOut(v, ',');
    LowerKeepsOut(t, ',');
    LowerKeepsUnpadded(t);
    StripUnpadded(Lower(t));
  }

  lemma StripKeepsOut(v: string, c: char)
    requires c !in v
    ensures c !in Strip(v)
  {
    var t := Strip(v);
    forall k | 0 <= k < |t| ensures t[k] != c {
      assert t[k] == v[LeadingSpaces(v) + k];
    }
  }

  lemma LowerKeepsOut(t: string, c: char)
    requires c !in t && !('A' <= c <= 'Z') && !('a' <= c <= 'z')
    ensures c !in Lower(t)
  {
    var x := Lower(t);
    forall k | 0 <= k < |x| ensures x[k] != c {
      assert x[k] == LowerChar(t[k]);
      assert t[k] != c;
    }
  }

  lemma LowerKeepsUnpadded(t: string)
    requires t != [] && !IsSpace(t[0]) && !IsSpace(t[|t| - 1])
    ensures !IsSpace(Lower(t)[0]) && !IsSpace(Lower(t)[|t| - 1])
  {
  }

  /** Normalising an item leaves it alone. */
  lemma ItemIsNormalized(x: string)
    requires IsCsvItem(x)
    ensures Lower(Strip(x)) == x
  {
    LowerIsLower(x);
  }

  /** An empty option lists nothing. */
  lemma CsvEmpty()
    ensures ParseCsvSet("") == {}
  {
    assert Split("", ',') == [""];
  }

  lemma CsvOfItems(value: string, items: seq<string>)
    requires Split(value, ',') == items
    requires forall k :: 0 <= k < |items| ==> IsCsvItem(items[k])
    ensures ParseCsvSet(value) == set x | x in items
  {
    ItemsAreParsed(value, items);
    ParsedAreItems(value, items);
  }

  lemma ItemsAreParsed(value: string, items: seq<string>)
    requires Split(value, ',') == items
    requires forall k :: 0 <= k < |items| ==> IsCsvItem(items[k])
    ensures forall x :: x in items ==> x in ParseCsvSet(value)
  {
    forall x | x in items ensures x in ParseCsvSet(value) {
      ItemIsNormalized(x);
    }
  }

  lemma ParsedAreItems(value: string, items: seq<string>)
    requires Split(value, ',') == items
    requires forall k :: 0 <= k < |items| ==> IsCsvItem(items[k])
    ensures forall x :: x in ParseCsvSet(value) ==> x in items
  {
    forall x | x in ParseCsvSet(value) ensures x in items {
      var v :| v in items && Strip(v) != "" && x == Lower(Strip(v));
      ItemIsNormalized(v);
    }
  }

  /** parse_csv_set inverts `','.join`: the items written out with commas are
      read back as the set of those items. */
  lemma CsvRoundTrip(items: seq<string>)
    requires forall k :: 0 <= k < |items| ==> IsCsvItem(items[k])
    ensures ParseCsvSet(Join(items, ',')) == set x | x in items
  {
    if |items| == 0 {
      CsvEmpty();
    } else {
      forall k | 0 <= k < |items| ensures ',' !in items[k] {
      }
      SplitJoin(items, ',');
      CsvOfItems(Join(items, ','), items);
    }
  }

  /** parse_csv_set on any list written with commas: each piece is stripped
      and lower-cased, and the blank pieces are dropped. */
  lemma CsvOfPieces(pieces: seq<string>)
    requires |pieces| > 0
    requires forall k :: 0 <= k < |pieces| ==> ',' !in pieces[k]
    ensures ParseCsvSet(Join(pieces, ',')) ==
      set k | 0 <= k < |pieces| && Strip(pieces[k]) != "" :: Lower(Strip(pieces[k]))
  {
    SplitJoin(pieces, ',');
    var want := set k | 0 <= k < |pieces| && Strip(pieces[k]) != "" :: Lower(Strip(pieces[k]));
    forall x | x in ParseCsvSet(Join(pieces, ',')) ensures x in want {
      var v :| v in pieces && Strip(v) != "" && x == Lower(Strip(v));
      var k :| 0 <= k < |pieces| && pieces[k] == v;
    }
    forall x | x in want ensures x in ParseCsvSet(Join(pieces, ',')) {
      var k :| 0 <= k < |pieces| && Strip(pieces[k]) != "" && x == Lower(Strip(pieces[k]));
      assert pieces[k] in pieces;
    }
  }

  // ---------------------------------------------------------------------------
  // apply_filters
  // ---------------------------------------------------------------------------

  /** The options of apply_filters; an empty string stands for `None`. */
  datatype FilterOptions = FilterOptions(
    minSeverity: string,
    excludePorts: string,
    excludeServices: string,
    onlyUncommonPorts: bool)

  const DefaultOptions := FilterOptions("", "", "", false)

  /** The rank a severity name stands for: `info` when unset, 0 for an unknown name. */
  function LevelOf(name: string): (r: nat)
    ensures r <= Rank(Critical)
  {
    OrderOf(SeverityKey(name))
  }

  /** The rank a port must reach to be kept. */
  function Threshold(o: FilterOptions): nat {
    LevelOf(o.minSeverity)
  }

  /** The excluded port numbers: the list items `int()` accepts; the others are skipped. */
  function ExcludedPorts(o: FilterOptions): (r: set<int>)
    ensures o.excludePorts == "" ==> r == {}
    ensures forall n :: n in r <==> exists p :: p in ParseCsvSet(o.excludePorts) && ParseInt(p) == Some(n)
  {
    CsvEmpty();
    if o.excludePorts == "" then {}
    else set p | p in ParseCsvSet(o.excludePorts) && ParseInt(p).Some? :: ParseInt(p).value
  }

  function ExcludedServices(o: FilterOptions): set<string> {
    if o.excludeServices == "" then {} else ParseCsvSet(o.excludeServices)
  }

  /** The port number as an integer; -1 where `int()` raises. */
  function PortNumberValue(n: PortNumber): int {
    match n
    case Known(v) => v
    case Unparsable => -1
  }

  /** The lower-cased service name; empty when the port has no service. */
  function ServiceKey(p: PortRecord): (r: string)
    ensures IsLower(r)
    ensures p.service.None? ==> r == ""
  {
    if p.service.Some? then
      LowerIsLower(p.service.value.name);
      Lower(p.service.value.name)
    else ""
  }

  predicate PortExcluded(o: FilterOptions, p: PortRecord) {
    PortNumberValue(p.port) in ExcludedPorts(o)
  }

  predicate ServiceExcluded(o: FilterOptions, p: PortRecord) {
    ServiceKey(p) != "" && ServiceKey(p) in ExcludedServices(o)
  }

  predicate CommonDropped(o: FilterOptions, p: PortRecord) {
    o.onlyUncommonPorts && PortNumberValue(p.port) in CommonPorts
  }

  predicate BelowThreshold(o: FilterOptions, p: PortRecord) {
    LevelOf(p.severity) < Threshold(o)
  }

  /** The four tests a port must pass, in the order they are made. */
  predicate Keeps(o: FilterOptions, p: PortRecord) {
    !PortExcluded(o, p) && !ServiceExcluded(o, p) && !CommonDropped(o, p) && !BelowThreshold(o, p)
  }

  /** One host's port list after filtering: the ports that pass, in their
      order, each one as many times as it occurred. */
  function FilterPorts(o: FilterOptions, ps: seq<PortRecord>): (r: seq<PortRecord>)
    ensures IsSubsequence(r, ps)
    ensures forall p :: p in r <==> p in ps && Keeps(o, p)
  {
    if |ps| == 0 then []
    else
      var rest := FilterPorts(o, ps[1..]);
      assert ps == [ps[0]] + ps[1..];
      if Keeps(o, ps[0]) then [ps[0]] + rest else rest
  }

  /** Each port that passes keeps all its occurrences; the others keep none. */
  lemma {:induction false} FilterPortsCounts(o: FilterOptions, ps: seq<PortRecord>)
    ensures forall p :: multiset(FilterPorts(o, ps))[p] == if Keeps(o, p) then multiset(ps)[p] else 0
  {
    if |ps| > 0 {
      FilterPortsCounts(o, ps[1..]);
      assert ps == [ps[0]] + ps[1..];
    }
  }

  function FilterHosts(o: FilterOptions, hs: seq<HostRecord>): (r: seq<HostRecord>)
    ensures |r| == |hs|
    ensures forall k :: 0 <= k < |hs| ==> r[k] == hs[k].(ports := FilterPorts(o, hs[k].ports))
  {
    if |hs| == 0 then [] else [hs[0].(ports := FilterPorts(o, hs[0].ports))] + FilterHosts(o, hs[1..])
  }

  /** apply_filters: every host keeps the ports that pass; the hosts, their
      other fields and the recorded risk scores stay as they were. */
  function ApplyFilters(d: ScanRecord, o: FilterOptions): (r: ScanRecord)
    ensures r.target == d.target && r.scanTime == d.scanTime && r.scannerVersion == d.scannerVersion
    ensures r.totalRisk == d.totalRisk
    ensures |r.hosts| == |d.hosts|
    ensures forall k :: 0 <= k < |d.hosts| ==>
      r.hosts[k].(ports := d.hosts[k].ports) == d.hosts[k]
      && IsSubsequence(r.hosts[k].ports, d.hosts[k].ports)
      && forall p :: p in r.hosts[k].ports <==> p in d.hosts[k].ports && Keeps(o, p)
  {
    d.(hosts := FilterHosts(o, d.hosts))
  }

  // ---------------------------------------------------------------------------
  // Properties of the filter
  // ---------------------------------------------------------------------------

  /** Filtering twice with the same options removes nothing more. */
  lemma {:induction false} FilterIdempotent(o: FilterOptions, ps: seq<PortRecord>)
    ensures FilterPorts(o, FilterPorts(o, ps)) == FilterPorts(o, ps)
  {
    if |ps| > 0 {
      FilterIdempotent(o, ps[1..]);
      var rest := FilterPorts(o, ps[1..]);
      if Keeps(o, ps[0]) {
        assert ([ps[0]] + rest)[0] == ps[0];
        assert ([ps[0]] + rest)[1..] == rest;
      }
    }
  }

  /** The order in which two filters are applied does not matter. */
  lemma {:induction false} FilterCommutes(o1: FilterOptions, o2: FilterOptions, ps: seq<PortRecord>)
    ensures FilterPorts(o1, FilterPorts(o2, ps)) == FilterPorts(o2, FilterPorts(o1, ps))
  {
    if |ps| > 0 {
      FilterCommutes(o1, o2, ps[1..]);
      var x := ps[0];
      var r1 := FilterPorts(o1, ps[1..]);
      var r2 := FilterPorts(o2, ps[1..]);
      assert ([x] + r1)[0] == x && ([x] + r1)[1..] == r1;
      assert ([x] + r2)[0] == x && ([x] + r2)[1..] == r2;
    }
  }

  /** A filter at least as strict as a first one gives the same ports
      whether or not the first one was applied before it. */
  lemma {:induction false} FilterAbsorbs(weak: FilterOptions, strict: FilterOptions, ps: seq<PortRecord>)
    requires forall p :: Keeps(strict, p) ==> Keeps(weak, p)
    ensures FilterPorts(strict, FilterPorts(weak, ps)) == FilterPorts(strict, ps)
  {
    if |ps| > 0 {
      FilterAbsorbs(weak, strict, ps[1..]);
      var x := ps[0];
      var r := FilterPorts(weak, ps[1..]);
      assert ([x] + r)[0] == x && ([x] + r)[1..] == r;
    }
  }

  /** Raising the minimum severity only removes more ports. */
  lemma RaisingThresholdRefines(o: FilterOptions, higher: string, ps: seq<PortRecord>)
    requires LevelOf(o.minSeverity) <= LevelOf(higher)
    ensures FilterPorts(o.(minSeverity := higher), FilterPorts(o, ps)) == FilterPorts(o.(minSeverity := higher), ps)
  {
    FilterAbsorbs(o, o.(minSeverity := higher), ps);
  }

  lemma InfoIsLowest()
    ensures LevelOf("") == 0 && LevelOf("info") == 0
  {
    assert Lower("info") == "info";
  }

  /** With no option given, every port passes. */
  lemma DefaultsKeepEveryPort(p: PortRecord)
    ensures Keeps(DefaultOptions, p)
  {
    InfoIsLowest();
  }

  lemma {:induction false} DefaultsKeepPorts(ps: seq<PortRecord>)
    ensures FilterPorts(DefaultOptions, ps) == ps
  {
    if |ps| > 0 {
      DefaultsKeepEveryPort(ps[0]);
      DefaultsKeepPorts(ps[1..]);
      assert [ps[0]] + ps[1..] == ps;
    }
  }

  /** apply_filters with its default options changes nothing. */
  lemma DefaultsChangeNothing(d: ScanRecord)
    ensures ApplyFilters(d, DefaultOptions) == d
  {
    var r := ApplyFilters(d, DefaultOptions);
    forall k | 0 <= k < |d.hosts| ensures r.hosts[k] == d.hosts[k] {
      DefaultsKeepPorts(d.hosts[k].ports);
    }
  }

  /** A port whose severity is not one of the five names counts as `info`:
      any minimum severity above `info` removes it. */
  lemma UnknownSeverityCountsAsInfo(o: FilterOptions, p: PortRecord)
    requires SeverityKey(p.severity) !in SeverityOrder
    requires Threshold(o) > 0
    ensures !Keeps(o, p)
  {
  }

  /** A port without a service, or whose service name is empty, is never
      removed by the service list. */
  lemma NoServiceNeverExcluded(o: FilterOptions, p: PortRecord)
    requires ServiceKey(p) == ""
    ensures !ServiceExcluded(o, p)
  {
  }

  /** The port numbers written out with commas are excluded exactly. */
  lemma ExcludedPortsRoundTrip(ns: seq<int>, o: FilterOptions)
    requires o.excludePorts == Join(IntStrings(ns), ',')
    ensures ExcludedPorts(o) == set n | n in ns
  {
    var items := IntStrings(ns);
    forall k | 0 <= k < |items| ensures IsCsvItem(items[k]) {
      IntStringIsItem(ns[k]);
    }
    CsvRoundTrip(items);
    CsvEmpty();
    forall n | n in ns ensures n in ExcludedPorts(o) {
      var k :| 0 <= k < |ns| && ns[k] == n;
      IntToStringRoundTrip(n);
      assert items[k] in items;
    }
    forall n | n in ExcludedPorts(o) ensures n in ns {
      var s :| s in ParseCsvSet(o.excludePorts) && ParseInt(s).Some? && ParseInt(s).value == n;
      var k :| 0 <= k < |items| && items[k] == s;
      IntToStringRoundTrip(ns[k]);
    }
  }

  function IntStrings(ns: seq<int>): (r: seq<string>)
    ensures |r| == |ns|
    ensures forall k :: 0 <= k < |ns| ==> r[k] == IntToString(ns[k])
  {
    if |ns| == 0 then [] else [IntToString(ns[0])] + IntStrings(ns[1..])
  }

  lemma IntStringIsItem(n: int)
    ensures IsCsvItem(IntToString(n))
  {
    var s := IntToString(n);
    var digits := NatToString(if n < 0 then -n else n);
    assert forall k :: 0 <= k < |s| ==> IsDigit(s[k]) || s[k] == '-';
    StripUnpadded(s);
  }

  /** A port number `int()` rejects is read as -1, so it is removed exactly
      when -1 is among the excluded ports. */
  lemma UnparsablePortMatchesMinusOne(o: FilterOptions, p: PortRecord)
    requires p.port.Unparsable?
    ensures PortExcluded(o, p) <==> -1 in ExcludedPorts(o)
  {
  }

  lemma MinusOneExcludesUnparsable(o: FilterOptions, p: PortRecord)
    requires o.excludePorts == "-1" && p.port.Unparsable?
    ensures !Keeps(o, p)
  {
    assert Join(IntStrings([-1]), ',') == "-1";
    ExcludedPortsRoundTrip([-1], o);
  }

  lemma {:induction false} FilterShrinksCount(o: FilterOptions, hs: seq<HostRecord>)
    ensures OpenPortCount(FilterHosts(o, hs)) <= OpenPortCount(hs)
  {
    if |hs| > 0 {
      FilterShrinksCount(o, hs[1..]);
      SubsequenceShorter(FilterPorts(o, hs[0].ports), hs[0].ports);
      assert FilterHosts(o, hs)[1..] == FilterHosts(o, hs[1..]);
    }
  }

  /** Filtering keeps the host count of the summary and never raises its
      open-port count. */
  lemma FilterShrinksSummary(d: ScanRecord, o: FilterOptions)
    ensures GetSummary(Some(ApplyFilters(d, o))).totalHosts == GetSummary(Some(d)).totalHosts
    ensures GetSummary(Some(ApplyFilters(d, o))).totalOpenPorts <= GetSummary(Some(d)).totalOpenPorts
  {
    FilterShrinksCount(o, d.hosts);
  }
}
