# nmap report tool: parsing, severity, filtering and report helpers in Dafny

This project models the analysis core of an nmap report tool. It has four parts:

- **Severity heuristics.** These classify a script finding and an open port into the ranked
  levels `info < low < medium < high < critical`. They use case-insensitive substring tests,
  the common-ports set and the risky-services set.
- **Transform from the parsed XML document to the scan data model.** It keeps the hosts that
  are up and the ports that are open. It applies the attribute defaults, takes the first OS
  match, scores every port with the risk function and sums port risk into host risk and host
  risk into total risk. Then it turns the result into the stored dictionary with `to_dict`,
  which leaves the risk scores behind (see "Findings"). `get_summary` aggregates that
  dictionary.
- **Post-hoc port filter.** `parse_csv_set` and `apply_filters`: four independent tests per
  port, applied as an order-preserving selection on each host's port list.
- **Report helpers.** These are the severity tally, the severity colour and the
  potential-vulnerability selection that every renderer repeats.

Modules, one file each:

| module | file | contents |
|---|---|---|
| `Wrappers` | wrappers.dfy | `Option`, `Result` |
| `Text` | text.dfy | ASCII `str.lower`, `str.strip`, `str.split(',')`, `','.join`, the `in` substring test, `int()` on a string and its inverse |
| `Xml` | xml.dfy | the element tree `Elem(tag, attrs, children)` with `find`, `findall`, `get` |
| `Seqs` | seqs.dfy | order-preserving subsequences |
| `Models` | models.py → models.dfy | severity levels, the constant sets, the entities, both heuristics, `to_dict` |
| `Scanner` | nmap_scanner.py → scanner.dfy | `_parse_port`, `_parse_host`, the host loop of `_parse_xml_output`, `parse_xml_file`, `get_summary` |
| `Render` | render.dfy | writes a scan result back as a document. It serves only to state the parse round trip. |
| `Filters` | filters.py → filters.dfy | `parse_csv_set`, `apply_filters` |
| `Reports` | report_generator.py → reports.dfy | `_severity_counts`, `_severity_color`, the vulnerability selection |
| `Samples` | samples.dfy | the expectations of the parser and filter tests |

There are two layers of data:
- **In-memory entities.** `PortEntry`, `HostEntry` and `ScanResult` carry a `Severity`. The
  parser attaches a risk attribute to each of them after construction. It is modelled as an
  `Option<int>`: `None` means the attribute is not set, and `getattr(x, 'risk_score', 0)` is
  `GetOr(0)`.
- **Stored dictionary.** `ScanRecord`, `HostRecord` and `PortRecord` are what `to_dict`
  produces and what the filter, the summary and the reports read. Severities there are strings.
  `""` stands for `None`. A port number is `Known(n)`, or `Unparsable` for a value `int()`
  rejects.

`risk_score_for_port` is imported by the scanner, but its definition is not part of this model.
It is the parameter `risk: RiskFn`. It is applied to the built entry before the entry's own
score is set, and no weights are assumed.

### Edge cases the code decides

- **Port id.** `int(port_elem.get('portid', '0') or 0)` (scanner/nmap_scanner.py:209)
  gives 0 only for an absent or empty `portid`. Any other value `int()` rejects raises, and the
  parse fails. `Scanner.ParsePort` returns `Err(InvalidPortId(..))` in that case.
- **Unparsable port numbers in the filter.** scanner/filters.py:33-36 maps a port number
  `int()` rejects to -1. An `exclude_ports` list containing `-1` therefore removes such ports
  (`Filters.MinusOneExcludesUnparsable`).
- **Nested hosts.** `root.remove(elem)` (scanner/nmap_scanner.py:116) raises unless the host is
  a direct child of the root. A document with a `host` element anywhere else fails to parse
  (`Scanner.ParseScanRejectsMisplacedHosts`).

## Model

| member | source | states |
|---|---|---|
| Text.ParseInt | scanner/nmap_scanner.py:209 | Python `int()` on a string: a blank string is rejected, and so is every string that is not, once stripped, a decimal literal with at most one leading sign |
| Text.ParseIntIgnoresPadding | scanner/nmap_scanner.py:209 | `int()` reads a string exactly as it reads the string stripped of surrounding whitespace |
| Text.ParseIntSigned | scanner/nmap_scanner.py:209 | a decimal literal reads as its digit value, also after a `+`, and negated after a `-` |
| Text.DigitsValueSkipsSeparator | scanner/nmap_scanner.py:209 | an underscore among the digits does not change the value read |
| Text.ContainsAcrossSpace | scanner/models.py:108 | with a space between two texts, a needle without a space occurs in the whole exactly when it occurs in one of them |
| Text.IntToStringRoundTrip | scanner/filters.py:25 | `int(str(n)) == n` for every integer |
| Models.Rank | scanner/models.py:7 | a level's rank is the SEVERITY_ORDER value of its name |
| Models.SeverityNamed | scanner/models.py:7 | a string names a level exactly when it is a SEVERITY_ORDER key, and then names that level |
| Models.SeverityOrderIsStrictTotalOrder | scanner/models.py:7 | the five names are exactly the keys; ranks are strictly increasing info < low < medium < high < critical and injective; every level is found again by its name |
| Models.OrderOf | scanner/models.py:7 | `SEVERITY_ORDER.get(name, 0)`: a known name gives its level's rank, any other name gives 0 |
| Models.Max | scanner/models.py:96 | the `max(..., key=rank)` of two levels is one of them and ranks at least as high as both |
| Models.FindingText | scanner/models.py:108 | the classified text is lower-case: the output, a space, then the id |
| Models.BaseSeverity | scanner/models.py:89-92 | a port starts at `info` exactly when its number is common, and at `low` otherwise |
| Models.ServiceName | scanner/models.py:94 | the service name tested is lower-case, and `unknown` without a service |
| Models.IsRiskyService | scanner/models.py:95 | a service name is risky exactly when some risky service occurs in it as a substring |
| Models.FindingSeverity | scanner/models.py:107-113 | a finding is never classified `low` or `critical` |
| Models.FindingSeverityClassifies | scanner/models.py:107-113 | a finding is `high` exactly when its output or its id names "cve-" or "critical"; otherwise `medium` exactly when either mentions "vulnerab", "weak" or "insecure"; otherwise `info` |
| Models.HighTextAcrossSpace | scanner/models.py:108-109 | the high keywords occur in output + " " + id exactly when they occur in the output or the id |
| Models.MediumTextAcrossSpace | scanner/models.py:108-111 | the same for the medium keywords |
| Models.ServiceSeverity | scanner/models.py:89-96 | the level after the port number and service never exceeds `medium` |
| Models.ScanFindings | scanner/models.py:98-104 | the findings loop never lowers the level it starts from and never produces `critical` |
| Models.PortSeverity | scanner/models.py:88-104 | a port is never `critical`, never below its base level, and at least `medium` when its service name contains a risky service |
| Models.ScanFindingsClassifies | scanner/models.py:98-104 | the loop equals its loop-free description: `high` if any output triggers high, wherever it stands; otherwise at least `medium` if any output is weak or insecure; otherwise the starting level |
| Models.PortSeverityClassifies | scanner/models.py:88-104 | port level = `high` if some output names a CVE, a vulnerability or `critical`; else `medium` if the service is risky or some output is weak/insecure; else `info` for a common port and `low` for another |
| Models.PortHighIff | scanner/models.py:98-101 | a port is `high` if and only if one of its finding outputs triggers it |
| Models.PortSeverityIgnoresIds | scanner/models.py:98-103 | two ports that agree on number, service and finding outputs get the same level, whatever their finding ids and severities |
| Models.CveFindingIsHighEverywhere | scanner/models.py:100-101 | an output naming a CVE or `critical` makes both that finding and its port `high` |
| Models.PortTriggerIsAtLeastMediumFinding | scanner/models.py:100 | an output that makes its port `high` makes its finding at least `medium` |
| Models.FindingsToRecords | scanner/models.py:57-63 | the finding list keeps its length and each finding's position |
| Models.PortsToRecords | scanner/models.py:57-63 | the port list keeps its length and each port's position |
| Models.HostsToRecords | scanner/models.py:57-69 | the host list keeps its length and each host's position |
| Models.ToDict | scanner/models.py:57-70 | copies target, scan time and version and keeps the host count; no host or total risk score appears in the result |
| Models.ToDictWithRisk | scanner/models.py:57-70 | the corrected dictionary: the same copies, with the host and total risk scores carried over |
| Models.FindingsRoundTrip | scanner/models.py:57-63 | reading the finding dictionaries back gives the findings |
| Models.PortsRoundTrip | scanner/models.py:57-63 | reading the port dictionaries back gives the ports |
| Models.HostsRoundTrip | scanner/models.py:57-69 | reading the host dictionaries back gives the hosts |
| Models.ToDictWithRiskRoundTrip | scanner/models.py:57-70 | the corrected dictionary loses nothing: reading it back gives the scan result |
| Models.ToDictDropsRisk | scanner/models.py:57-70 | `to_dict` as written equals the corrected dictionary of the result with every risk score removed; reading it back gives that stripped result; it differs from the corrected one whenever a host has a score |
| Models.StripPortRiskInvisible | scanner/models.py:57-63 | the port dictionaries without scores are those of the ports with their scores removed |
| Models.StripRiskInvisible | scanner/models.py:57-69 | the same for hosts |
| Models.AllPortsAppend | scanner/nmap_scanner.py:251-254 | the ports of all hosts distribute over concatenation of the host list |
| Scanner.ScriptsOf | scanner/nmap_scanner.py:225-231 | one finding per `script` child, in document order, id and output defaulting to "" and classified by the finding heuristic |
| Scanner.Scored | scanner/nmap_scanner.py:241-242 | a scored port carries the port heuristic's level and the risk of its unscored entry, and keeps number, protocol, service and findings |
| Scanner.ParsePort | scanner/nmap_scanner.py:203-243 | `_parse_port` yields nothing exactly when the first `state` child is not open; it fails exactly when an open port's `portid` is not an integer; a yielded port is open, classified, scored and numbered by its `portid` (absent or "" gives 0) |
| Scanner.KeepParsed | scanner/nmap_scanner.py:177-180 | the loop that appends each truthy result fails exactly when one element fails, and keeps no more items than there are elements |
| Scanner.KeepParsedMembers | scanner/nmap_scanner.py:177-180 | an item is kept exactly when some element parses to it |
| Scanner.KeepParsedAppend | scanner/nmap_scanner.py:110-116 | over a concatenation the loop keeps the first part's items followed by the second's, or fails with the second part's error |
| Scanner.KeepParsedAll | scanner/nmap_scanner.py:177-180 | when every element parses to an item, the items are kept in order |
| Scanner.ParsePorts | scanner/nmap_scanner.py:175-180 | the port list fails exactly when some open port has a bad `portid`; every kept port is well formed |
| Scanner.AddressesOf | scanner/nmap_scanner.py:163-166 | one address per `address` child, in order, with `addrtype` defaulting to "unknown" and `addr` to "" |
| Scanner.NamesOf | scanner/nmap_scanner.py:169-172 | one hostname per `hostname` element, in order, `name` defaulting to "" |
| Scanner.PortIdOf | scanner/nmap_scanner.py:209 | an absent `portid` is 0; the id fails exactly when it is non-empty and `int()` rejects it, and is otherwise the value `int()` reads |
| Scanner.ServiceOf | scanner/nmap_scanner.py:215-222 | each service attribute is the element's own value, or `unknown` (name) or "" when absent |
| Scanner.EntryOf | scanner/nmap_scanner.py:209-240 | the unclassified entry of an open port: its id, state `open`, a service exactly when there is a `service` child, one finding per `script` child, level `info` and no risk score |
| Scanner.OsOf | scanner/nmap_scanner.py:183-190 | an OS match exactly when there is an `os` child with an `osmatch` child; its name is the match's `name`, or "Unknown" when absent, and its accuracy the match's `accuracy`, or "0" when absent |
| Scanner.HostOf | scanner/nmap_scanner.py:192-200 | the built host is up, holds the parsed ports and OS match, one address per `address` child, and scores the sum of its port risks |
| Scanner.ParseHost | scanner/nmap_scanner.py:150-201 | `_parse_host` yields nothing exactly when the first `status` child is not up; it fails exactly when its port list fails; a yielded host is up, its ports are well formed and its risk is their sum |
| Scanner.WithoutTag | scanner/nmap_scanner.py:116 | after the removals no child is a host, and every other child is still there, in its order |
| Scanner.CollectHosts | scanner/nmap_scanner.py:110-116 | the host loop succeeds only when every host end event is a direct child of the root; it keeps at most one host per event, each well formed |
| Scanner.ParseScan | scanner/nmap_scanner.py:99-126 | a parsed result is well formed (total risk is the sum of host risks), carries the caller's target and time and the root's `version`, defaulting to "Unknown" |
| Scanner.ParseXmlFile | scanner/nmap_scanner.py:131-148 | succeeds exactly when the document parses; the target defaults to "offline"; time, version and host count are those of the parsed result; the stored dictionary has no total or host risk score, and read back it is the parsed result with every risk score unset |
| Scanner.ParseXmlFileCorrected | scanner/nmap_scanner.py:131-148 | the corrected `parse_xml_file`: the same success and target, the parsed total risk, and read back exactly the parsed result |
| Scanner.ParseHostList | scanner/nmap_scanner.py:110-114 | over direct host children: fails exactly when an up host has a bad port; every kept host is well formed |
| Scanner.AsEvents | scanner/nmap_scanner.py:110-111 | direct host children become end events at depth 1, in order |
| Scanner.WellShapedChildEvents | scanner/nmap_scanner.py:110-111 | when hosts sit only directly under the root, the end events are exactly the host children in document order |
| Scanner.CollectDirectHosts | scanner/nmap_scanner.py:110-116 | for direct host children the loop is the plain up-host selection |
| Scanner.ParseScanKeepsUpHosts | scanner/nmap_scanner.py:99-126 | for a document whose hosts are direct children of the root, the result holds exactly the up hosts, parsed in document order, with total risk their sum |
| Scanner.EmptyScan | scanner/nmap_scanner.py:118-125 | a document with no host has no hosts and total risk 0 |
| Scanner.HostFreeHasNoEvents | scanner/nmap_scanner.py:110-111 | a subtree without hosts raises no host end event |
| Scanner.EventsAreDeep | scanner/nmap_scanner.py:110-111 | every host event of a subtree is at least as deep as the subtree |
| Scanner.HostfulHasEvent | scanner/nmap_scanner.py:110-111 | a subtree containing a host raises at least one host end event |
| Scanner.ChildEventsInclude | scanner/nmap_scanner.py:110-111 | a child's host events are among its parent's |
| Scanner.CollectRejectsDeepEvent | scanner/nmap_scanner.py:116 | a host event not directly under the root makes the loop fail |
| Scanner.ParseScanRejectsMisplacedHosts | scanner/nmap_scanner.py:110-116 | a document with the root itself a host, or a host nested below another element, fails to parse |
| Scanner.CountVulnScripts | scanner/nmap_scanner.py:260-262 | the count of scripts whose id mentions "vuln" is at most the number of scripts |
| Scanner.GetSummary | scanner/nmap_scanner.py:245-270 | the error record exactly when nothing is stored; otherwise the stored target and time and the host count |
| Scanner.OpenPortCountIsAllPorts | scanner/nmap_scanner.py:251-254 | the open-port total is the length of all hosts' port lists together |
| Scanner.SummaryOfParsedScan | scanner/nmap_scanner.py:245-270 | for a parsed scan: the host count, the open-port total, and a vulnerability count no larger than the number of findings |
| Scanner.VulnCountBounded | scanner/nmap_scanner.py:257-262 | the vulnerability count never exceeds the number of findings |
| Render.ScriptsRoundTrip | scanner/nmap_scanner.py:225-231 | the written `script` children read back as the findings |
| Render.PortEntryQuery | scanner/nmap_scanner.py:209-240 | a written port element reads back as the entry before classification and scoring |
| Render.PortRoundTrip | scanner/nmap_scanner.py:203-243 | a well-formed port written out is parsed back to itself |
| Render.PortsRoundTrip | scanner/nmap_scanner.py:175-180 | a list of well-formed ports written out is parsed back to itself, in order |
| Render.AddressesRoundTrip | scanner/nmap_scanner.py:163-166 | written addresses read back unchanged |
| Render.HostnamesRoundTrip | scanner/nmap_scanner.py:169-172 | written hostnames read back unchanged |
| Render.OsRoundTrip | scanner/nmap_scanner.py:183-190 | a written `os`/`osmatch` reads back as the OS match, and its absence as none |
| Render.HostRoundTrip | scanner/nmap_scanner.py:150-201 | a well-formed host written out is parsed back to itself |
| Render.HostsRoundTrip | scanner/nmap_scanner.py:110-114 | a list of well-formed hosts written out is parsed back to itself |
| Render.ScanElemWellShaped | scanner/nmap_scanner.py:110-116 | a written scan holds its hosts directly under the root |
| Render.ScanRoundTrip | scanner/nmap_scanner.py:99-126 | every well-formed scan result is what the parser gives back for its written document |
| Filters.ParseCsvSet | scanner/filters.py:7-8 | every item is non-empty, lower-case, stripped and comma-free |
| Filters.NormalizedIsItem | scanner/filters.py:8 | stripping and lower-casing a non-blank piece gives such an item |
| Filters.ItemIsNormalized | scanner/filters.py:8 | normalising an item leaves it unchanged |
| Filters.CsvEmpty | scanner/filters.py:7-8 | the empty string lists nothing |
| Filters.CsvOfItems | scanner/filters.py:7-8 | a list whose pieces are already items parses to the set of those pieces |
| Filters.CsvOfPieces | scanner/filters.py:7-8 | for any comma-separated list, the set is exactly the stripped, lower-cased non-blank pieces |
| Filters.CsvRoundTrip | scanner/filters.py:7-8 | items joined with commas parse back to their set |
| Filters.LevelOf | scanner/filters.py:20 | a severity option or port severity ranks at most `critical` |
| Filters.FilterPorts | scanner/filters.py:30-57 | the kept ports are a subsequence of the original list; a port is kept exactly when it is in the list and passes all four tests |
| Filters.FilterPortsCounts | scanner/filters.py:30-57 | each passing port keeps all its occurrences and each failing port none |
| Filters.FilterHosts | scanner/filters.py:30-57 | each host is replaced by itself with only its port list filtered |
| Filters.ApplyFilters | scanner/filters.py:11-59 | target, time, version, total risk and the host count are unchanged; each host changes only in its ports, which become the order-preserving selection of the passing ports |
| Filters.FilterIdempotent | scanner/filters.py:30-57 | filtering twice with the same options is filtering once |
| Filters.FilterCommutes | scanner/filters.py:30-57 | filtering with two option sets gives the same in either order |
| Filters.FilterAbsorbs | scanner/filters.py:30-57 | a weaker filter followed by a stricter one is the stricter one |
| Filters.RaisingThresholdRefines | scanner/filters.py:20 | re-filtering with a higher minimum severity equals filtering with it directly |
| Filters.InfoIsLowest | scanner/filters.py:20 | an absent or `info` minimum severity is threshold 0 |
| Filters.DefaultsKeepEveryPort | scanner/filters.py:20-54 | with every option at its default each port passes |
| Filters.DefaultsKeepPorts | scanner/filters.py:30-57 | with the defaults a port list is unchanged |
| Filters.DefaultsChangeNothing | scanner/filters.py:11-59 | with the defaults the stored dictionary is unchanged |
| Filters.UnknownSeverityCountsAsInfo | scanner/filters.py:52-54 | an unrecognised port severity ranks 0 and is dropped by any positive threshold |
| Filters.NoServiceNeverExcluded | scanner/filters.py:43-45 | a port without service, or with an empty service name, is never removed by the service list |
| Filters.ExcludedPorts | scanner/filters.py:21-27 | the excluded numbers are exactly the values `int()` reads from items of the list; an empty option excludes none |
| Filters.Keeps | scanner/filters.py:38-56 | a port is kept exactly when its number is not excluded, its non-empty service name is not excluded, it is not a dropped common port, and its level reaches the threshold |
| Filters.ServiceKey | scanner/filters.py:43 | the service name compared is lower-case, and empty without a service |
| Filters.ExcludedPortsRoundTrip | scanner/filters.py:21-27 | port numbers written as a comma list are read back as exactly that set |
| Filters.IntStringIsItem | scanner/filters.py:22-25 | a written port number is a valid list item |
| Filters.UnparsablePortMatchesMinusOne | scanner/filters.py:33-40 | an unconvertible port number is excluded exactly when -1 is in the excluded set |
| Filters.MinusOneExcludesUnparsable | scanner/filters.py:33-40 | `exclude_ports="-1"` drops every port with an unconvertible number |
| Filters.FilterShrinksCount | scanner/filters.py:30-57 | filtering never increases the number of ports |
| Filters.FilterShrinksSummary | scanner/filters.py:30-57 | after filtering the summary has the same host count and no more open ports |
| Reports.CountKey | reports/report_generator.py:22-26 | a tally is at most the number of ports |
| Reports.CountKeyAppend | reports/report_generator.py:22-26 | tallies add over concatenation |
| Reports.SeverityCounts | reports/report_generator.py:20-27 | the counts have exactly the five level keys, and each counts the ports across all hosts whose severity, `info` when unset and lower-cased, is that key |
| Reports.CountsPartitionPorts | reports/report_generator.py:22-27 | the five counts plus the uncounted ports with an unknown severity are all the ports, so the counts never exceed the ports |
| Reports.NamesAreKeys | reports/report_generator.py:24-25 | a level's name is its own tally key and a counted key |
| Reports.ParsedPortsAllKnown | reports/report_generator.py:24-25 | no parsed port has an unknown severity |
| Reports.ParsedHostsAllKnown | reports/report_generator.py:22-26 | no port of a parsed scan goes uncounted |
| Reports.CountUnknownAppend | reports/report_generator.py:22-26 | unknown tallies add over concatenation |
| Reports.ParsedCountsCoverOpenPorts | reports/report_generator.py:20-27 | for a parsed scan the five counts add up to the summary's open-port total |
| Reports.FilteredPortsCountNothingBelow | reports/report_generator.py:22-26 | after filtering, no port is tallied under a level below the threshold |
| Reports.FilteredHostsCountNothingBelow | reports/report_generator.py:22-26 | the same over a host list |
| Reports.FilteredCountsNothingBelow | reports/report_generator.py:20-27 | the same over a filtered dictionary |
| Reports.SeverityColor | reports/report_generator.py:29-37 | a known severity (unset meaning `info`, any case) gets its colour; any other gets `info`'s grey |
| Reports.SeverityColorsDistinguishLevels | reports/report_generator.py:31-37 | the colours are keyed by the five levels, are pairwise different, and the fallback is `info`'s |
| Reports.SeverityColorIgnoresCase | reports/report_generator.py:30 | lower-casing a severity does not change its colour |
| Reports.IsPotentialVulnerability | reports/report_generator.py:226 | a script is listed when its lower-cased id contains "vuln" or its output is non-empty |
| Reports.FindingListings | reports/report_generator.py:224-231 | a port's listings are exactly its findings whose id mentions "vuln" or whose output is non-empty |
| Reports.FindingListingsAppend | reports/report_generator.py:225-231 | listings follow script order: they distribute over concatenation of the script list |
| Reports.FindingListingsOne | reports/report_generator.py:226-231 | one script is listed once, with its port, when it is a potential vulnerability, and not at all otherwise |
| Reports.HostListingsOne | reports/report_generator.py:224-231 | a single port contributes exactly its own scripts' listings |
| Reports.HostListings | reports/report_generator.py:309-312 | a host's listings are exactly those pairs over all its ports |
| Reports.HostListingsAppend | reports/report_generator.py:386-389 | listings follow port order: they distribute over concatenation of the port list |
| Reports.VulnScriptsAreListed | reports/report_generator.py:506-514 | every script the summary counts is listed |
| Reports.SummaryCountAtMostListed | reports/report_generator.py:585-592 | the summary's vulnerability count is at most the number of listings |
| Samples.HttpPortIsHigh | tests/test_parser_and_filters.py:20-22 | the http port whose output names a CVE is `high`, and so is its finding |
| Samples.RiskyServiceIsMedium | scanner/models.py:94-103 | a risky service whose outputs trigger nothing high gives `medium` |
| Samples.SshPortIsMedium | tests/test_parser_and_filters.py:20-23 | the ssh port with a `weak` output is `medium` |
| Samples.UnknownServiceIsNotRisky | scanner/models.py:94-95 | a port without service is not risky |
| Samples.UncommonPortIsLow | tests/test_parser_and_filters.py:20-24 | port 9999 without service or findings is `low` |
| Samples.MinimumMediumDropsLowPort | tests/test_parser_and_filters.py:35-40 | minimum severity `medium` keeps ports 80 and 22 and drops 9999 |
| Samples.SampleRecordsAreStored | scanner/models.py:57-63 | the three sample records are what `to_dict` stores for the three sample ports |
| Samples.ExcludingSshDropsPort22 | tests/test_parser_and_filters.py:42-46 | excluding service `ssh` from the unfiltered records drops port 22 and keeps the others |
| Samples.SshFilterAfterMediumFilter | tests/test_parser_and_filters.py:35-46 | the test's second filter runs on the ports the first left in place: excluding `ssh` after the `medium` filter leaves port 80 only |
| Samples.PortRiskCountsPorts | scanner/nmap_scanner.py:200 | with a positive risk function a host's score is at least its number of ports |
| Samples.HostRiskBounds | scanner/nmap_scanner.py:125 | with a positive risk function the total is at least every host's score |
| Samples.StoredRiskReadsZero | tests/test_parser_and_filters.py:26-28 | in the dictionary `parse_xml_file` stores, every host's risk and the total risk read as 0 |
| Samples.CorrectedRiskChecksHold | tests/test_parser_and_filters.py:26-28 | in the dictionary the corrected `parse_xml_file` stores, both risk checks of the parse test hold for any document and any positive risk function |

## Left out

- Running nmap. The availability check, command construction, timeouts and exception wrapping
  are subprocess I/O.
- Reading XML text. `ET.iterparse` and `ET.ParseError` belong to the library parser. The model
  starts from the element tree and keeps `root.remove`'s failure for misplaced hosts. The
  wrapping of exceptions into `RuntimeError` becomes the `ParseError` result.
- File and gzip reading in `parse_xml_file`, and the `datetime.now()` timestamps. The formatted
  scan time is a parameter.
- The body of `risk_score_for_port`: it is the parameter `risk`.
- The renderers (PDF, DOCX, HTML, Markdown, text, JSON), their libraries, file writes and the
  float bar widths. Only the helpers they share are modelled.
- main.py: argument parsing, the authorisation prompt and process exit.
- Sorting: nothing in the modelled code sorts.
- Python's Unicode `lower`, `strip` and `int`: the model covers only their ASCII behaviour.
- Dynamic typing in the filter beyond the `Unparsable` port number. Values of the wrong type
  (a non-dict service, say) are not modelled, and `None` strings are written as `""`.
- The in-place update of `apply_filters` (scanner/filters.py:18,57). The code assigns each
  host's filtered port list into the caller's dictionary, which is the scanner's stored
  result, and returns that same dictionary. The model returns the updated dictionary as a new
  value that replaces the stored one; aliasing is not modelled. A caller that filters twice
  therefore filters the already-filtered value (`Samples.SshFilterAfterMediumFilter`,
  `Filters.FilterCommutes`).
- Scanner.GetSummary: its own contract does not state the open-port and vulnerability counts.
  They are stated separately: the open-port total by `Scanner.OpenPortCountIsAllPorts`, and
  bounds on the vulnerability count by `Scanner.VulnCountBounded` and
  `Reports.SummaryCountAtMostListed`.
- Scanner.ParseScan: the exact result for a document with hosts only directly under the root is
  stated by `Scanner.ParseScanKeepsUpHosts`. For any other document it fails
  (`Scanner.ParseScanRejectsMisplacedHosts`).

## Findings

| source | as written | input that shows it | evidently intended | confidence | as-written member | corrected member |
|---|---|---|---|---|---|---|
| scanner/models.py:57-70 with scanner/nmap_scanner.py:125,200,242 | `to_dict` serialises the dataclasses with `asdict`, which keeps declared fields only. The `risk_score` and `total_risk` attributes the parser attaches are therefore dropped from the stored dictionary. | Any scan with an up host: `host.get('risk_score', 0)` reads 0, so the check at tests/test_parser_and_filters.py:27 fails. The renderers report every host risk as 0. | The stored dictionary carries the port, host and total risk scores that the tests and renderers read. | not executed | Models.ToDict, Scanner.ParseXmlFile, Models.ToDictDropsRisk, Samples.StoredRiskReadsZero | Models.ToDictWithRisk, Scanner.ParseXmlFileCorrected, Models.ToDictWithRiskRoundTrip, Samples.CorrectedRiskChecksHold |

`Scanner.ParseXmlFile` stores `to_dict` as written, `Models.ToDict`.
`Scanner.ParseXmlFileCorrected` stores the corrected dictionary, `Models.ToDictWithRisk`.
`Models.ToDictDropsRisk` relates the two: they are equal once every risk score is removed. The filter, the summary and the report helpers never read the risk scores;
`Filters.ApplyFilters` carries `totalRisk` through unchanged. Their properties therefore hold for
either dictionary.
