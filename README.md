# ZoneGuardian DNS inspection and scan-results text, in Dafny

This project models two pieces of ZoneGuardian, a DNS auditing tool, and
proves properties of them.

* **DNS inspection** (`dns_inspection.dfy`, module `DnsInspection`). The
  class `ZoneGuardian` holds a domain, its fixed list of 17 record types and a
  resolver. `ResolveRecords` queries every record type once, in list order.
  It builds the ordered results dictionary: the answers as strings, or one of
  the sentinel strings for `NoAnswer`, `NXDOMAIN`, `Timeout` and any other DNS
  exception (`"Error: " + message`). An exception that is not a DNS exception
  ends the scan. `AnalyzeResults` turns the dictionary into at most four
  warnings, always in the order MX, TXT, A/AAAA, SOA. `Run` chains the two. The
  resolver is a function from (domain, record type) to a `LookupOutcome`. The
  results dictionary is a `RecordTable`: an insertion order plus a map, as a
  Python dict is.
* **Scan results to text** (`security_analyzer.dfy`, module
  `SecurityAnalyzer`). `ConvertScanResultsToText` turns a scan-results
  dictionary into the text handed to the report generator. The text has four
  sections in a fixed order: the OWASP alerts host by host, then subdomains,
  then sitemaps, then vulnerable URLs host by host. The parts are joined with
  a blank line. A host whose alert string fails to decode gives one error line,
  and the loop goes on with the next host. An `AttributeError` or `TypeError`
  ends the call; the model returns it as a `Failure`. `json.loads` is a decoder
  passed in as a parameter. Decoded values are `JsonValue.Json` trees.
* Support modules: `PyText` (`sep.join`, single-character `str.replace`,
  `str.title` over ASCII, `str(int)`), `JsonValue` (decoded JSON values, dict
  lookup, `str()` of a value) and `Wrappers` (`Option`, `Result`).

Each imperative method (`ResolveRecords`, `AnalyzeResults`, `Run`, and the
loops of the conversion) is proved against a specification function. These
are `ResolvedTable`, `Warnings`, `FlatMap` over the per-item parts, and
`ScanResultsToText`. The properties are proved as lemmas about those
functions.

## Model

| member | source | states |
|---|---|---|
| DnsInspection.ZoneGuardian.constructor | zoneguardian/zoneguardian.py:11-23 | the object keeps the domain and resolver and lists the 17 record types; no type is listed twice |
| DnsInspection.RecordTypesDistinct | zoneguardian/zoneguardian.py:19-22 | the record-type list has 17 entries, all different |
| DnsInspection.RuleTypesQueried | zoneguardian/zoneguardian.py:19-22 | MX, TXT, A, AAAA and SOA, the types the analysis reads, are all in the list |
| DnsInspection.Classify | zoneguardian/zoneguardian.py:36-52 | an outcome becomes the answers or a sentinel exactly by its kind: answers iff records, "NoAnswer" iff NoAnswer, the NXDOMAIN text iff NXDOMAIN, the timeout text iff Timeout; only a non-DNS exception escapes |
| DnsInspection.ClassifyMessages | zoneguardian/zoneguardian.py:36-52 | any other DNS exception is stored as "Error: " followed by its message; an exception that is not a DNS exception escapes carrying its own message |
| DnsInspection.ClassifyInjective | zoneguardian/zoneguardian.py:41-52 | different outcomes give different stored values, so no error message can pass for a sentinel |
| DnsInspection.RecordOutcome | zoneguardian/zoneguardian.py:36-52 | the except ladder: it fails exactly on a non-DNS exception, carrying its message, and otherwise stores the classified value under the record type |
| DnsInspection.Insert | zoneguardian/zoneguardian.py:39-52 | dict assignment keeps the table well formed; a new key goes last and an existing key keeps its place |
| DnsInspection.TableSize | zoneguardian/zoneguardian.py:33-54 | a well-formed table has exactly one entry per key in its order |
| DnsInspection.FirstEscape | zoneguardian/zoneguardian.py:35-52 | the index of the first lookup that raises a non-DNS exception; no earlier lookup raises one |
| DnsInspection.CompletesIff | zoneguardian/zoneguardian.py:35-52 | the scan completes iff no lookup raises a non-DNS exception |
| DnsInspection.ResolvedEntry | zoneguardian/zoneguardian.py:33-54 | every record type of a completed scan holds the classification of its own lookup |
| DnsInspection.ResolvedTableKeys | zoneguardian/zoneguardian.py:33-54 | a completed scan returns one entry per record type, in list order |
| DnsInspection.ResolvedPrefixStep | zoneguardian/zoneguardian.py:35-52 | one loop turn: the next type is not yet a key, and storing its outcome extends the resolved prefix by one |
| DnsInspection.ResolvedPrefixComplete | zoneguardian/zoneguardian.py:33-54 | once every type is stored, the table is the one a completed scan returns |
| DnsInspection.ZoneGuardian.ResolveRecords | zoneguardian/zoneguardian.py:25-54 | succeeds iff the scan completes, with the resolved table; every type is queried once, in order (the ghost `queried` log), and a non-DNS exception stops the queries at the first type that raised it and propagates its message |
| DnsInspection.FiresSingle | zoneguardian/zoneguardian.py:69-83 | a one-type rule fires iff that type is present and stored as exactly "NoAnswer" |
| DnsInspection.FiresPair | zoneguardian/zoneguardian.py:77-79 | the A/AAAA rule fires iff both A and AAAA are stored as "NoAnswer" |
| DnsInspection.WarningsUnfold | zoneguardian/zoneguardian.py:69-83 | the warnings are the four checks, in order, each giving its message when it holds |
| DnsInspection.WarningTriggers | zoneguardian/zoneguardian.py:69-83 | each warning is reported iff its condition holds; the A/AAAA warning needs both types, and NXDOMAIN, Timeout or error strings never trigger one |
| DnsInspection.WarningsOrdered | zoneguardian/zoneguardian.py:67-90 | at most four warnings, each one of the four messages, in the order MX, TXT, A/AAAA, SOA, none repeated |
| DnsInspection.ZoneGuardian.AnalyzeResults | zoneguardian/zoneguardian.py:56-90 | returns exactly the rule-table warnings of the results |
| DnsInspection.WarningsFromLookups | zoneguardian/zoneguardian.py:25-90 | after a completed scan, each warning appears iff the resolver answered NoAnswer for its type (both A and AAAA for the address warning) |
| DnsInspection.AllNoAnswer | zoneguardian/zoneguardian.py:41-83 | if every lookup has no answer, every type is stored as "NoAnswer" and all four warnings are reported in order |
| DnsInspection.AllNXDomain | zoneguardian/zoneguardian.py:44-90 | if the domain does not exist, every type holds the NXDOMAIN text and no warning is reported |
| DnsInspection.ZoneGuardian.Run | zoneguardian/zoneguardian.py:92-106 | returns the resolved records and the warnings of those same records, or propagates the first non-DNS exception |
| JsonValue.Lookup | zoneguardian/core/security_analyzer.py:61-62 | `key in d` / `d[key]`: absent iff no field has the key; otherwise the value of a field with that key |
| JsonValue.LookupFirst | zoneguardian/core/security_analyzer.py:61-62 | when no earlier field has the key, the lookup gives the value of the field at that position, so of the first field with the key |
| SecurityAnalyzer.AlertField | zoneguardian/core/security_analyzer.py:74-78 | `alert.get(key, 'N/A')` shown as text: "N/A" when the key is missing, the string itself when the value is a string |
| SecurityAnalyzer.AlertPartsShape | zoneguardian/core/security_analyzer.py:73-84 | a dict alert gives five non-empty lines; anything else raises AttributeError |
| SecurityAnalyzer.AppendAlerts | zoneguardian/core/security_analyzer.py:73-84 | the alert loop appends, alert by alert, the five lines of each, or stops with the exception of the first alert that is not a dict |
| SecurityAnalyzer.AlertsGiveFiveLines | zoneguardian/core/security_analyzer.py:73-84 | the alerts give lines iff every alert is a dict (else AttributeError); then there are five per alert, Alert, Risk, URL, Description, Solution, alert after alert |
| SecurityAnalyzer.FiveLinesEach | zoneguardian/core/security_analyzer.py:73-84 | when every alert is a dict, lines 5i to 5i+4 are the five lines of alert i |
| SecurityAnalyzer.ScanTypeHeaderShape | zoneguardian/core/security_analyzer.py:71 | the heading is a newline, the scan-type name with underscores shown as spaces and title-cased letter by letter, then a colon |
| SecurityAnalyzer.AppendScanType | zoneguardian/core/security_analyzer.py:70-84 | a scan type appends its heading and its alerts only when its value is a list |
| SecurityAnalyzer.AppendScanTypes | zoneguardian/core/security_analyzer.py:69-84 | the scan-type loop appends each scan type's parts in dict order, or stops at the first exception |
| SecurityAnalyzer.ScanTypesOnlyLists | zoneguardian/core/security_analyzer.py:69-71 | scan types whose value is not a list add nothing |
| SecurityAnalyzer.DecodedHostLines | zoneguardian/core/security_analyzer.py:66-71 | a host whose alerts decode to a dict gives its Host line first, then the parts of its list-valued scan types |
| SecurityAnalyzer.AppendHost | zoneguardian/core/security_analyzer.py:65-87 | one host: a non-string raises TypeError, a decode error appends one error line, a decoded non-dict raises AttributeError, otherwise the Host line and its scan types |
| SecurityAnalyzer.AppendOwaspHosts | zoneguardian/core/security_analyzer.py:64-87 | the host loop appends each host's parts in dict order, or stops at the first exception |
| SecurityAnalyzer.FlatMapStopsAt | zoneguardian/core/security_analyzer.py:64-87 | once a host raises, the conversion raises that same exception whatever follows |
| SecurityAnalyzer.DecodeErrorIsolated | zoneguardian/core/security_analyzer.py:64-87 | a host whose alert string fails to decode contributes its one error line, and the hosts before and after it are rendered as if it were absent |
| SecurityAnalyzer.OwaspSectionEmpty | zoneguardian/core/security_analyzer.py:61-87 | the OWASP section has no empty part, and it is empty iff the key is missing or holds an empty dict |
| SecurityAnalyzer.JoinStrs | zoneguardian/core/security_analyzer.py:91 | `', '.join` of a list of strings is their join |
| SecurityAnalyzer.AppendVulnerableHosts | zoneguardian/core/security_analyzer.py:100-103 | the vulnerabilities loop appends a Host line and a URLs line for each host whose value is a list |
| SecurityAnalyzer.HostLinesEach | zoneguardian/core/security_analyzer.py:100-103 | list-valued hosts give two lines each, host after host: the Host line, then the URLs line with the host's URLs joined by ", " |
| SecurityAnalyzer.VulnerabilitiesLines | zoneguardian/core/security_analyzer.py:98-103 | when the key holds a dict the header comes first, even with no host; then two lines per list-valued host, only for those: the Host line of host i at 1 + 2i and its URLs line, the URLs joined by ", ", at 2 + 2i |
| SecurityAnalyzer.VulnerabilitiesSectionNoEmptyPart | zoneguardian/core/security_analyzer.py:98-103 | the vulnerabilities section never holds an empty part |
| SecurityAnalyzer.ConvertScanResultsToText | zoneguardian/core/security_analyzer.py:56-106 | returns the sections in their fixed order joined with a blank line, or the exception the conversion raises |
| SecurityAnalyzer.EmptyTextIff | zoneguardian/core/security_analyzer.py:56-106 | the text is empty iff there is no OWASP host, no subdomains or sitemaps list and no vulnerabilities dict |
| SecurityAnalyzer.ListSectionLine | zoneguardian/core/security_analyzer.py:89-95 | a key holding a list of strings gives exactly one line: the heading, then the strings joined by ", " |
| SecurityAnalyzer.SubdomainsBeforeSitemaps | zoneguardian/core/security_analyzer.py:58-106 | for any dict whose OWASP and vulnerabilities sections render and whose subdomains and sitemaps keys both hold lists of strings, the parts are the OWASP parts, the Subdomains line, the Sitemaps line, then the vulnerabilities parts, whatever order the keys have in the dict |
| SecurityAnalyzer.JoinItemsRaises | zoneguardian/core/security_analyzer.py:91 | `', '.join` raises TypeError exactly when some item is not a string |
| SecurityAnalyzer.ListSectionAbsent | zoneguardian/core/security_analyzer.py:89-95 | a missing subdomains or sitemaps key, or one whose value is not a list, adds no line |
| SecurityAnalyzer.ListSectionRaises | zoneguardian/core/security_analyzer.py:89-95 | a subdomains or sitemaps list holding a non-string raises TypeError |
| SecurityAnalyzer.VulnerableHostRaises | zoneguardian/core/security_analyzer.py:100-103 | a vulnerable host whose URL list holds a non-string raises TypeError |
| SecurityAnalyzer.VulnerabilitiesSectionAbsent | zoneguardian/core/security_analyzer.py:98-99 | a missing vulnerabilities key, or one whose value is not a dict, adds nothing, not even the header |
| SecurityAnalyzer.SubdomainsAndSitemapsText | zoneguardian/core/security_analyzer.py:89-108 | for a dict with no owasp or vulnerabilities key, the text is the Subdomains line, a blank line, then the Sitemaps line |
| PyText.JoinLength | zoneguardian/core/security_analyzer.py:106 | a join is as long as its parts plus one separator between neighbours; no parts gives "" |
| PyText.JoinAppend | zoneguardian/core/security_analyzer.py:106 | joining two non-empty lists of parts is joining each with one separator between |
| PyText.JoinEmptyIff | zoneguardian/core/security_analyzer.py:106 | with no empty part, the join is "" iff there are no parts |
| PyText.ReplaceAt | zoneguardian/core/security_analyzer.py:71 | `replace` of one character by another keeps the length and, at every position, puts the new character exactly where the old one was and keeps every other character |
| PyText.TitleAt | zoneguardian/core/security_analyzer.py:71 | `title()` keeps the length; a cased letter is upper-cased after an uncased character and lower-cased after a cased one; others are kept |
| PyText.IntToStringRoundTrip | zoneguardian/core/security_analyzer.py:74-84 | `str(n)` of an integer alert value reads back to `n` |

## Left out

- The network: the resolver is a function passed in, from (domain, record type) to an outcome. It gives the same outcome for the same query, and it also supplies the `str()` of each answer and of each exception.
- Logging (`appLogger` calls), the `__main__` block of `zoneguardian/zoneguardian.py` and `zoneguardian_cli.py`. They are I/O and command-line argument parsing. As written, `zoneguardian_cli.py:12` calls `ZoneGuardian()` without the required domain and line 16 calls an `analyze_domains` method that `zoneguardian/zoneguardian.py` does not define.
- The other members of `SecurityAnalyzer`: `__init__`, `generate_report`, `_split_log_into_chunks`, the prompt and the PDF and JSON writers. They call the language model, the vector store and the file system.
- The Java sources under `src/`. They are not part of ZoneGuardian's inspection code.
- The module imports of `zoneguardian/core/security_analyzer.py`. Line 10 spells the package `zoneguardina`, so the module as written fails to import; the model assumes the import succeeds.
- `json.loads`: it is a decoder passed in as a parameter. JSON numbers are integers only, with no floats.
- Dicts with a repeated key: `Lookup` takes the first field with the key, while `json.loads` keeps the last value. Decoded dicts and the scan-results dict are taken to have distinct keys.
- `JsonValue.Repr`: it shows a non-string alert value roughly as Python's `str()` would, but every string inside it is put between single quotes and copied unchanged. Python picks double quotes when the string holds `'` and no `"` (`str(["it's"])` is `["it's"]`), and escapes backslashes, the quote character, `\n`, `\r`, `\t` and other non-printable characters.
- `PyText.Title`: it follows `str.title` for ASCII letters only. Other characters count as uncased.
- SecurityAnalyzer.AlertField: its contract covers a missing key and a string value; for other values it shows `str(value)` through `JsonValue.PyStr`, which no contract states.
- Exceptions other than `AttributeError` and `TypeError` in the conversion, and a scan-results value that is not a dict. The scan results are typed as a dict.
- AppendAlerts: the five `append` calls for an alert are one append of a five-line list, with the same resulting list.
