/**
 * SecurityAnalyzer's conversion of a scan-results dictionary to the plain
 * text handed to the report generator: OWASP alerts per host, then
 * subdomains, then sitemaps, then vulnerable URLs per host, as text parts
 * joined with a blank line.
 *
 * `json.loads` is not modelled: it is an injected decoder from a string to a
 * decoded value or a decode error.
 */
module SecurityAnalyzer {
  import opened Wrappers
  import opened PyText
  import opened JsonValue

  /** What `json.loads` makes of a host's alert string. */
  datatype Decoded = Decoded(value: Json) | DecodeError

  type Decoder = string -> Decoded

  /**
   * The exceptions the conversion does not catch; either one ends the call:
   * `AttributeError` from `.items()` or `.get()` on a value that is not a
   * dict, `TypeError` from `json.loads` of a value that is not a string or
   * from `', '.join` of a list with an item that is not a string.
   */
  datatype Raised = AttributeError | TypeError

  /** Text parts produced by one step of the conversion, or the exception it raised. */
  type Parts = Result<seq<string>, Raised>

  /** Run two steps in order: the first exception wins, otherwise the parts are concatenated. */
  function Then(a: Parts, b: Parts): Parts {
    match a
    case Failure(e) => Failure(e)
    case Success(x) =>
      match b
      case Failure(e) => Failure(e)
      case Success(y) => Success(x + y)
  }

  /** Run `f` on each element in order, appending the parts, until one raises. */
  function FlatMap<T>(xs: seq<T>, f: T -> Parts): Parts
    decreases |xs|
  {
    if xs == [] then Success([]) else Then(FlatMap(xs[..|xs| - 1], f), f(xs[|xs| - 1]))
  }

  const PartSeparator := "\n\n"
  const NotAvailable := "N/A"
  const VulnerabilitiesHeader := "\nVulnerabilities identified:"

  function DecodeErrorPart(host: string): string {
    "Error parsing OWASP scan results for host: " + host
  }

  function HostLine(host: string): string {
    "Host: " + host
  }

  /** `str(alert.get(key, 'N/A'))`. */
  function AlertField(alert: seq<Field>, key: string): (r: string)
    ensures (forall i :: 0 <= i < |alert| ==> alert[i].key != key) ==> r == NotAvailable
    ensures forall s :: Lookup(alert, key) == Some(Str(s)) ==> r == s
  {
    match Lookup(alert, key)
    case None => NotAvailable
    case Some(v) => PyStr(v)
  }

  /** The five lines of one alert; an alert that is not a dict raises on `.get`. */
  function AlertParts(alert: Json): Parts {
    if !alert.Object? then Failure(AttributeError)
    else
      var a := alert.fields;
      Success([
        "  Alert: " + AlertField(a, "alert"),
        "  Risk: " + AlertField(a, "risk"),
        "  URL: " + AlertField(a, "url"),
        "  Description: " + AlertField(a, "description"),
        "  Solution: " + AlertField(a, "solution")
      ])
  }

  /** `f"\n{scan_type.replace('_', ' ').title()}:"`. */
  function ScanTypeHeader(scanType: string): string {
    "\n" + Title(Replace(scanType, '_', ' ')) + ":"
  }

  /** A scan type whose value is a list: its header, then its alerts; any other value adds nothing. */
  function ScanTypeParts(entry: Field): Parts {
    if entry.value.Array? then
      Then(Success([ScanTypeHeader(entry.key)]), FlatMap(entry.value.items, AlertParts))
    else Success([])
  }

  /**
   * One host of the `owasp` dict. The value is decoded; a decode error gives
   * one error line; a decoded dict gives the host line and its scan types.
   */
  function HostParts(decode: Decoder, entry: Field): Parts {
    if !entry.value.Str? then Failure(TypeError)
    else
      match decode(entry.value.s)
      case DecodeError => Success([DecodeErrorPart(entry.key)])
      case Decoded(data) =>
        if data.Object? then Then(Success([HostLine(entry.key)]), FlatMap(data.fields, ScanTypeParts))
        else Failure(AttributeError)
  }

  function HostPartsWith(decode: Decoder): Field -> Parts {
    entry => HostParts(decode, entry)
  }

  /** The OWASP section: every host of `scan_results['owasp']`, when the key is present. */
  function OwaspSection(scan: seq<Field>, decode: Decoder): Parts {
    match Lookup(scan, "owasp")
    case None => Success([])
    case Some(owasp) =>
      if owasp.Object? then FlatMap(owasp.fields, HostPartsWith(decode)) else Failure(AttributeError)
  }

  /** `', '.join(items)`: every item must be a string. */
  function JoinItems(items: seq<Json>): Result<string, Raised> {
    if forall i :: 0 <= i < |items| ==> items[i].Str? then
      Success(Join(seq(|items|, i requires 0 <= i < |items| => items[i].s), ", "))
    else Failure(TypeError)
  }

  const SubdomainsHeading := "\nSubdomains: "
  const SitemapsHeading := "\nSitemaps: "

  /** The `Subdomains` or `Sitemaps` line, added only when the key holds a list. */
  function ListSection(scan: seq<Field>, key: string, heading: string): Parts {
    match Lookup(scan, key)
    case Some(Array(items)) =>
      (match JoinItems(items)
       case Failure(e) => Failure(e)
       case Success(joined) => Success([heading + joined]))
    case _ => Success([])
  }

  /** One host of the `vulnerabilities` dict: two lines when its value is a list, nothing otherwise. */
  function VulnerableHostParts(entry: Field): Parts {
    if entry.value.Array? then
      match JoinItems(entry.value.items)
      case Failure(e) => Failure(e)
      case Success(urls) => Success(["  Host: " + entry.key, "  URLs: " + urls])
    else Success([])
  }

  /** The vulnerabilities section: its header whenever the key holds a dict, then its hosts. */
  function VulnerabilitiesSection(scan: seq<Field>): Parts {
    match Lookup(scan, "vulnerabilities")
    case Some(Object(hosts)) => Then(Success([VulnerabilitiesHeader]), FlatMap(hosts, VulnerableHostParts))
    case _ => Success([])
  }

  /** All text parts, section by section in their fixed order. */
  function TextParts(scan: seq<Field>, decode: Decoder): Parts {
    Then(OwaspSection(scan, decode),
    Then(ListSection(scan, "subdomains", SubdomainsHeading),
    Then(ListSection(scan, "sitemaps", SitemapsHeading),
         VulnerabilitiesSection(scan))))
  }

  /** What `_convert_scan_results_to_text` returns, or the exception it raises. */
  function ScanResultsToText(scan: seq<Field>, decode: Decoder): Result<string, Raised> {
    match TextParts(scan, decode)
    case Failure(e) => Failure(e)
    case Success(parts) => Success(Join(parts, PartSeparator))
  }

  /** Once one element raises, the whole run raises the same exception. */
  lemma {:induction false} FlatMapStopsAt<T>(xs: seq<T>, i: nat, f: T -> Parts)
    requires i < |xs| && FlatMap(xs[..i], f).Success? && f(xs[i]).Failure?
    ensures FlatMap(xs, f) == Failure(f(xs[i]).error)
    decreases |xs|
  {
    var init := xs[..|xs| - 1];
    if i == |xs| - 1 {
      assert init == xs[..i];
    } else {
      assert init[..i] == xs[..i] && init[i] == xs[i];
      FlatMapStopsAt(init, i, f);
    }
  }

  lemma ConcatAssoc(a: seq<string>, b: seq<string>, c: seq<string>)
    ensures a + b + c == a + (b + c)
  {
  }

  lemma FlatMapStep<T>(xs: seq<T>, i: nat, f: T -> Parts)
    requires i < |xs|
    ensures FlatMap(xs[..i + 1], f) == Then(FlatMap(xs[..i], f), f(xs[i]))
  {
    assert xs[..i + 1][..i] == xs[..i];
  }

  /** The loop over one scan type's alerts: five lines per alert, appended to `textParts`. */
  method AppendAlerts(textParts: seq<string>, alerts: seq<Json>) returns (r: Parts)
    ensures r == Then(Success(textParts), FlatMap(alerts, AlertParts))
  {
    var parts := textParts;
    var k := 0;
    while k < |alerts|
      invariant 0 <= k <= |alerts|
      invariant FlatMap(alerts[..k], AlertParts).Success?
      invariant parts == textParts + FlatMap(alerts[..k], AlertParts).value
    {
      FlatMapStep(alerts, k, AlertParts);
      if !alerts[k].Object? {
        FlatMapStopsAt(alerts, k, AlertParts);
        return Failure(AttributeError);
      }
      var alert := alerts[k].fields;
      var alertName := AlertField(alert, "alert");
      var riskLevel := AlertField(alert, "risk");
      var url := AlertField(alert, "url");
      var description := AlertField(alert, "description");
      var solution := AlertField(alert, "solution");
      ghost var done := FlatMap(alerts[..k], AlertParts).value;
      var lines := [
        "  Alert: " + alertName,
        "  Risk: " + riskLevel,
        "  URL: " + url,
        "  Description: " + description,
        "  Solution: " + solution
      ];
      assert AlertParts(alerts[k]) == Success(lines);
      parts := parts + lines;
      ConcatAssoc(textParts, done, lines);
      k := k + 1;
    }
    assert alerts[..k] == alerts;
    r := Success(parts);
  }

  /** One scan type of a host: its header and its alerts when its value is a list. */
  method AppendScanType(textParts: seq<string>, entry: Field) returns (r: Parts)
    ensures r == Then(Success(textParts), ScanTypeParts(entry))
  {
    var scanType, alertList := entry.key, entry.value;
    if !alertList.Array? {
      assert textParts + [] == textParts;
      return Success(textParts);
    }
    var header := [ScanTypeHeader(scanType)];
    r := AppendAlerts(textParts + header, alertList.items);
    if r.Success? {
      ConcatAssoc(textParts, header, FlatMap(alertList.items, AlertParts).value);
    }
  }

  /** The loop over the scan types of one host. */
  method AppendScanTypes(textParts: seq<string>, scanTypes: seq<Field>) returns (r: Parts)
    ensures r == Then(Success(textParts), FlatMap(scanTypes, ScanTypeParts))
  {
    var parts := textParts;
    var j := 0;
    while j < |scanTypes|
      invariant 0 <= j <= |scanTypes|
      invariant FlatMap(scanTypes[..j], ScanTypeParts).Success?
      invariant parts == textParts + FlatMap(scanTypes[..j], ScanTypeParts).value
    {
      FlatMapStep(scanTypes, j, ScanTypeParts);
      ghost var done := FlatMap(scanTypes[..j], ScanTypeParts).value;
      var withScanType := AppendScanType(parts, scanTypes[j]);
      if withScanType.Failure? {
        FlatMapStopsAt(scanTypes, j, ScanTypeParts);
        return Failure(withScanType.error);
      }
      ConcatAssoc(textParts, done, ScanTypeParts(scanTypes[j]).value);
      parts := withScanType.value;
      j := j + 1;
    }
    assert scanTypes[..j] == scanTypes;
    r := Success(parts);
  }

  /**
   * The `try` block for one host of the `owasp` dict: decode its alert
   * string, then append the host line and every scan type that holds a list.
   */
  method AppendHost(textParts: seq<string>, decode: Decoder, entry: Field) returns (r: Parts)
    ensures r == Then(Success(textParts), HostParts(decode, entry))
  {
    var host, alertStr := entry.key, entry.value;
    if !alertStr.Str? {
      return Failure(TypeError);
    }
    match decode(alertStr.s) {
      case DecodeError =>
        return Success(textParts + [DecodeErrorPart(host)]);
      case Decoded(alertData) =>
        if !alertData.Object? {
          return Failure(AttributeError);
        }
        r := AppendScanTypes(textParts + [HostLine(host)], alertData.fields);
        if r.Success? {
          ConcatAssoc(textParts, [HostLine(host)], FlatMap(alertData.fields, ScanTypeParts).value);
        }
    }
  }

  /** The loop over the hosts of the `owasp` dict. */
  method AppendOwaspHosts(textParts: seq<string>, decode: Decoder, owaspAlerts: seq<Field>) returns (r: Parts)
    ensures r == Then(Success(textParts), FlatMap(owaspAlerts, HostPartsWith(decode)))
  {
    var parts := textParts;
    var i := 0;
    while i < |owaspAlerts|
      invariant 0 <= i <= |owaspAlerts|
      invariant FlatMap(owaspAlerts[..i], HostPartsWith(decode)).Success?
      invariant parts == textParts + FlatMap(owaspAlerts[..i], HostPartsWith(decode)).value
    {
      FlatMapStep(owaspAlerts, i, HostPartsWith(decode));
      assert HostPartsWith(decode)(owaspAlerts[i]) == HostParts(decode, owaspAlerts[i]);
      ghost var done := FlatMap(owaspAlerts[..i], HostPartsWith(decode)).value;
      var withHost := AppendHost(parts, decode, owaspAlerts[i]);
      if withHost.Failure? {
        FlatMapStopsAt(owaspAlerts, i, HostPartsWith(decode));
        return Failure(withHost.error);
      }
      ConcatAssoc(textParts, done, HostParts(decode, owaspAlerts[i]).value);
      parts := withHost.value;
      i := i + 1;
    }
    assert owaspAlerts[..i] == owaspAlerts;
    r := Success(parts);
  }

  /** The loop over the hosts of the `vulnerabilities` dict: two lines for each host whose value is a list. */
  method AppendVulnerableHosts(textParts: seq<string>, hosts: seq<Field>) returns (r: Parts)
    ensures r == Then(Success(textParts), FlatMap(hosts, VulnerableHostParts))
  {
    var parts := textParts;
    var i := 0;
    while i < |hosts|
      invariant 0 <= i <= |hosts|
      invariant FlatMap(hosts[..i], VulnerableHostParts).Success?
      invariant parts == textParts + FlatMap(hosts[..i], VulnerableHostParts).value
    {
      FlatMapStep(hosts, i, VulnerableHostParts);
      ghost var done := FlatMap(hosts[..i], VulnerableHostParts).value;
      var host, urls := hosts[i].key, hosts[i].value;
      if urls.Array? {
        var joined := JoinItems(urls.items);
        if joined.Failure? {
          FlatMapStopsAt(hosts, i, VulnerableHostParts);
          return Failure(joined.error);
        }
        var lines := ["  Host: " + host, "  URLs: " + joined.value];
        assert VulnerableHostParts(hosts[i]) == Success(lines);
        parts := parts + lines;
        ConcatAssoc(textParts, done, lines);
      } else {
        assert VulnerableHostParts(hosts[i]) == Success([]);
        assert done + [] == done;
      }
      i := i + 1;
    }
    assert hosts[..i] == hosts;
    r := Success(parts);
  }

  /**
   * `_convert_scan_results_to_text`: walks the sections in order, appending
   * text parts, and joins them once at the end.
   */
  method ConvertScanResultsToText(scanResults: seq<Field>, decode: Decoder) returns (r: Result<string, Raised>)
    ensures r == ScanResultsToText(scanResults, decode)
  {
    var textParts: seq<string> := [];

    var owasp := Lookup(scanResults, "owasp");
    if owasp.Some? {
      if !owasp.value.Object? {
        return Failure(AttributeError);
      }
      var withOwasp := AppendOwaspHosts(textParts, decode, owasp.value.fields);
      if withOwasp.Failure? {
        return Failure(withOwasp.error);
      }
      assert [] + FlatMap(owasp.value.fields, HostPartsWith(decode)).value
          == FlatMap(owasp.value.fields, HostPartsWith(decode)).value;
      textParts := withOwasp.value;
    }
    assert OwaspSection(scanResults, decode) == Success(textParts);
    ghost var owaspParts := textParts;

    ghost var subdomainLines: seq<string> := [];
    var subdomains := Lookup(scanResults, "subdomains");
    if subdomains.Some? && subdomains.value.Array? {
      var joined := JoinItems(subdomains.value.items);
      if joined.Failure? {
        return Failure(joined.error);
      }
      textParts := textParts + [SubdomainsHeading + joined.value];
      subdomainLines := [SubdomainsHeading + joined.value];
    }
    assert ListSection(scanResults, "subdomains", SubdomainsHeading) == Success(subdomainLines);

    ghost var sitemapLines: seq<string> := [];
    var sitemaps := Lookup(scanResults, "sitemaps");
    if sitemaps.Some? && sitemaps.value.Array? {
      var joined := JoinItems(sitemaps.value.items);
      if joined.Failure? {
        assert TextParts(scanResults, decode) == Failure(joined.error);
        return Failure(joined.error);
      }
      textParts := textParts + [SitemapsHeading + joined.value];
      sitemapLines := [SitemapsHeading + joined.value];
    }
    assert ListSection(scanResults, "sitemaps", SitemapsHeading) == Success(sitemapLines);
    ghost var sitemapParts := textParts;
    assert sitemapParts == owaspParts + subdomainLines + sitemapLines;

    ghost var vulnerabilityLines: seq<string> := [];
    var vulnerabilities := Lookup(scanResults, "vulnerabilities");
    if vulnerabilities.Some? && vulnerabilities.value.Object? {
      var hosts := vulnerabilities.value.fields;
      var withHosts := AppendVulnerableHosts(textParts + [VulnerabilitiesHeader], hosts);
      if withHosts.Failure? {
        assert VulnerabilitiesSection(scanResults).Failure?;
        return Failure(withHosts.error);
      }
      vulnerabilityLines := [VulnerabilitiesHeader] + FlatMap(hosts, VulnerableHostParts).value;
      ConcatAssoc(textParts, [VulnerabilitiesHeader], FlatMap(hosts, VulnerableHostParts).value);
      textParts := withHosts.value;
    }
    assert VulnerabilitiesSection(scanResults) == Success(vulnerabilityLines);
    assert textParts == sitemapParts + vulnerabilityLines;
    ConcatAssoc(owaspParts, subdomainLines, sitemapLines);
    ConcatAssoc(owaspParts, subdomainLines + sitemapLines, vulnerabilityLines);
    ConcatAssoc(subdomainLines, sitemapLines, vulnerabilityLines);
    assert TextParts(scanResults, decode) == Success(textParts);

    r := Success(Join(textParts, PartSeparator));
  }

  // Properties of the conversion

  lemma ThenAssoc(a: Parts, b: Parts, c: Parts)
    ensures Then(Then(a, b), c) == Then(a, Then(b, c))
  {
    if a.Success? && b.Success? && c.Success? {
      ConcatAssoc(a.value, b.value, c.value);
    }
  }

  /** Running over two lists one after the other is running over their concatenation. */
  lemma {:induction false} FlatMapAppend<T>(xs: seq<T>, ys: seq<T>, f: T -> Parts)
    ensures FlatMap(xs + ys, f) == Then(FlatMap(xs, f), FlatMap(ys, f))
    decreases |ys|
  {
    if ys == [] {
      assert xs + ys == xs;
      if FlatMap(xs, f).Success? {
        assert FlatMap(xs, f).value + [] == FlatMap(xs, f).value;
      }
    } else {
      var init := ys[..|ys| - 1];
      assert (xs + ys)[..|xs + ys| - 1] == xs + init;
      assert (xs + ys)[|xs + ys| - 1] == ys[|ys| - 1];
      FlatMapAppend(xs, init, f);
      ThenAssoc(FlatMap(xs, f), FlatMap(init, f), f(ys[|ys| - 1]));
    }
  }

  /** The run succeeds exactly when every element succeeds. */
  lemma {:induction false} FlatMapSucceeds<T>(xs: seq<T>, f: T -> Parts)
    ensures FlatMap(xs, f).Success? <==> forall i :: 0 <= i < |xs| ==> f(xs[i]).Success?
    decreases |xs|
  {
    if xs != [] {
      var init := xs[..|xs| - 1];
      FlatMapSucceeds(init, f);
      assert forall i :: 0 <= i < |init| ==> init[i] == xs[i];
    }
  }

  /**
   * When every element gives `n` parts, the run gives `n` parts per element,
   * element after element: part `m` of element `i` is line `n * i + m`.
   */
  lemma {:induction false} FlatMapUniform<T>(xs: seq<T>, f: T -> Parts, n: nat)
    requires forall i :: 0 <= i < |xs| ==> f(xs[i]).Success? && |f(xs[i]).value| == n
    ensures FlatMap(xs, f).Success?
    ensures |FlatMap(xs, f).value| == n * |xs|
    ensures forall i, m :: 0 <= i < |xs| && 0 <= m < n && n * i + m < |FlatMap(xs, f).value| ==>
              FlatMap(xs, f).value[n * i + m] == f(xs[i]).value[m]
    decreases |xs|
  {
    if xs != [] {
      var last := |xs| - 1;
      var init := xs[..last];
      assert forall i :: 0 <= i < |init| ==> init[i] == xs[i];
      FlatMapUniform(init, f, n);
      var before := FlatMap(init, f).value;
      var r := FlatMap(xs, f).value;
      assert r == before + f(xs[last]).value;
      forall i, m | 0 <= i < |xs| && 0 <= m < n && n * i + m < |r|
        ensures r[n * i + m] == f(xs[i]).value[m]
      {
        UniformIndex(n, i, m, last);
        if i < last {
          assert r[n * i + m] == before[n * i + m];
        } else {
          assert r[n * i + m] == f(xs[last]).value[m];
        }
      }
    }
  }

  /** Where line `n * i + m` falls when the last element starts at line `n * last`. */
  lemma UniformIndex(n: nat, i: nat, m: nat, last: nat)
    requires i <= last && m < n
    ensures i < last ==> n * i + m < n * last
    ensures i == last ==> n * i + m == n * last + m
  {
    if i < last {
      assert n * i + n == n * (i + 1);
      assert n * (i + 1) <= n * last by {
        MulMonotone(n, i + 1, last);
      }
    }
  }

  lemma MulMonotone(n: nat, a: nat, b: nat)
    requires a <= b
    ensures n * a <= n * b
  {
  }

  /**
   * The alerts of a scan type: five lines per alert, in the order Alert,
   * Risk, URL, Description, Solution; and an alert that is not a dict raises.
   */
  lemma AlertsGiveFiveLines(alerts: seq<Json>)
    ensures FlatMap(alerts, AlertParts).Success? <==> forall i :: 0 <= i < |alerts| ==> alerts[i].Object?
    ensures FlatMap(alerts, AlertParts).Failure? ==> FlatMap(alerts, AlertParts).error == AttributeError
    ensures FlatMap(alerts, AlertParts).Success? ==>
              var lines := FlatMap(alerts, AlertParts).value;
              && |lines| == 5 * |alerts|
              && forall i :: 0 <= i < |alerts| ==> AlertLinesAt(lines, i, alerts[i].fields)
  {
    forall i | 0 <= i < |alerts|
      ensures alerts[i].Object? ==> AlertParts(alerts[i]).Success?
      ensures !alerts[i].Object? ==> AlertParts(alerts[i]) == Failure(AttributeError)
    {
      AlertPartsShape(alerts[i]);
    }
    FlatMapSucceeds(alerts, AlertParts);
    if forall i :: 0 <= i < |alerts| ==> alerts[i].Object? {
      FiveLinesEach(alerts);
    } else {
      FlatMapFailsWithFirst(alerts, AlertParts, AttributeError);
    }
  }

  lemma FiveLinesEach(alerts: seq<Json>)
    requires forall i :: 0 <= i < |alerts| ==> alerts[i].Object?
    ensures FlatMap(alerts, AlertParts).Success?
    ensures |FlatMap(alerts, AlertParts).value| == 5 * |alerts|
    ensures forall i :: 0 <= i < |alerts| ==> AlertLinesAt(FlatMap(alerts, AlertParts).value, i, alerts[i].fields)
  {
    forall i | 0 <= i < |alerts|
      ensures AlertParts(alerts[i]).Success? && |AlertParts(alerts[i]).value| == 5
    {
      AlertPartsShape(alerts[i]);
    }
    FlatMapUniform(alerts, AlertParts, 5);
    forall i | 0 <= i < |alerts|
      ensures AlertLinesAt(FlatMap(alerts, AlertParts).value, i, alerts[i].fields)
    {
      AlertLinesFromUniform(alerts, i);
    }
  }

  /** The five lines of one alert, starting at line `5 * i`. */
  predicate AlertLinesAt(lines: seq<string>, i: int, alert: seq<Field>) {
    && 0 <= 5 * i && 5 * i + 4 < |lines|
    && lines[5 * i] == "  Alert: " + AlertField(alert, "alert")
    && lines[5 * i + 1] == "  Risk: " + AlertField(alert, "risk")
    && lines[5 * i + 2] == "  URL: " + AlertField(alert, "url")
    && lines[5 * i + 3] == "  Description: " + AlertField(alert, "description")
    && lines[5 * i + 4] == "  Solution: " + AlertField(alert, "solution")
  }

  lemma AlertLinesFromUniform(alerts: seq<Json>, i: int)
    requires 0 <= i < |alerts|
    requires forall k :: 0 <= k < |alerts| ==> alerts[k].Object?
    requires FlatMap(alerts, AlertParts).Success? && |FlatMap(alerts, AlertParts).value| == 5 * |alerts|
    requires forall k, m :: 0 <= k < |alerts| && 0 <= m < 5 && 5 * k + m < |FlatMap(alerts, AlertParts).value| ==>
               FlatMap(alerts, AlertParts).value[5 * k + m] == AlertParts(alerts[k]).value[m]
    ensures AlertLinesAt(FlatMap(alerts, AlertParts).value, i, alerts[i].fields)
  {
    var lines := FlatMap(alerts, AlertParts).value;
    var own := AlertParts(alerts[i]).value;
    assert lines[5 * i + 0] == own[0];
    assert lines[5 * i + 1] == own[1];
    assert lines[5 * i + 2] == own[2];
    assert lines[5 * i + 3] == own[3];
    assert lines[5 * i + 4] == own[4];
  }

  /** When every element that raises raises `e`, a run that raises raises `e`. */
  lemma {:induction false} FlatMapFailsWithFirst<T>(xs: seq<T>, f: T -> Parts, e: Raised)
    requires forall i :: 0 <= i < |xs| ==> f(xs[i]).Failure? ==> f(xs[i]).error == e
    ensures FlatMap(xs, f).Failure? ==> FlatMap(xs, f).error == e
    decreases |xs|
  {
    if xs != [] {
      var init := xs[..|xs| - 1];
      assert forall i :: 0 <= i < |init| ==> init[i] == xs[i];
      FlatMapFailsWithFirst(init, f, e);
    }
  }

  /** The entries whose value is a list, in order. */
  function ListValued(entries: seq<Field>): (r: seq<Field>)
    ensures forall i :: 0 <= i < |r| ==> r[i].value.Array?
    ensures |r| <= |entries|
    decreases |entries|
  {
    if entries == [] then []
    else
      var init := ListValued(entries[..|entries| - 1]);
      if entries[|entries| - 1].value.Array? then init + [entries[|entries| - 1]] else init
  }

  /** Entries whose value is not a list add nothing: only the list-valued ones are rendered. */
  lemma {:induction false} OnlyListsRender(entries: seq<Field>, f: Field -> Parts)
    requires forall e: Field :: !e.value.Array? ==> f(e) == Success([])
    ensures FlatMap(entries, f) == FlatMap(ListValued(entries), f)
    decreases |entries|
  {
    if entries != [] {
      var init := entries[..|entries| - 1];
      var last := entries[|entries| - 1];
      OnlyListsRender(init, f);
      if last.value.Array? {
        var l := ListValued(init) + [last];
        assert l[..|l| - 1] == ListValued(init);
      } else if FlatMap(init, f).Success? {
        assert FlatMap(init, f).value + [] == FlatMap(init, f).value;
      }
    }
  }

  /** A scan type whose value is not a list adds nothing to its host's lines. */
  lemma ScanTypesOnlyLists(scanTypes: seq<Field>)
    ensures FlatMap(scanTypes, ScanTypeParts) == FlatMap(ListValued(scanTypes), ScanTypeParts)
  {
    OnlyListsRender(scanTypes, ScanTypeParts);
  }

  /**
   * A host whose alert string fails to decode contributes exactly its one
   * error line, and the hosts after it are still rendered.
   */
  lemma DecodeErrorIsolated(before: seq<Field>, host: string, alertStr: string, after: seq<Field>, decode: Decoder)
    requires decode(alertStr) == DecodeError
    ensures FlatMap(before + [Field(host, Str(alertStr))] + after, HostPartsWith(decode))
            == Then(FlatMap(before, HostPartsWith(decode)),
               Then(Success([DecodeErrorPart(host)]), FlatMap(after, HostPartsWith(decode))))
  {
    var f := HostPartsWith(decode);
    var entry := Field(host, Str(alertStr));
    assert f(entry) == Success([DecodeErrorPart(host)]);
    assert FlatMap([entry], f) == Success([DecodeErrorPart(host)]) by {
      assert [entry][..0] == [];
      assert [] + [DecodeErrorPart(host)] == [DecodeErrorPart(host)];
    }
    FlatMapAppend(before + [entry], after, f);
    FlatMapAppend(before, [entry], f);
    ThenAssoc(FlatMap(before, f), FlatMap([entry], f), FlatMap(after, f));
  }

  /** A host whose alert string decodes to a dict starts with its host line, then its list-valued scan types. */
  lemma DecodedHostLines(decode: Decoder, host: string, alertStr: string, scanTypes: seq<Field>)
    requires decode(alertStr) == Decoded(Object(scanTypes))
    ensures HostParts(decode, Field(host, Str(alertStr)))
            == Then(Success([HostLine(host)]), FlatMap(ListValued(scanTypes), ScanTypeParts))
  {
    ScanTypesOnlyLists(scanTypes);
  }

  /**
   * The vulnerabilities section of a dict value: the header, even for an
   * empty dict, then two lines (Host, URLs) per host whose value is a list.
   */
  lemma VulnerabilitiesLines(scan: seq<Field>, hosts: seq<Field>)
    requires Lookup(scan, "vulnerabilities") == Some(Object(hosts))
    requires forall i :: 0 <= i < |hosts| && hosts[i].value.Array? ==> JoinItems(hosts[i].value.items).Success?
    ensures VulnerabilitiesSection(scan).Success?
    ensures |VulnerabilitiesSection(scan).value| == 1 + 2 * |ListValued(hosts)|
    ensures VulnerabilitiesSection(scan).value[0] == VulnerabilitiesHeader
    ensures forall i :: 0 <= i < |ListValued(hosts)| ==>
              VulnerabilitiesSection(scan).value[1 + 2 * i] == "  Host: " + ListValued(hosts)[i].key
    ensures forall i :: 0 <= i < |ListValued(hosts)| ==>
              JoinItems(ListValued(hosts)[i].value.items).Success? &&
              VulnerabilitiesSection(scan).value[2 + 2 * i] == "  URLs: " + JoinItems(ListValued(hosts)[i].value.items).value
  {
    var listed := ListValued(hosts);
    assert FlatMap(hosts, VulnerableHostParts) == FlatMap(listed, VulnerableHostParts) by {
      OnlyListsRender(hosts, VulnerableHostParts);
    }
    HostLinesEach(hosts);
    var lines := FlatMap(listed, VulnerableHostParts).value;
    assert VulnerabilitiesSection(scan) == Success([VulnerabilitiesHeader] + lines);
    var section := [VulnerabilitiesHeader] + lines;
    forall i | 0 <= i < |listed|
      ensures section[1 + 2 * i] == "  Host: " + listed[i].key
      ensures JoinItems(listed[i].value.items).Success?
      ensures section[2 + 2 * i] == "  URLs: " + JoinItems(listed[i].value.items).value
    {
      assert section[1 + 2 * i] == lines[2 * i];
      assert section[2 + 2 * i] == lines[2 * i + 1];
    }
  }

  /** Each list-valued host gives its Host line and then its URLs line, host after host. */
  lemma HostLinesEach(hosts: seq<Field>)
    requires forall i :: 0 <= i < |hosts| && hosts[i].value.Array? ==> JoinItems(hosts[i].value.items).Success?
    ensures FlatMap(ListValued(hosts), VulnerableHostParts).Success?
    ensures |FlatMap(ListValued(hosts), VulnerableHostParts).value| == 2 * |ListValued(hosts)|
    ensures forall i :: 0 <= i < |ListValued(hosts)| ==>
              FlatMap(ListValued(hosts), VulnerableHostParts).value[2 * i] == "  Host: " + ListValued(hosts)[i].key
    ensures forall i :: 0 <= i < |ListValued(hosts)| ==>
              JoinItems(ListValued(hosts)[i].value.items).Success? &&
              FlatMap(ListValued(hosts), VulnerableHostParts).value[2 * i + 1]
              == "  URLs: " + JoinItems(ListValued(hosts)[i].value.items).value
  {
    var listed := ListValued(hosts);
    forall i | 0 <= i < |listed|
      ensures VulnerableHostParts(listed[i]).Success? && |VulnerableHostParts(listed[i]).value| == 2
      ensures VulnerableHostParts(listed[i]).value[0] == "  Host: " + listed[i].key
      ensures JoinItems(listed[i].value.items).Success?
      ensures VulnerableHostParts(listed[i]).value[1] == "  URLs: " + JoinItems(listed[i].value.items).value
    {
      ListValuedFrom(hosts, i);
    }
    FlatMapUniform(listed, VulnerableHostParts, 2);
    var lines := FlatMap(listed, VulnerableHostParts).value;
    forall i | 0 <= i < |listed|
      ensures lines[2 * i] == "  Host: " + listed[i].key
      ensures lines[2 * i + 1] == "  URLs: " + JoinItems(listed[i].value.items).value
    {
      assert lines[2 * i + 0] == VulnerableHostParts(listed[i]).value[0];
      assert lines[2 * i + 1] == VulnerableHostParts(listed[i]).value[1];
    }
  }

  /** Every entry that `ListValued` keeps comes from the original entries. */
  lemma {:induction false} ListValuedFrom(entries: seq<Field>, i: nat)
    requires i < |ListValued(entries)|
    ensures exists j :: 0 <= j < |entries| && entries[j] == ListValued(entries)[i]
    decreases |entries|
  {
    var init := entries[..|entries| - 1];
    if i < |ListValued(init)| {
      ListValuedFrom(init, i);
      var j :| 0 <= j < |init| && init[j] == ListValued(init)[i];
      assert entries[j] == init[j];
    } else {
      assert ListValued(entries)[i] == entries[|entries| - 1];
    }
  }

  /** No text part is the empty string. */
  predicate NoEmptyPart(parts: seq<string>) {
    forall i :: 0 <= i < |parts| ==> parts[i] != ""
  }

  lemma {:induction false} FlatMapNoEmptyPart<T>(xs: seq<T>, f: T -> Parts)
    requires forall i :: 0 <= i < |xs| && f(xs[i]).Success? ==> NoEmptyPart(f(xs[i]).value)
    ensures FlatMap(xs, f).Success? ==> NoEmptyPart(FlatMap(xs, f).value)
    decreases |xs|
  {
    if xs != [] {
      var init := xs[..|xs| - 1];
      assert forall i :: 0 <= i < |init| ==> init[i] == xs[i];
      FlatMapNoEmptyPart(init, f);
    }
  }

  /** An alert gives five non-empty lines when it is a dict, and raises otherwise. */
  lemma AlertPartsShape(alert: Json)
    ensures alert.Object? ==> AlertParts(alert).Success? && |AlertParts(alert).value| == 5
    ensures alert.Object? ==> NoEmptyPart(AlertParts(alert).value)
    ensures !alert.Object? ==> AlertParts(alert) == Failure(AttributeError)
  {
    if alert.Object? {
      var lines := AlertParts(alert).value;
      forall i | 0 <= i < 5 ensures lines[i] != "" {
        assert |lines[i]| > 0;
      }
    }
  }

  lemma ScanTypePartsNoEmptyPart(entry: Field)
    ensures ScanTypeParts(entry).Success? ==> NoEmptyPart(ScanTypeParts(entry).value)
  {
    if entry.value.Array? {
      var alerts := entry.value.items;
      forall i | 0 <= i < |alerts|
        ensures AlertParts(alerts[i]).Success? ==> NoEmptyPart(AlertParts(alerts[i]).value)
      {
        AlertPartsShape(alerts[i]);
      }
      FlatMapNoEmptyPart(alerts, AlertParts);
      var header := [ScanTypeHeader(entry.key)];
      if ScanTypeParts(entry).Success? {
        var lines := FlatMap(alerts, AlertParts).value;
        assert ScanTypeParts(entry).value == header + lines;
        assert header[0] != "";
      }
    }
  }

  lemma HostPartsNoEmptyPart(decode: Decoder, entry: Field)
    ensures HostParts(decode, entry).Success? ==>
              HostParts(decode, entry).value != [] && NoEmptyPart(HostParts(decode, entry).value)
  {
    if entry.value.Str? && decode(entry.value.s).Decoded? && decode(entry.value.s).value.Object? {
      var scanTypes := decode(entry.value.s).value.fields;
      forall i | 0 <= i < |scanTypes|
        ensures ScanTypeParts(scanTypes[i]).Success? ==> NoEmptyPart(ScanTypeParts(scanTypes[i]).value)
      {
        ScanTypePartsNoEmptyPart(scanTypes[i]);
      }
      FlatMapNoEmptyPart(scanTypes, ScanTypeParts);
    }
  }

  /** The OWASP section is empty exactly when the key is missing or holds an empty dict. */
  lemma OwaspSectionEmpty(scan: seq<Field>, decode: Decoder)
    ensures OwaspSection(scan, decode).Success? ==> NoEmptyPart(OwaspSection(scan, decode).value)
    ensures OwaspSection(scan, decode) == Success([])
            <==> Lookup(scan, "owasp") == None || Lookup(scan, "owasp") == Some(Object([]))
  {
    var owasp := Lookup(scan, "owasp");
    if owasp.Some? && owasp.value.Object? {
      var hosts := owasp.value.fields;
      var f := HostPartsWith(decode);
      forall i | 0 <= i < |hosts|
        ensures f(hosts[i]).Success? ==> f(hosts[i]).value != [] && NoEmptyPart(f(hosts[i]).value)
      {
        HostPartsNoEmptyPart(decode, hosts[i]);
      }
      FlatMapNoEmptyPart(hosts, f);
      if hosts != [] && FlatMap(hosts, f).Success? {
        var init := hosts[..|hosts| - 1];
        assert FlatMap(hosts, f).value == FlatMap(init, f).value + f(hosts[|hosts| - 1]).value;
      }
    }
  }

  lemma VulnerabilitiesSectionNoEmptyPart(scan: seq<Field>)
    ensures VulnerabilitiesSection(scan).Success? ==> NoEmptyPart(VulnerabilitiesSection(scan).value)
  {
    if Lookup(scan, "vulnerabilities").Some? && Lookup(scan, "vulnerabilities").value.Object? {
      FlatMapNoEmptyPart(Lookup(scan, "vulnerabilities").value.fields, VulnerableHostParts);
    }
  }

  /** The dict holds nothing the conversion renders. */
  predicate NothingToReport(scan: seq<Field>) {
    && (Lookup(scan, "owasp") == None || Lookup(scan, "owasp") == Some(Object([])))
    && !(Lookup(scan, "subdomains").Some? && Lookup(scan, "subdomains").value.Array?)
    && !(Lookup(scan, "sitemaps").Some? && Lookup(scan, "sitemaps").value.Array?)
    && !(Lookup(scan, "vulnerabilities").Some? && Lookup(scan, "vulnerabilities").value.Object?)
  }

  /**
   * The text is the empty string exactly when no section applies: no OWASP
   * host, no subdomains or sitemaps list and no vulnerabilities dict.
   */
  lemma EmptyTextIff(scan: seq<Field>, decode: Decoder)
    ensures ScanResultsToText(scan, decode) == Success("") <==> NothingToReport(scan)
  {
    OwaspSectionEmpty(scan, decode);
    VulnerabilitiesSectionNoEmptyPart(scan);
    var o := OwaspSection(scan, decode);
    var sub := ListSection(scan, "subdomains", SubdomainsHeading);
    var site := ListSection(scan, "sitemaps", SitemapsHeading);
    var v := VulnerabilitiesSection(scan);
    if o.Success? && sub.Success? && site.Success? && v.Success? {
      var parts := o.value + (sub.value + (site.value + v.value));
      assert TextParts(scan, decode) == Success(parts);
      assert NoEmptyPart(parts) by {
        forall i | 0 <= i < |parts| ensures parts[i] != "" {
          if i >= |o.value| + |sub.value| + |site.value| {
            assert parts[i] == v.value[i - |o.value| - |sub.value| - |site.value|];
          }
        }
      }
      JoinEmptyIff(parts, PartSeparator);
    }
  }

  /** `[Str(s) for s in strings]`. */
  function Strs(strings: seq<string>): (r: seq<Json>)
    ensures |r| == |strings| && forall i :: 0 <= i < |r| ==> r[i] == Str(strings[i])
  {
    seq(|strings|, i requires 0 <= i < |strings| => Str(strings[i]))
  }

  lemma JoinStrs(strings: seq<string>)
    ensures JoinItems(Strs(strings)) == Success(Join(strings, ", "))
  {
    var items := Strs(strings);
    assert seq(|items|, i requires 0 <= i < |items| => items[i].s) == strings;
  }

  /** A key holding a list of strings gives one line: the heading, then the strings joined by ", ". */
  lemma ListSectionLine(scan: seq<Field>, key: string, heading: string, strings: seq<string>)
    requires Lookup(scan, key) == Some(Array(Strs(strings)))
    ensures ListSection(scan, key, heading) == Success([heading + Join(strings, ", ")])
  {
    JoinStrs(strings);
  }

  /** `', '.join` raises TypeError exactly when some item is not a string. */
  lemma JoinItemsRaises(items: seq<Json>)
    ensures JoinItems(items).Failure? <==> exists i :: 0 <= i < |items| && !items[i].Str?
    ensures JoinItems(items).Failure? ==> JoinItems(items).error == TypeError
  {
  }

  /** A missing key, or a key whose value is not a list, adds no line. */
  lemma ListSectionAbsent(scan: seq<Field>, key: string, heading: string)
    requires !(Lookup(scan, key).Some? && Lookup(scan, key).value.Array?)
    ensures ListSection(scan, key, heading) == Success([])
  {
  }

  /** A list holding a non-string raises TypeError from the join. */
  lemma ListSectionRaises(scan: seq<Field>, key: string, heading: string, items: seq<Json>, i: int)
    requires Lookup(scan, key) == Some(Array(items))
    requires 0 <= i < |items| && !items[i].Str?
    ensures ListSection(scan, key, heading) == Failure(TypeError)
  {
    JoinItemsRaises(items);
  }

  /** A vulnerable host whose URL list holds a non-string raises TypeError from the join. */
  lemma VulnerableHostRaises(entry: Field, items: seq<Json>, i: int)
    requires entry.value == Array(items)
    requires 0 <= i < |items| && !items[i].Str?
    ensures VulnerableHostParts(entry) == Failure(TypeError)
  {
    JoinItemsRaises(items);
  }

  /** A missing `vulnerabilities` key, or one whose value is not a dict, adds nothing. */
  lemma VulnerabilitiesSectionAbsent(scan: seq<Field>)
    requires !(Lookup(scan, "vulnerabilities").Some? && Lookup(scan, "vulnerabilities").value.Object?)
    ensures VulnerabilitiesSection(scan) == Success([])
  {
  }

  /**
   * Sections come out in their fixed order whatever the order of the keys:
   * the OWASP parts, the Subdomains line, the Sitemaps line, then the
   * vulnerabilities parts.
   */
  lemma SubdomainsBeforeSitemaps(scan: seq<Field>, decode: Decoder, subdomains: seq<string>, sitemaps: seq<string>)
    requires OwaspSection(scan, decode).Success? && VulnerabilitiesSection(scan).Success?
    requires Lookup(scan, "subdomains") == Some(Array(Strs(subdomains)))
    requires Lookup(scan, "sitemaps") == Some(Array(Strs(sitemaps)))
    ensures TextParts(scan, decode)
            == Success(OwaspSection(scan, decode).value
                       + [SubdomainsHeading + Join(subdomains, ", "), SitemapsHeading + Join(sitemaps, ", ")]
                       + VulnerabilitiesSection(scan).value)
  {
    var a, b := SubdomainsHeading + Join(subdomains, ", "), SitemapsHeading + Join(sitemaps, ", ");
    ListSectionLine(scan, "subdomains", SubdomainsHeading, subdomains);
    ListSectionLine(scan, "sitemaps", SitemapsHeading, sitemaps);
    var o, v := OwaspSection(scan, decode).value, VulnerabilitiesSection(scan).value;
    assert o + ([a] + ([b] + v)) == o + [a, b] + v;
  }

  /**
   * With only subdomains and sitemaps to report, the text is the Subdomains
   * line, a blank line, then the Sitemaps line.
   */
  lemma SubdomainsAndSitemapsText(scan: seq<Field>, decode: Decoder, subdomains: seq<string>, sitemaps: seq<string>)
    requires Lookup(scan, "owasp") == None && Lookup(scan, "vulnerabilities") == None
    requires Lookup(scan, "subdomains") == Some(Array(Strs(subdomains)))
    requires Lookup(scan, "sitemaps") == Some(Array(Strs(sitemaps)))
    ensures ScanResultsToText(scan, decode)
            == Success(SubdomainsHeading + Join(subdomains, ", ") + "\n\n" + SitemapsHeading + Join(sitemaps, ", "))
  {
    SubdomainsBeforeSitemaps(scan, decode, subdomains, sitemaps);
    var a, b := SubdomainsHeading + Join(subdomains, ", "), SitemapsHeading + Join(sitemaps, ", ");
    assert TextParts(scan, decode) == Success([a, b]) by {
      assert [] + [a, b] + [] == [a, b];
    }
    assert [a, b][..1] == [a];
    assert Join([a, b], PartSeparator) == a + "\n\n" + b;
    assert a + "\n\n" + b
           == SubdomainsHeading + Join(subdomains, ", ") + "\n\n" + SitemapsHeading + Join(sitemaps, ", ");
  }

  /**
   * The heading of a scan type: a newline, the name with every underscore
   * shown as a space and title-cased, then a colon. Position `j` of the
   * heading shows character `j - 1` of the name.
   */
  lemma ScanTypeHeaderShape(scanType: string)
    ensures |ScanTypeHeader(scanType)| == |scanType| + 2
    ensures ScanTypeHeader(scanType)[0] == '\n' && ScanTypeHeader(scanType)[|scanType| + 1] == ':'
    ensures forall j :: 0 < j <= |scanType| ==> ScanTypeHeader(scanType)[j] != '_'
    ensures forall j :: 0 < j <= |scanType| && scanType[j - 1] == '_' ==> ScanTypeHeader(scanType)[j] == ' '
    ensures forall j :: 0 < j <= |scanType| && !IsCased(scanType[j - 1]) && scanType[j - 1] != '_' ==>
              ScanTypeHeader(scanType)[j] == scanType[j - 1]
    ensures forall j :: 0 < j <= |scanType| && IsCased(scanType[j - 1]) && (j == 1 || !IsCased(scanType[j - 2])) ==>
              ScanTypeHeader(scanType)[j] == ToUpper(scanType[j - 1])
    ensures forall j :: 1 < j <= |scanType| && IsCased(scanType[j - 1]) && IsCased(scanType[j - 2]) ==>
              ScanTypeHeader(scanType)[j] == ToLower(scanType[j - 1])
  {
    var spaced := Replace(scanType, '_', ' ');
    ReplaceAt(scanType, '_', ' ');
    var titled := Title(spaced);
    TitleAt(spaced);
    var h := ScanTypeHeader(scanType);
    assert h == "\n" + titled + ":";
    forall j | 0 < j <= |scanType|
      ensures h[j] == titled[j - 1]
      ensures IsCased(spaced[j - 1]) == IsCased(scanType[j - 1])
      ensures j > 1 ==> IsCased(spaced[j - 2]) == IsCased(scanType[j - 2])
      ensures TitledAt(spaced, titled, j - 1)
    {
    }
    forall j | 0 < j <= |scanType|
      ensures h[j] != '_'
    {
      var c := scanType[j - 1];
      assert TitledAt(spaced, titled, j - 1);
      if IsCased(c) {
        assert IsCased(titled[j - 1]);
      } else {
        assert titled[j - 1] == spaced[j - 1];
      }
    }
  }
}
