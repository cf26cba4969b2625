/**
 * ZoneGuardian's DNS inspection: one lookup per record type, each outcome
 * classified into a record list or a fixed sentinel string, then a small
 * rule table that turns "NoAnswer" sentinels into warnings.
 *
 * The DNS resolver is not modelled: it is an injected total function from
 * (domain, record type) to the outcome of one lookup.
 */
module DnsInspection {
  import opened Wrappers

  /** The record types `_resolve_records` queries, in the order it queries them. */
  const RecordTypes: seq<string> :=
    ["A", "AAAA", "AFSDB", "CAA", "CNAME", "MX", "NS", "SOA", "TXT",
     "PTR", "SRV", "SSHFP", "TLSA", "DS", "DNSKEY", "NSEC", "NSEC3"]

  /**
   * How one `resolver.resolve(domain, type)` call ends: with its answers
   * (already shown with `str`), with one of the DNS exceptions the scanner
   * distinguishes, with any other DNS exception, or with an exception that is
   * not a DNS exception at all.
   */
  datatype LookupOutcome =
    | Answers(answers: seq<string>)
    | NoAnswer
    | NXDomain
    | Timeout
    | DnsError(message: string)
    | OtherException(message: string)

  /** The injected resolver: (domain, record type) to the outcome of one lookup. */
  type Resolver = (string, string) -> LookupOutcome

  /** A value of the results dictionary: a list of answers or a string. */
  datatype RecordValue = Records(values: seq<string>) | Sentinel(text: string)

  const NoAnswerText := "NoAnswer"
  const NXDomainText := "NXDOMAIN (Domain does not exist)"
  const TimeoutText := "Timeout (Query timed out)"
  const ErrorPrefix := "Error: "

  /** An exception that no `except` clause catches; it ends the whole scan. */
  datatype Uncaught = Uncaught(message: string)

  /**
   * The `except` ladder as a table from outcome to dictionary value. Each
   * kind of outcome gets its own value, and only an exception that is not a
   * DNS exception escapes.
   */
  function Classify(o: LookupOutcome): (r: Result<RecordValue, Uncaught>)
    ensures r.Failure? <==> o.OtherException?
    ensures r.Success? && r.value.Records? <==> o.Answers?
    ensures o.Answers? ==> r == Success(Records(o.answers))
    ensures r == Success(Sentinel(NoAnswerText)) <==> o == NoAnswer
    ensures r == Success(Sentinel(NXDomainText)) <==> o == NXDomain
    ensures r == Success(Sentinel(TimeoutText)) <==> o == Timeout
  {
    match o
    case Answers(answers) => Success(Records(answers))
    case NoAnswer => Success(Sentinel(NoAnswerText))
    case NXDomain => Success(Sentinel(NXDomainText))
    case Timeout => Success(Sentinel(TimeoutText))
    case DnsError(message) =>
      assert (ErrorPrefix + message)[0] == 'E';
      Success(Sentinel(ErrorPrefix + message))
    case OtherException(message) => Failure(Uncaught(message))
  }

  /**
   * The two outcomes that carry a message: any other DNS exception is stored
   * as "Error: " followed by its message, and an exception that is not a DNS
   * exception escapes with its message.
   */
  lemma ClassifyMessages(o: LookupOutcome)
    ensures o.DnsError? ==> Classify(o) == Success(Sentinel(ErrorPrefix + o.message))
    ensures o.OtherException? ==> Classify(o) == Failure(Uncaught(o.message))
  {
  }

  /** No information is lost by the classification: different outcomes give different values. */
  lemma ClassifyInjective(o1: LookupOutcome, o2: LookupOutcome)
    requires Classify(o1) == Classify(o2)
    ensures o1 == o2
  {
    if o1.DnsError? && o2.DnsError? {
      var e1, e2 := ErrorPrefix + o1.message, ErrorPrefix + o2.message;
      assert e1 == e2;
      assert o1.message == e1[|ErrorPrefix|..] == e2[|ErrorPrefix|..] == o2.message;
    }
  }

  predicate Distinct(s: seq<string>) {
    forall i, j :: 0 <= i < j < |s| ==> s[i] != s[j]
  }

  /**
   * A Python dict from record type to value: its keys in insertion order and
   * the value stored under each.
   */
  datatype RecordTable = RecordTable(order: seq<string>, entries: map<string, RecordValue>)

  /** The keys in `order` are distinct and are exactly the keys of `entries`. */
  ghost predicate WellFormed(t: RecordTable) {
    Distinct(t.order) && forall k :: k in t.entries <==> k in t.order
  }

  const EmptyTable := RecordTable([], map[])

  /** `d[key] = value`: a new key goes to the end, an existing key keeps its place. */
  function Insert(t: RecordTable, key: string, value: RecordValue): (r: RecordTable)
    requires WellFormed(t)
    ensures WellFormed(r)
    ensures r.entries == t.entries[key := value]
    ensures r.order == if key in t.entries then t.order else t.order + [key]
  {
    if key in t.entries then RecordTable(t.order, t.entries[key := value])
    else RecordTable(t.order + [key], t.entries[key := value])
  }

  /** A well-formed table has one entry per key in its order. */
  lemma {:induction false} TableSize(t: RecordTable)
    requires WellFormed(t)
    ensures |t.entries| == |t.order|
    decreases |t.order|
  {
    if t.order != [] {
      var last := t.order[|t.order| - 1];
      var init := t.order[..|t.order| - 1];
      var smaller := RecordTable(init, t.entries - {last});
      assert last !in init by {
        forall i | 0 <= i < |init| ensures init[i] != last {
          assert init[i] == t.order[i];
        }
      }
      assert forall k :: k in t.order <==> k in init || k == last;
      TableSize(smaller);
      assert t.entries.Keys == smaller.entries.Keys + {last};
    }
  }

  lemma RecordTypesDistinct()
    ensures |RecordTypes| == 17 && Distinct(RecordTypes)
  {
  }

  /**
   * The position of the first record type whose lookup raises an exception
   * that is not a DNS exception, or `|types|` when there is none.
   */
  function FirstEscape(domain: string, resolve: Resolver, types: seq<string>): (k: nat)
    ensures k <= |types|
    ensures forall i :: 0 <= i < k ==> !resolve(domain, types[i]).OtherException?
    ensures k < |types| ==> resolve(domain, types[k]).OtherException?
    decreases |types|
  {
    if types == [] then 0
    else if resolve(domain, types[0]).OtherException? then 0
    else
      var k := 1 + FirstEscape(domain, resolve, types[1..]);
      assert forall i :: 0 < i < |types| ==> types[i] == types[1..][i - 1];
      k
  }

  /** Nothing escapes the scan of `domain` over `types`. */
  predicate Completes(domain: string, resolve: Resolver, types: seq<string>) {
    FirstEscape(domain, resolve, types) == |types|
  }

  /** The scan completes exactly when no lookup raises an exception that is not a DNS exception. */
  lemma CompletesIff(domain: string, resolve: Resolver, types: seq<string>)
    ensures Completes(domain, resolve, types)
            <==> forall i :: 0 <= i < |types| ==> !resolve(domain, types[i]).OtherException?
  {
  }

  /**
   * The dictionary a completed scan over `types` returns: every type, in list
   * order, with its classified outcome.
   */
  function ResolvedTable(domain: string, resolve: Resolver, types: seq<string>): (t: RecordTable)
    requires Completes(domain, resolve, types)
  {
    RecordTable(types, map t | t in types :: Classify(resolve(domain, t)).value)
  }

  /** Each record type of a completed scan holds its own classified outcome. */
  lemma ResolvedEntry(domain: string, resolve: Resolver, types: seq<string>, i: int)
    requires Completes(domain, resolve, types) && 0 <= i < |types|
    ensures types[i] in ResolvedTable(domain, resolve, types).entries
    ensures ResolvedTable(domain, resolve, types).entries[types[i]] == Classify(resolve(domain, types[i])).value
  {
  }

  /** The table of a completed scan has exactly the queried types as keys, each once, in query order. */
  lemma ResolvedTableKeys(domain: string, resolve: Resolver, types: seq<string>)
    requires Completes(domain, resolve, types) && Distinct(types)
    ensures WellFormed(ResolvedTable(domain, resolve, types))
    ensures ResolvedTable(domain, resolve, types).order == types
    ensures |ResolvedTable(domain, resolve, types).entries| == |types|
  {
    TableSize(ResolvedTable(domain, resolve, types));
  }

  /** The record types the warning rules look at are all queried. */
  predicate QueriesRuleTypes(types: seq<string>) {
    "MX" in types && "TXT" in types && "A" in types && "AAAA" in types && "SOA" in types
  }

  lemma RuleTypesQueried()
    ensures QueriesRuleTypes(RecordTypes)
  {
    assert RecordTypes[0] == "A" && RecordTypes[1] == "AAAA" && RecordTypes[5] == "MX";
    assert RecordTypes[7] == "SOA" && RecordTypes[8] == "TXT";
  }

  const MissingMx := "No MX records found. The domain may not be able to receive emails."
  const MissingTxt := "No TXT records found. Missing SPF, DKIM, or DMARC configurations."
  const MissingAddress := "No A or AAAA records found. The domain may not be accessible via IPv4 or IPv6."
  const MissingSoa := "No SOA record found. This could indicate zone configuration issues."

  /** Every warning, in the order the analysis emits them. */
  const AllWarnings := [MissingMx, MissingTxt, MissingAddress, MissingSoa]

  /** `key in results and results[key] == "NoAnswer"`. */
  predicate IsNoAnswer(t: RecordTable, key: string) {
    key in t.entries && t.entries[key] == Sentinel(NoAnswerText)
  }

  /** One rule of the analysis: its message is emitted when every one of its record types is "NoAnswer". */
  datatype Rule = Rule(keys: seq<string>, message: string)

  const Rules: seq<Rule> := [
    Rule(["MX"], MissingMx),
    Rule(["TXT"], MissingTxt),
    Rule(["A", "AAAA"], MissingAddress),
    Rule(["SOA"], MissingSoa)
  ]

  predicate Fires(rule: Rule, t: RecordTable) {
    forall i :: 0 <= i < |rule.keys| ==> IsNoAnswer(t, rule.keys[i])
  }

  /** The messages of the rules that fire, in rule order. */
  function FiredMessages(rules: seq<Rule>, t: RecordTable): seq<string>
    decreases |rules|
  {
    if rules == [] then []
    else (if Fires(rules[0], t) then [rules[0].message] else []) + FiredMessages(rules[1..], t)
  }

  /** The warnings the analysis of `t` reports. */
  function Warnings(t: RecordTable): seq<string> {
    FiredMessages(Rules, t)
  }

  function Opt(b: bool, message: string): seq<string> {
    if b then [message] else []
  }

  lemma FiresSingle(key: string, message: string, t: RecordTable)
    ensures Fires(Rule([key], message), t) <==> IsNoAnswer(t, key)
  {
    assert [key][0] == key;
  }

  lemma FiresPair(key1: string, key2: string, message: string, t: RecordTable)
    ensures Fires(Rule([key1, key2], message), t) <==> IsNoAnswer(t, key1) && IsNoAnswer(t, key2)
  {
    assert [key1, key2][0] == key1 && [key1, key2][1] == key2;
  }

  /** The rule table, checked rule by rule. */
  lemma WarningsUnfold(t: RecordTable)
    ensures Warnings(t) ==
      Opt(IsNoAnswer(t, "MX"), MissingMx)
      + Opt(IsNoAnswer(t, "TXT"), MissingTxt)
      + Opt(IsNoAnswer(t, "A") && IsNoAnswer(t, "AAAA"), MissingAddress)
      + Opt(IsNoAnswer(t, "SOA"), MissingSoa)
  {
    FiresSingle("MX", MissingMx, t);
    FiresSingle("TXT", MissingTxt, t);
    FiresPair("A", "AAAA", MissingAddress, t);
    FiresSingle("SOA", MissingSoa, t);
    var rest1, rest2, rest3 := Rules[1..], Rules[2..], Rules[3..];
    assert rest1[1..] == rest2 && rest2[1..] == rest3 && rest3[1..] == [];
    calc {
      Warnings(t);
      Opt(IsNoAnswer(t, "MX"), MissingMx) + FiredMessages(rest1, t);
      Opt(IsNoAnswer(t, "MX"), MissingMx) + Opt(IsNoAnswer(t, "TXT"), MissingTxt) + FiredMessages(rest2, t);
      Opt(IsNoAnswer(t, "MX"), MissingMx) + Opt(IsNoAnswer(t, "TXT"), MissingTxt)
        + Opt(IsNoAnswer(t, "A") && IsNoAnswer(t, "AAAA"), MissingAddress) + FiredMessages(rest3, t);
      { assert rest3[0] == Rule(["SOA"], MissingSoa); }
      Opt(IsNoAnswer(t, "MX"), MissingMx) + Opt(IsNoAnswer(t, "TXT"), MissingTxt)
        + Opt(IsNoAnswer(t, "A") && IsNoAnswer(t, "AAAA"), MissingAddress)
        + Opt(IsNoAnswer(t, "SOA"), MissingSoa) + FiredMessages([], t);
    }
  }

  /**
   * Each warning is reported exactly when its rule fires; the A/AAAA warning
   * needs both types to be "NoAnswer".
   */
  lemma WarningTriggers(t: RecordTable)
    ensures MissingMx in Warnings(t) <==> IsNoAnswer(t, "MX")
    ensures MissingTxt in Warnings(t) <==> IsNoAnswer(t, "TXT")
    ensures MissingAddress in Warnings(t) <==> IsNoAnswer(t, "A") && IsNoAnswer(t, "AAAA")
    ensures MissingSoa in Warnings(t) <==> IsNoAnswer(t, "SOA")
  {
    WarningsUnfold(t);
  }

  /** Position of a warning in `AllWarnings`. */
  function Rank(w: string): nat {
    if w == MissingMx then 0
    else if w == MissingTxt then 1
    else if w == MissingAddress then 2
    else 3
  }

  /** The warnings are drawn from the four messages, each at most once, in MX, TXT, A/AAAA, SOA order. */
  lemma WarningsOrdered(t: RecordTable)
    ensures |Warnings(t)| <= 4
    ensures forall i :: 0 <= i < |Warnings(t)| ==> Warnings(t)[i] in AllWarnings
    ensures forall i, j :: 0 <= i < j < |Warnings(t)| ==> Rank(Warnings(t)[i]) < Rank(Warnings(t)[j])
  {
    WarningsUnfold(t);
  }

  /**
   * End to end: a warning is reported for a completed scan exactly when the
   * resolver answered NoAnswer for the record types of its rule.
   */
  lemma WarningsFromLookups(domain: string, resolve: Resolver, types: seq<string>)
    requires Completes(domain, resolve, types) && QueriesRuleTypes(types)
    ensures MissingMx in Warnings(ResolvedTable(domain, resolve, types))
            <==> resolve(domain, "MX") == NoAnswer
    ensures MissingTxt in Warnings(ResolvedTable(domain, resolve, types))
            <==> resolve(domain, "TXT") == NoAnswer
    ensures MissingAddress in Warnings(ResolvedTable(domain, resolve, types))
            <==> resolve(domain, "A") == NoAnswer && resolve(domain, "AAAA") == NoAnswer
    ensures MissingSoa in Warnings(ResolvedTable(domain, resolve, types))
            <==> resolve(domain, "SOA") == NoAnswer
  {
    WarningTriggers(ResolvedTable(domain, resolve, types));
  }

  /** A resolver that never has data yields "NoAnswer" for every type and all four warnings. */
  lemma AllNoAnswer(domain: string, resolve: Resolver, types: seq<string>)
    requires forall type_ :: resolve(domain, type_) == NoAnswer
    requires QueriesRuleTypes(types)
    ensures Completes(domain, resolve, types)
    ensures forall i :: 0 <= i < |types| ==>
              ResolvedTable(domain, resolve, types).entries[types[i]] == Sentinel(NoAnswerText)
    ensures Warnings(ResolvedTable(domain, resolve, types)) == AllWarnings
  {
    CompletesIff(domain, resolve, types);
    WarningsFromLookups(domain, resolve, types);
    WarningsUnfold(ResolvedTable(domain, resolve, types));
  }

  /** A domain that does not exist yields the NXDOMAIN sentinel for every type and no warning. */
  lemma AllNXDomain(domain: string, resolve: Resolver, types: seq<string>)
    requires forall type_ :: resolve(domain, type_) == NXDomain
    requires QueriesRuleTypes(types)
    ensures Completes(domain, resolve, types)
    ensures forall i :: 0 <= i < |types| ==>
              ResolvedTable(domain, resolve, types).entries[types[i]] == Sentinel(NXDomainText)
    ensures Warnings(ResolvedTable(domain, resolve, types)) == []
  {
    CompletesIff(domain, resolve, types);
    WarningsFromLookups(domain, resolve, types);
    WarningsUnfold(ResolvedTable(domain, resolve, types));
  }

  /** What `run` returns: the records dictionary and the warnings drawn from it. */
  datatype Inspection = Inspection(records: RecordTable, warnings: seq<string>)

  /** `table` holds the classified outcomes of the first `i` record types, in list order. */
  ghost predicate ResolvedPrefix(domain: string, resolve: Resolver, types: seq<string>, table: RecordTable, i: int) {
    && 0 <= i <= |types|
    && WellFormed(table)
    && table.order == types[..i]
    && forall j :: 0 <= j < i ==>
         types[j] in table.entries && Classify(resolve(domain, types[j])) == Success(table.entries[types[j]])
  }

  /** Recording the next outcome extends the prefix by one type. */
  lemma ResolvedPrefixStep(domain: string, resolve: Resolver, types: seq<string>, table: RecordTable, i: int)
    requires Distinct(types) && ResolvedPrefix(domain, resolve, types, table, i) && i < |types|
    requires !resolve(domain, types[i]).OtherException?
    ensures types[i] !in table.entries
    ensures ResolvedPrefix(domain, resolve, types, Insert(table, types[i], Classify(resolve(domain, types[i])).value), i + 1)
  {
    assert types[i] !in table.order by {
      forall j | 0 <= j < i ensures types[..i][j] != types[i] {
      }
    }
    PrefixStep(types, i);
  }

  /** A lookup at or before the first escape that raises is the first escape. */
  lemma EscapeAt(domain: string, resolve: Resolver, types: seq<string>, i: int)
    requires 0 <= i < |types| && i <= FirstEscape(domain, resolve, types)
    requires resolve(domain, types[i]).OtherException?
    ensures FirstEscape(domain, resolve, types) == i
  {
  }

  lemma PrefixStep(s: seq<string>, i: int)
    requires 0 <= i < |s|
    ensures s[..i + 1] == s[..i] + [s[i]]
  {
  }

  /** Once every type is recorded, the table is the one a completed scan returns. */
  lemma ResolvedPrefixComplete(domain: string, resolve: Resolver, types: seq<string>, table: RecordTable)
    requires ResolvedPrefix(domain, resolve, types, table, |types|)
    requires Completes(domain, resolve, types)
    ensures table == ResolvedTable(domain, resolve, types)
  {
    assert table.order == types;
    forall t | t in types
      ensures t in table.entries && table.entries[t] == Classify(resolve(domain, t)).value
    {
      var j :| 0 <= j < |types| && types[j] == t;
    }
  }

  /**
   * The `except` ladder around one lookup: the answers, or the sentinel of a
   * DNS exception, go into the table under the record type; any other
   * exception propagates.
   */
  method RecordOutcome(table: RecordTable, recordType: string, outcome: LookupOutcome)
    returns (r: Result<RecordTable, Uncaught>)
    requires WellFormed(table)
    ensures r.Failure? <==> outcome.OtherException?
    ensures r.Failure? ==> r.error == Uncaught(outcome.message)
    ensures r.Success? ==> r.value == Insert(table, recordType, Classify(outcome).value)
  {
    match outcome {
      case Answers(values) =>
        r := Success(Insert(table, recordType, Records(values)));
      case NoAnswer =>
        r := Success(Insert(table, recordType, Sentinel(NoAnswerText)));
      case NXDomain =>
        r := Success(Insert(table, recordType, Sentinel(NXDomainText)));
      case Timeout =>
        r := Success(Insert(table, recordType, Sentinel(TimeoutText)));
      case DnsError(message) =>
        r := Success(Insert(table, recordType, Sentinel(ErrorPrefix + message)));
      case OtherException(message) =>
        r := Failure(Uncaught(message));
    }
  }

  class ZoneGuardian {
    const domain: string
    const recordTypes: seq<string>
    const resolver: Resolver

    /** The record types are queried once each: no type appears twice in the list. */
    ghost predicate Valid() {
      Distinct(recordTypes)
    }

    constructor(domain: string, resolver: Resolver)
      ensures Valid()
      ensures this.domain == domain && this.resolver == resolver && recordTypes == RecordTypes
    {
      this.domain := domain;
      this.recordTypes := RecordTypes;
      this.resolver := resolver;
      RecordTypesDistinct();
    }

    /**
     * `_resolve_records`: queries every record type once, in list order, and
     * records each outcome; the ghost `queried` lists the types queried, in
     * order. An exception that is not a DNS exception ends the scan with
     * nothing returned.
     */
    method ResolveRecords() returns (results: Result<RecordTable, Uncaught>, ghost queried: seq<string>)
      requires Valid()
      ensures results.Success? <==> Completes(domain, resolver, recordTypes)
      ensures results.Success? ==> results.value == ResolvedTable(domain, resolver, recordTypes)
      ensures results.Success? ==> queried == recordTypes
      ensures results.Failure? ==>
                var k := FirstEscape(domain, resolver, recordTypes);
                && k < |recordTypes|
                && results.error == Uncaught(resolver(domain, recordTypes[k]).message)
                && queried == recordTypes[..k + 1]
    {
      var table := EmptyTable;
      queried := [];
      var i := 0;
      while i < |recordTypes|
        invariant 0 <= i <= |recordTypes| && i <= FirstEscape(domain, resolver, recordTypes)
        invariant queried == recordTypes[..i]
        invariant ResolvedPrefix(domain, resolver, recordTypes, table, i)
      {
        var recordType := recordTypes[i];
        PrefixStep(recordTypes, i);
        queried := queried + [recordType];
        var recorded := RecordOutcome(table, recordType, resolver(domain, recordType));
        if recorded.Failure? {
          EscapeAt(domain, resolver, recordTypes, i);
          return Failure(recorded.error), queried;
        }
        ResolvedPrefixStep(domain, resolver, recordTypes, table, i);
        table := recorded.value;
        i := i + 1;
      }
      assert Completes(domain, resolver, recordTypes);
      ResolvedPrefixComplete(domain, resolver, recordTypes, table);
      results := Success(table);
    }

    /** `_analyze_results`: one check per rule, in rule order. */
    method AnalyzeResults(results: RecordTable) returns (warnings: seq<string>)
      ensures warnings == Warnings(results)
    {
      warnings := [];
      if "MX" in results.entries && results.entries["MX"] == Sentinel(NoAnswerText) {
        warnings := warnings + [MissingMx];
      }
      if "TXT" in results.entries && results.entries["TXT"] == Sentinel(NoAnswerText) {
        warnings := warnings + [MissingTxt];
      }
      if "A" in results.entries && results.entries["A"] == Sentinel(NoAnswerText)
         && "AAAA" in results.entries && results.entries["AAAA"] == Sentinel(NoAnswerText) {
        warnings := warnings + [MissingAddress];
      }
      if "SOA" in results.entries && results.entries["SOA"] == Sentinel(NoAnswerText) {
        warnings := warnings + [MissingSoa];
      }
      WarningsUnfold(results);
    }

    /** `run`: the records of `_resolve_records` and the warnings `_analyze_results` draws from them. */
    method Run() returns (r: Result<Inspection, Uncaught>)
      requires Valid()
      ensures r.Success? <==> Completes(domain, resolver, recordTypes)
      ensures r.Success? ==> r.value.records == ResolvedTable(domain, resolver, recordTypes)
      ensures r.Success? ==> r.value.warnings == Warnings(r.value.records)
      ensures r.Failure? ==>
                var k := FirstEscape(domain, resolver, recordTypes);
                k < |recordTypes| && r.error == Uncaught(resolver(domain, recordTypes[k]).message)
    {
      var results, _ := ResolveRecords();
      if results.Failure? {
        return Failure(results.error);
      }
      var warnings := AnalyzeResults(results.value);
      r := Success(Inspection(results.value, warnings));
    }
  }
}
