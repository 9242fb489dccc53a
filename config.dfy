/**
 * The host-list side of the `config` package: turning a comma-separated `--domains`
 * string or the lines of a domains file into an ordered list of validated hosts,
 * the skip/limit line range of a domains file, and the cross-field rules of
 * `AppConfig.Validate`.
 */
module Config {
  import opened Wrappers
  import opened Strings
  import opened Hosts

  /** The run settings collected from the command line (`AppConfig`). */
  datatype AppConfig = AppConfig(
    configFile: string,
    domains: string,
    domainsFile: string,
    domainsFileSkip: int,
    domainsFileLimit: int,
    timeout: int,
    insecure: bool,
    outputFormat: string,
    outputFile: string)

  /** Why a host list could not be produced. */
  datatype ParseError =
    | NoValidDomains                                                   // nothing left after trimming
    | InvalidDomain(host: string, reason: HostError)                   // a --domains entry failed validateHost
    | InvalidDomainAtLine(line: nat, host: string, reason: HostError)  // a file line (1-based) failed validateHost
    | NegativeSkip(skip: int)
    | NegativeLimit(limit: int)
    | NoDomainsInRange(skipped: nat, taken: nat)                       // the selected lines hold no host
    | NoHostSelected                                                   // GetHosts: none of the three sources is set

  /** An invalid entry: its 0-based position among the entries scanned, its trimmed text, and why. */
  datatype EntryError = EntryError(pos: nat, host: string, reason: HostError)

  predicate AllValid(hosts: seq<string>) {
    forall i {:trigger ValidHost(hosts[i])} :: 0 <= i < |hosts| ==> ValidHost(hosts[i])
  }

  /** The trimmed entries that are not blank, in input order. */
  function NonBlank(entries: seq<string>): (hosts: seq<string>)
    ensures |hosts| <= |entries|
  {
    if entries == [] then []
    else
      var host := TrimSpace(entries[|entries| - 1]);
      NonBlank(entries[..|entries| - 1]) + (if host == "" then [] else [host])
  }

  /** Every host listed is trimmed and not blank. */
  lemma {:induction false} NonBlankTrimmed(entries: seq<string>)
    ensures forall i :: 0 <= i < |NonBlank(entries)| ==> NonBlank(entries)[i] != "" && IsTrimmed(NonBlank(entries)[i])
  {
    if entries != [] {
      NonBlankTrimmed(entries[..|entries| - 1]);
      TrimSpaceTrims(entries[|entries| - 1]);
    }
  }

  /** Order is kept: the hosts of a concatenation are the hosts of each part, one after the other. */
  lemma {:induction false} NonBlankAppend(a: seq<string>, b: seq<string>)
    ensures NonBlank(a + b) == NonBlank(a) + NonBlank(b)
  {
    if b == [] {
      assert a + b == a;
    } else {
      NonBlankAppend(a, b[..|b| - 1]);
      assert (a + b)[..|a + b| - 1] == a + b[..|b| - 1];
      assert (a + b)[|a + b| - 1] == b[|b| - 1];
    }
  }

  /** A single entry is listed as its trimmed text, unless that is blank. */
  lemma {:induction false} NonBlankOne(entry: string)
    ensures NonBlank([entry]) == if TrimSpace(entry) == "" then [] else [TrimSpace(entry)]
  {
    assert [entry][..0] == [];
  }

  /** Entries that all trim to non-blank hosts are listed as those hosts, one for one, in order. */
  lemma {:induction false} NonBlankOfTrimmed(entries: seq<string>, hosts: seq<string>)
    requires |entries| == |hosts|
    requires forall i :: 0 <= i < |entries| ==> TrimSpace(entries[i]) == hosts[i] != ""
    ensures NonBlank(entries) == hosts
  {
    if entries != [] {
      var n := |entries| - 1;
      NonBlankOfTrimmed(entries[..n], hosts[..n]);
      assert hosts == hosts[..n] + [hosts[n]];
    }
  }

  /** A host is listed exactly when some entry trims to it and it is not blank. */
  lemma {:induction false} NonBlankMembers(entries: seq<string>, host: string)
    ensures host in NonBlank(entries) <==>
      host != "" && exists i :: 0 <= i < |entries| && TrimSpace(entries[i]) == host
  {
    if entries != [] {
      var n := |entries| - 1;
      var prefix := entries[..n];
      var last := TrimSpace(entries[n]);
      var tail := if last == "" then [] else [last];
      assert NonBlank(entries) == NonBlank(prefix) + tail;
      NonBlankMembers(prefix, host);
      if host in NonBlank(entries) {
        if host in NonBlank(prefix) {
          var i :| 0 <= i < |prefix| && TrimSpace(prefix[i]) == host;
          assert entries[i] == prefix[i];
        } else {
          assert host in tail;
          assert TrimSpace(entries[n]) == host;
        }
      }
      if host != "" && exists i :: 0 <= i < |entries| && TrimSpace(entries[i]) == host {
        var i :| 0 <= i < |entries| && TrimSpace(entries[i]) == host;
        if i < n {
          assert prefix[i] == entries[i];
          assert host in NonBlank(prefix);
        } else {
          assert host in tail;
        }
      }
    }
  }

  /**
   * The scan both parsers share: trim each entry, skip blank ones, stop at the first
   * entry validateHost rejects, otherwise keep the entry.
   */
  function CollectHosts(entries: seq<string>): (r: Result<seq<string>, EntryError>)
    ensures r.Failure? ==> r.error.pos < |entries|
  {
    if entries == [] then Success([])
    else
      match CollectHosts(entries[..|entries| - 1])
      case Failure(e) => Failure(e)
      case Success(hosts) =>
        var host := TrimSpace(entries[|entries| - 1]);
        if host == "" then Success(hosts)
        else match ValidateHost(host)
          case Fail(why) => Failure(EntryError(|entries| - 1, host, why))
          case Pass => Success(hosts + [host])
  }

  lemma AllValidConcat(a: seq<string>, b: seq<string>)
    ensures AllValid(a + b) <==> AllValid(a) && AllValid(b)
  {
    if AllValid(a) && AllValid(b) {
      forall i | 0 <= i < |a + b| ensures ValidHost((a + b)[i]) {
        if i < |a| { assert ValidHost(a[i]); } else { assert ValidHost(b[i - |a|]); }
      }
    }
    if AllValid(a + b) {
      forall i | 0 <= i < |a| ensures ValidHost(a[i]) { assert ValidHost((a + b)[i]); }
      forall i | 0 <= i < |b| ensures ValidHost(b[i]) { assert ValidHost((a + b)[|a| + i]); }
    }
  }

  /**
   * The scan succeeds exactly when every non-blank entry is a valid host; when it fails,
   * the entry it names is the first invalid one.
   */
  lemma {:induction false} CollectHostsVerdict(entries: seq<string>)
    ensures var r := CollectHosts(entries);
      && (r.Success? ==> r.value == NonBlank(entries))
      && (r.Success? <==> AllValid(NonBlank(entries)))
      && (r.Failure? ==>
        && r.error.host == TrimSpace(entries[r.error.pos]) && r.error.host != ""
        && ValidateHost(r.error.host) == Fail(r.error.reason)
        && r.error.host in NonBlank(entries)
        && AllValid(NonBlank(entries[..r.error.pos])))
  {
    if entries != [] {
      var prefix := entries[..|entries| - 1];
      CollectHostsVerdict(prefix);
      var host := TrimSpace(entries[|entries| - 1]);
      var tail := if host == "" then [] else [host];
      assert NonBlank(entries) == NonBlank(prefix) + tail;
      AllValidConcat(NonBlank(prefix), tail);
      match CollectHosts(prefix)
      case Failure(e) =>
        assert entries[..e.pos] == prefix[..e.pos];
        assert entries[e.pos] == prefix[e.pos];
        assert !ValidHost(e.host);
      case Success(hosts) =>
        assert entries[..|entries| - 1] == prefix;
        if host != "" {
          assert ValidHost(host) <==> AllValid(tail) by { assert tail[0] == host; }
        }
    }
  }

  lemma {:induction false} CollectHostsFailureSticks(a: seq<string>, b: seq<string>)
    requires CollectHosts(a).Failure?
    ensures CollectHosts(a + b) == CollectHosts(a)
  {
    if b == [] {
      assert a + b == a;
    } else {
      CollectHostsFailureSticks(a, b[..|b| - 1]);
      assert (a + b)[..|a + b| - 1] == a + b[..|b| - 1];
    }
  }

  /** `ParseDomainsFromString`: the hosts of a comma-separated list. */
  function ParseDomainsFromString(s: string): (r: Result<seq<string>, ParseError>)
    ensures r.Success? ==> r.value == NonBlank(Split(s, ',')) && r.value != [] && AllValid(r.value)
    ensures r.Success? <==> NonBlank(Split(s, ',')) != [] && AllValid(NonBlank(Split(s, ',')))
    ensures r == Failure(NoValidDomains) <==> NonBlank(Split(s, ',')) == []
    ensures r.Failure? ==> r.error.NoValidDomains? || r.error.InvalidDomain?
    ensures r.Failure? && r.error.InvalidDomain? ==>
      r.error.host in NonBlank(Split(s, ',')) && ValidateHost(r.error.host) == Fail(r.error.reason)
  {
    CollectHostsVerdict(Split(s, ','));
    match CollectHosts(Split(s, ','))
    case Failure(e) => Failure(InvalidDomain(e.host, e.reason))
    case Success(hosts) => if hosts == [] then Failure(NoValidDomains) else Success(hosts)
  }

  /** Joining comma-free entries with commas and parsing the result gives back the non-blank entries. */
  lemma {:induction false} ParseJoinedEntries(entries: seq<string>)
    requires |entries| >= 1 && forall i :: 0 <= i < |entries| ==> ',' !in entries[i]
    ensures ParseDomainsFromString(Join(entries, ',')).Success? ==>
      ParseDomainsFromString(Join(entries, ',')).value == NonBlank(entries)
    ensures AllValid(NonBlank(entries)) && NonBlank(entries) != [] ==>
      ParseDomainsFromString(Join(entries, ',')) == Success(NonBlank(entries))
  {
    SplitJoin(entries, ',');
  }

  /**
   * Comma-free entries, each trimming to a valid host, joined with commas: parsing gives
   * exactly those hosts, trimmed, in order.
   */
  lemma {:induction false} ParseTrimmedEntries(entries: seq<string>, hosts: seq<string>)
    requires |entries| == |hosts| >= 1
    requires forall i :: 0 <= i < |entries| ==>
      ',' !in entries[i] && TrimSpace(entries[i]) == hosts[i] != "" && ValidHost(hosts[i])
    ensures ParseDomainsFromString(Join(entries, ',')) == Success(hosts)
  {
    NonBlankOfTrimmed(entries, hosts);
    ParseJoinedEntries(entries);
  }

  function Min(a: int, b: int): int {
    if a <= b then a else b
  }

  /** One past the last line the range selects; a limit of 0 means no limit. */
  function WindowEnd(n: nat, skip: nat, limit: nat): nat {
    if limit == 0 then n else Min(n, skip + limit)
  }

  /** The raw lines a (skip, limit) range selects, blank lines included. */
  function Window(lines: seq<string>, skip: nat, limit: nat): seq<string> {
    var end := WindowEnd(|lines|, skip, limit);
    lines[Min(skip, end)..end]
  }

  /**
   * The window counts raw lines: it starts at line `skip` (0-based) and holds `limit`
   * lines, or all the rest when `limit` is 0 or the file ends first.
   */
  lemma WindowLines(lines: seq<string>, skip: nat, limit: nat)
    ensures |Window(lines, skip, limit)| ==
      if skip >= |lines| then 0 else if limit == 0 then |lines| - skip else Min(limit, |lines| - skip)
    ensures forall k :: 0 <= k < |Window(lines, skip, limit)| ==> Window(lines, skip, limit)[k] == lines[skip + k]
  {
  }

  lemma WholeWindow(lines: seq<string>)
    ensures Window(lines, 0, 0) == lines
  {
  }

  /** The specification of `ParseDomainsFromFileWithRange` over the lines already read. */
  function SelectHosts(lines: seq<string>, skip: int, limit: int): (r: Result<seq<string>, ParseError>)
    ensures skip < 0 ==> r == Failure(NegativeSkip(skip))
    ensures skip >= 0 && limit < 0 ==> r == Failure(NegativeLimit(limit))
  {
    if skip < 0 then Failure(NegativeSkip(skip))
    else if limit < 0 then Failure(NegativeLimit(limit))
    else
      match CollectHosts(Window(lines, skip, limit))
      case Failure(e) => Failure(InvalidDomainAtLine(skip + e.pos + 1, e.host, e.reason))
      case Success(hosts) =>
        if hosts == [] then Failure(NoDomainsInRange(skip, limit)) else Success(hosts)
  }

  /**
   * What a range selection promises: success lists the non-blank lines of the window, in
   * order, all valid; it fails when the window holds no host or when a line is invalid, and
   * then names the first invalid line by its 1-based number in the whole file.
   */
  lemma {:induction false} SelectHostsContract(lines: seq<string>, skip: int, limit: int)
    requires skip >= 0 && limit >= 0
    ensures var r := SelectHosts(lines, skip, limit);
      && (r.Success? ==> r.value == NonBlank(Window(lines, skip, limit)) && r.value != [] && AllValid(r.value))
      && (r.Success? <==> NonBlank(Window(lines, skip, limit)) != [] && AllValid(NonBlank(Window(lines, skip, limit))))
      && (r.Failure? ==> r.error.NoDomainsInRange? || r.error.InvalidDomainAtLine?)
      && (r.Failure? && r.error.NoDomainsInRange? <==> NonBlank(Window(lines, skip, limit)) == [])
  {
    CollectHostsVerdict(Window(lines, skip, limit));
  }

  /** An invalid line is reported with its 1-based number in the file, inside the selected range. */
  lemma {:induction false} SelectHostsNamesLine(lines: seq<string>, skip: int, limit: int)
    requires SelectHosts(lines, skip, limit).Failure?
    requires SelectHosts(lines, skip, limit).error.InvalidDomainAtLine?
    ensures var e := SelectHosts(lines, skip, limit).error;
      && skip >= 0 && limit >= 0
      && skip < e.line <= |lines|
      && (limit > 0 ==> e.line <= skip + limit)
      && e.host == TrimSpace(lines[e.line - 1])
      && ValidateHost(e.host) == Fail(e.reason)
      && AllValid(NonBlank(lines[skip..e.line - 1]))
  {
    var w := Window(lines, skip, limit);
    CollectHostsVerdict(w);
    var e := CollectHosts(w).error;
    assert w[..e.pos] == lines[skip..skip + e.pos];
  }

  /** A range selection with a valid skip and limit is the scan of its window. */
  lemma SelectHostsOfScan(lines: seq<string>, skip: nat, limit: nat)
    ensures SelectHosts(lines, skip, limit) ==
      match CollectHosts(Window(lines, skip, limit))
      case Failure(e) => Failure(InvalidDomainAtLine(skip + e.pos + 1, e.host, e.reason))
      case Success(hosts) => if hosts == [] then Failure(NoDomainsInRange(skip, limit)) else Success(hosts)
  {
  }

  /** The selection stops at the first invalid line of the window. */
  lemma {:induction false} RangeStopsAt(lines: seq<string>, skip: nat, limit: nat, i: nat)
    requires skip <= i < WindowEnd(|lines|, skip, limit)
    requires CollectHosts(lines[skip..i + 1]).Failure?
    ensures SelectHosts(lines, skip, limit) ==
      var e := CollectHosts(lines[skip..i + 1]).error;
      Failure(InvalidDomainAtLine(skip + e.pos + 1, e.host, e.reason))
  {
    WindowFailure(lines, skip, limit, i);
    SelectHostsOfScan(lines, skip, limit);
  }

  /** A scan that reaches the end of the window without an invalid line yields its hosts. */
  lemma {:induction false} RangeCompletes(lines: seq<string>, skip: nat, limit: nat, i: nat, domains: seq<string>)
    requires i <= |lines| && (limit > 0 ==> i <= skip + limit)
    requires !(i < |lines| && (limit == 0 || i < skip + limit))
    requires i <= skip ==> domains == []
    requires i >= skip ==> CollectHosts(lines[skip..i]) == Success(domains)
    ensures SelectHosts(lines, skip, limit) ==
      if domains == [] then Failure(NoDomainsInRange(skip, limit)) else Success(domains)
  {
    if i < skip {
      assert Window(lines, skip, limit) == [];
    } else {
      assert lines[skip..i] == Window(lines, skip, limit);
    }
    SelectHostsOfScan(lines, skip, limit);
  }

  /** One more line for the scan: the scan of `lines[lo..i + 1]` from the scan of `lines[lo..i]`. */
  lemma CollectHostsExtend(lines: seq<string>, lo: nat, i: nat)
    requires lo <= i < |lines|
    ensures CollectHosts(lines[lo..i + 1]) ==
      match CollectHosts(lines[lo..i])
      case Failure(e) => Failure(e)
      case Success(hosts) =>
        var host := TrimSpace(lines[i]);
        if host == "" then Success(hosts)
        else match ValidateHost(host)
          case Fail(why) => Failure(EntryError(i - lo, host, why))
          case Pass => Success(hosts + [host])
  {
    assert lines[lo..i + 1][..i - lo] == lines[lo..i];
  }

  /** A scan that fails on the lines up to `i + 1` of the window fails the same way on the whole window. */
  lemma WindowFailure(lines: seq<string>, skip: nat, limit: nat, i: nat)
    requires skip <= i < WindowEnd(|lines|, skip, limit)
    requires CollectHosts(lines[skip..i + 1]).Failure?
    ensures CollectHosts(Window(lines, skip, limit)) == CollectHosts(lines[skip..i + 1])
  {
    var w := Window(lines, skip, limit);
    var done := lines[skip..i + 1];
    assert w == done + w[|done|..];
    CollectHostsFailureSticks(done, w[|done|..]);
  }

  /**
   * One line of the selected range: trim it, skip it when blank, reject it with its
   * 1-based line number when validateHost does, otherwise append it to `domains`.
   */
  method ScanLine(lines: seq<string>, skip: nat, i: nat, domains: seq<string>)
    returns (r: Result<seq<string>, ParseError>)
    requires skip <= i < |lines|
    requires CollectHosts(lines[skip..i]) == Success(domains)
    ensures r.Success? ==> CollectHosts(lines[skip..i + 1]) == Success(r.value)
    ensures r.Failure? ==>
      && CollectHosts(lines[skip..i + 1]).Failure?
      && r.error == (var e := CollectHosts(lines[skip..i + 1]).error;
                     InvalidDomainAtLine(skip + e.pos + 1, e.host, e.reason))
  {
    CollectHostsExtend(lines, skip, i);
    var host := TrimSpace(lines[i]);
    if host == "" {
      return Success(domains);
    }
    var verdict := ValidateHost(host);
    if verdict.Fail? {
      return Failure(InvalidDomainAtLine(i + 1, host, verdict.error));
    }
    return Success(domains + [host]);
  }

  /**
   * `ParseDomainsFromFileWithRange` over the lines of the file: count raw lines,
   * drop the first `skip`, stop after `limit` more (0: no limit), skip blank ones,
   * and report an invalid host with its 1-based line number in the file.
   */
  method ParseDomainsFromFileWithRange(lines: seq<string>, skip: int, limit: int)
    returns (r: Result<seq<string>, ParseError>)
    ensures r == SelectHosts(lines, skip, limit)
  {
    if skip < 0 {
      return Failure(NegativeSkip(skip));
    }
    if limit < 0 {
      return Failure(NegativeLimit(limit));
    }
    var domains: seq<string> := [];
    var i := 0;
    while i < |lines| && (limit == 0 || i < skip + limit)
      invariant 0 <= i <= |lines|
      invariant limit > 0 ==> i <= skip + limit
      invariant i <= skip ==> domains == []
      invariant i >= skip ==> CollectHosts(lines[skip..i]) == Success(domains)
    {
      if i >= skip {
        var step := ScanLine(lines, skip, i, domains);
        if step.Failure? {
          RangeStopsAt(lines, skip, limit, i);
          return step;
        }
        domains := step.value;
      } else if i + 1 == skip {
        assert lines[skip..i + 1] == [];
      }
      i := i + 1;
    }
    RangeCompletes(lines, skip, limit, i, domains);
    if domains == [] {
      return Failure(NoDomainsInRange(skip, limit));
    }
    return Success(domains);
  }

  /** `ParseDomainsFromFile`: every line of the file, i.e. the range (0, 0). */
  method ParseDomainsFromFile(lines: seq<string>) returns (r: Result<seq<string>, ParseError>)
    ensures r == SelectHosts(lines, 0, 0)
    ensures r.Success? <==> NonBlank(lines) != [] && AllValid(NonBlank(lines))
    ensures r.Success? ==> r.value == NonBlank(lines)
    ensures r.Failure? ==> r.error.NoDomainsInRange? || r.error.InvalidDomainAtLine?
    ensures r.Failure? && r.error.InvalidDomainAtLine? ==>
      && 0 < r.error.line <= |lines|
      && r.error.host == TrimSpace(lines[r.error.line - 1])
      && !ValidHost(r.error.host)
  {
    WholeWindow(lines);
    r := ParseDomainsFromFileWithRange(lines, 0, 0);
    SelectHostsContract(lines, 0, 0);
    if r.Failure? && r.error.InvalidDomainAtLine? {
      SelectHostsNamesLine(lines, 0, 0);
    }
  }

  /** Why a configuration is refused. */
  datatype ConfigError =
    | NoHostSource
    | MultipleHostSources
    | RangeWithoutDomainsFile
    | NegativeDomainsFileSkip
    | NegativeDomainsFileLimit
    | NonPositiveTimeout
    | UnsupportedOutputFormat(format: string)

  function HostSourceCount(c: AppConfig): nat {
    (if c.configFile != "" then 1 else 0)
    + (if c.domains != "" then 1 else 0)
    + (if c.domainsFile != "" then 1 else 0)
  }

  predicate SupportedOutputFormat(format: string) {
    format == "" || format == "table" || format == "json" || format == "yaml"
  }

  /** The rules a usable configuration meets, stated one by one. */
  predicate AcceptableConfig(c: AppConfig) {
    && (|| (c.configFile != "" && c.domains == "" && c.domainsFile == "")
        || (c.configFile == "" && c.domains != "" && c.domainsFile == "")
        || (c.configFile == "" && c.domains == "" && c.domainsFile != ""))
    && (c.domainsFile == "" ==> c.domainsFileSkip == 0 && c.domainsFileLimit == 0)
    && c.domainsFileSkip >= 0
    && c.domainsFileLimit >= 0
    && c.timeout > 0
    && SupportedOutputFormat(c.outputFormat)
  }

  /** `AppConfig.Validate`. */
  function Validate(c: AppConfig): (r: Outcome<ConfigError>)
    ensures r.Pass? <==> AcceptableConfig(c)
    ensures r == Fail(NoHostSource) <==> c.configFile == "" && c.domains == "" && c.domainsFile == ""
    ensures || (c.configFile != "" && c.domains != "")
            || (c.configFile != "" && c.domainsFile != "")
            || (c.domains != "" && c.domainsFile != "")
            ==> r == Fail(MultipleHostSources)
  {
    var sources := HostSourceCount(c);
    if sources == 0 then Fail(NoHostSource)
    else if sources > 1 then Fail(MultipleHostSources)
    else if c.domainsFile == "" && (c.domainsFileSkip != 0 || c.domainsFileLimit != 0) then Fail(RangeWithoutDomainsFile)
    else if c.domainsFileSkip < 0 then Fail(NegativeDomainsFileSkip)
    else if c.domainsFileLimit < 0 then Fail(NegativeDomainsFileLimit)
    else if c.timeout <= 0 then Fail(NonPositiveTimeout)
    else if !SupportedOutputFormat(c.outputFormat) then Fail(UnsupportedOutputFormat(c.outputFormat))
    else Pass
  }

  /**
   * `AppConfig.GetHosts` over inputs already read: `loadedHosts` is the host list of
   * the YAML config file, `domainsFileLines` the lines of the domains file.
   */
  method GetHosts(c: AppConfig, loadedHosts: seq<string>, domainsFileLines: seq<string>)
    returns (r: Result<seq<string>, ParseError>)
    ensures c.configFile != "" ==> r == Success(loadedHosts)
    ensures c.configFile == "" && c.domains != "" ==> r == ParseDomainsFromString(c.domains)
    ensures c.configFile == "" && c.domains == "" && c.domainsFile != "" ==>
      r == SelectHosts(domainsFileLines, c.domainsFileSkip, c.domainsFileLimit)
    ensures c.configFile == "" && c.domains == "" && c.domainsFile == "" ==> r == Failure(NoHostSelected)
    ensures c.configFile == "" && r.Success? ==> r.value != [] && AllValid(r.value)
  {
    if c.configFile != "" {
      r := Success(loadedHosts);
    } else if c.domains != "" {
      r := ParseDomainsFromString(c.domains);
    } else if c.domainsFile != "" {
      r := ParseDomainsFromFileWithRange(domainsFileLines, c.domainsFileSkip, c.domainsFileLimit);
      if c.domainsFileSkip >= 0 && c.domainsFileLimit >= 0 {
        SelectHostsContract(domainsFileLines, c.domainsFileSkip, c.domainsFileLimit);
      }
    } else {
      r := Failure(NoHostSelected);
    }
  }
}
