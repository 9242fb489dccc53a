/**
 * The cases of the host-list tests, on their concrete inputs, each derived from the
 * general lemmas of `Hosts` and `Config`.
 */
module Cases {
  import opened Wrappers
  import opened Strings
  import opened Hosts
  import opened Config

  // ----- validateHost -----

  lemma {:induction false} ValidPort443(port: string)
    requires port == "443"
    ensures ValidPort(port)
  {
    assert port[..2][..1] == port[..1];
    assert port[..3][..2] == port[..2];
    assert DecimalValue(port[..1]) == 4;
    assert DecimalValue(port[..2]) == 44;
    assert port[..3] == port;
  }

  lemma {:induction false} ValidPort8080(port: string)
    requires port == "8080"
    ensures ValidPort(port)
  {
    assert port[..2][..1] == port[..1];
    assert port[..3][..2] == port[..2];
    assert port[..4][..3] == port[..3];
    assert DecimalValue(port[..1]) == 8;
    assert DecimalValue(port[..2]) == 80;
    assert DecimalValue(port[..3]) == 808;
    assert port[..4] == port;
  }

  /** 65535 is the largest port, 65536 one past it. */
  lemma {:induction false} PortBound(port: string)
    requires port == "65535" || port == "65536"
    ensures ValidPort(port) <==> port == "65535"
  {
    assert port[..2][..1] == port[..1];
    assert port[..3][..2] == port[..2];
    assert port[..4][..3] == port[..3];
    assert port[..5][..4] == port[..4];
    assert DecimalValue(port[..1]) == 6;
    assert DecimalValue(port[..2]) == 65;
    assert DecimalValue(port[..3]) == 655;
    assert DecimalValue(port[..4]) == 6553;
    assert port[..5] == port;
  }

  lemma {:induction false} PlainExampleCom(name: string)
    requires name == "example.com"
    ensures PlainName(name)
  {
    assert !HasSpace(name);
  }

  /** "example.com", "www.example.com": plain names are accepted. */
  lemma {:induction false} HostnameAccepted(host: string)
    requires host == "example.com" || host == "www.example.com" || host == "google.com"
    ensures ValidHost(host)
  {
    assert !HasSpace(host);
    PlainNameAccepted(host);
  }

  /** "example.com:443" is accepted. */
  lemma {:induction false} HostnameWithPortAccepted(host: string)
    requires host == "example.com:443"
    ensures ValidHost(host)
  {
    var name, port := "example.com", "443";
    assert host == name + ":" + port;
    PlainExampleCom(name);
    ValidPort443(port);
    NamePortAccepted(name, port);
  }

  /** "example.com:65535" is accepted and "example.com:65536" rejected. */
  lemma {:induction false} PortRangeChecked(host: string)
    requires host == "example.com:65535" || host == "example.com:65536"
    ensures ValidHost(host) <==> host == "example.com:65535"
  {
    var name, port := "example.com", host[12..];
    assert host == name + ":" + port;
    assert port == "65535" || port == "65536";
    PlainExampleCom(name);
    PortBound(port);
    NamePortAccepted(name, port);
  }

  /** "example.com:abc" is rejected. */
  lemma {:induction false} NonNumericPortRejected(host: string)
    requires host == "example.com:abc"
    ensures !ValidHost(host)
  {
    var name, port := "example.com", "abc";
    assert host == name + ":" + port;
    assert !IsDigit(port[0]);
    PlainExampleCom(name);
    NamePortAccepted(name, port);
  }

  /** "example.com:0" is rejected. */
  lemma {:induction false} PortZeroRejected(host: string)
    requires host == "example.com:0"
    ensures !ValidHost(host)
  {
    var name, port := "example.com", "0";
    assert host == name + ":" + port;
    assert DecimalValue(port) == 0;
    PlainExampleCom(name);
    NamePortAccepted(name, port);
  }

  /** "", "   " and "exam ple.com" are rejected. */
  lemma {:induction false} SpacesRejected(host: string)
    requires host == "" || host == "   " || host == "exam ple.com"
    ensures !ValidHost(host)
  {
    if host == "exam ple.com" {
      assert !IsSpace(host[0]) && IsSpace(host[4]);
    }
  }

  /** ":443" is rejected. */
  lemma {:induction false} EmptyHostnameRejected(host: string)
    requires host == ":443"
    ensures !ValidHost(host)
  {
    var port := "443";
    assert host == ":" + port;
    EmptyNameRejected(port);
  }

  /** "[::1]" is accepted. */
  lemma {:induction false} BracketedIPv6Accepted(host: string)
    requires host == "[::1]"
    ensures ValidHost(host)
  {
    var addr := "::1";
    assert host == "[" + addr + "]";
    BracketedAccepted(addr);
  }

  /** "[::1]:8080" is accepted. */
  lemma {:induction false} BracketedIPv6WithPortAccepted(host: string)
    requires host == "[::1]:8080"
    ensures ValidHost(host)
  {
    var addr, port := "::1", "8080";
    assert host == "[" + addr + "]:" + port;
    ValidPort8080(port);
    BracketedPortAccepted(addr, port);
  }

  /** "2001:db8::1" is accepted. */
  lemma {:induction false} BareIPv6LiteralAccepted(host: string)
    requires host == "2001:db8::1"
    ensures ValidHost(host)
  {
    var a, b := "2001:", "db8::1";
    assert host == a + b;
    CountConcat(a, b, ':');
    assert Count(a, ':') >= 1 by { assert a == a[..4] + [':']; }
    assert !HasSpace(host);
    BareIPv6Accepted(host);
  }

  /** "[::1:8080", "[]" and "[::1]invalid" are rejected. */
  lemma {:induction false} MalformedIPv6Rejected(host: string)
    requires host == "[::1:8080" || host == "[]" || host == "[::1]invalid"
    ensures !ValidHost(host)
  {
    if host == "[::1:8080" {
      var addr := "::1:8080";
      assert host == "[" + addr;
      UnclosedBracketRejected(addr);
    } else if host == "[]" {
      var rest := "";
      assert host == "[]" + rest;
      EmptyBracketsRejected(rest);
    } else {
      var addr, rest := "::1", "invalid";
      assert host == "[" + addr + "]" + rest;
      TextAfterBracketRejected(addr, rest);
    }
  }

  // ----- ParseDomainsFromString -----

  /** Blank entries drop out of a four-entry list. */
  lemma {:induction false} NonBlankOfFour(a: string, b: string)
    requires TrimSpace(a) == a != "" && TrimSpace(b) == b != ""
    ensures NonBlank([a, "", b, ""]) == [a, b]
  {
    assert NonBlank([a]) == [a] by { assert [a][..0] == []; }
    assert NonBlank([b]) == [b] by { assert [b][..0] == []; }
    assert NonBlank([""]) == [] by { assert [""][..0] == []; }
    NonBlankAppend([a], [""]);
    NonBlankAppend([a] + [""], [b]);
    NonBlankAppend([a] + [""] + [b], [""]);
    assert [a, "", b, ""] == [a] + [""] + [b] + [""];
  }

  lemma {:induction false} JoinOfFour(a: string, b: string, sep: char)
    ensures Join([a, "", b, ""], sep) == a + [sep] + [sep] + b + [sep]
  {
    var parts := [a, "", b, ""];
    assert Join(parts[3..], sep) == "";
    assert Join(parts[2..], sep) == b + [sep] + "";
    assert Join(parts[1..], sep) == "" + [sep] + (b + [sep] + "");
  }

  /** Two valid names with blank entries after each: only the names are listed, in order. */
  lemma {:induction false} ParseOfFour(a: string, b: string)
    requires PlainName(a) && PlainName(b) && ',' !in a && ',' !in b
    ensures ParseDomainsFromString(a + [','] + [','] + b + [',']) == Success([a, b])
  {
    assert !IsSpace(a[0]) && !IsSpace(a[|a| - 1]);
    assert !IsSpace(b[0]) && !IsSpace(b[|b| - 1]);
    NonBlankOfFour(a, b);
    PlainNameAccepted(a);
    PlainNameAccepted(b);
    JoinOfFour(a, b, ',');
    ParseJoinedEntries([a, "", b, ""]);
  }

  /** "example.com,,google.com,": empty entries are dropped and the order is kept. */
  lemma {:induction false} EmptyEntriesDropped(s: string)
    requires s == "example.com,,google.com,"
    ensures ParseDomainsFromString(s) == Success(["example.com", "google.com"])
  {
    var a, b := "example.com", "google.com";
    assert s == a + [','] + [','] + b + [','];
    assert PlainName(a) && ',' !in a by { PlainExampleCom(a); }
    assert PlainName(b) && ',' !in b by { assert !HasSpace(b); }
    ParseOfFour(a, b);
  }

  /** ",,,": nothing but separators leaves no host, an error. */
  lemma {:induction false} OnlyCommasRejected(s: string)
    requires s == ",,,"
    ensures ParseDomainsFromString(s) == Failure(NoValidDomains)
  {
    var e := "";
    var entries := [e, e, e, e];
    JoinOfFour(e, e, ',');
    assert s == Join(entries, ',');
    SplitJoin(entries, ',');
    if NonBlank(entries) != [] {
      NonBlankMembers(entries, NonBlank(entries)[0]);
    }
  }

  // ----- ParseDomainsFromFileWithRange -----

  /** A trimmed, non-blank, valid host as a line of its own. */
  predicate GoodLine(x: string) {
    TrimSpace(x) == x != "" && ValidHost(x)
  }

  lemma {:induction false} NonBlankOfGood(x: string)
    requires GoodLine(x)
    ensures NonBlank([x]) == [x]
  {
    assert [x][..0] == [];
  }

  /** Two good lines yield both hosts, in order, and both are valid. */
  lemma {:induction false} TwoGoodLines(x: string, y: string)
    requires GoodLine(x) && GoodLine(y)
    ensures NonBlank([x, y]) == [x, y] && AllValid([x, y])
  {
    NonBlankOfGood(x);
    NonBlankOfGood(y);
    NonBlankAppend([x], [y]);
    assert [x] + [y] == [x, y];
  }

  /**
   * A five-line file whose second line is blank: the range (1, 3) covers the blank line
   * and the next two, so it lists the third and fourth lines.
   */
  lemma {:induction false} RangeCountsBlankLines(a: string, b: string, c: string, d: string)
    requires GoodLine(a) && GoodLine(b) && GoodLine(c) && GoodLine(d)
    ensures SelectHosts([a, "", b, c, d], 1, 3) == Success([b, c])
  {
    var lines := [a, "", b, c, d];
    var w := ["", b, c];
    assert Window(lines, 1, 3) == w;
    assert NonBlank(w) == [b, c] by {
      assert NonBlank([""]) == [] by { assert [""][..0] == []; }
      TwoGoodLines(b, c);
      NonBlankAppend([""], [b, c]);
      assert w == [""] + [b, c];
    }
    TwoGoodLines(b, c);
    SelectHostsContract(lines, 1, 3);
  }

  /** The same file with the range (3, 2): the last two lines. */
  lemma {:induction false} RangeTakesLastLines(a: string, b: string, c: string, d: string)
    requires GoodLine(a) && GoodLine(b) && GoodLine(c) && GoodLine(d)
    ensures SelectHosts([a, "", b, c, d], 3, 2) == Success([c, d])
  {
    var lines := [a, "", b, c, d];
    assert Window(lines, 3, 2) == [c, d];
    TwoGoodLines(c, d);
    SelectHostsContract(lines, 3, 2);
  }

  /** A range that starts past the end of the file selects nothing, an error. */
  lemma {:induction false} RangePastEndRejected(lines: seq<string>)
    requires |lines| <= 100
    ensures SelectHosts(lines, 100, 1) == Failure(NoDomainsInRange(100, 1))
  {
    assert Window(lines, 100, 1) == [];
  }

  /**
   * A three-line file whose last line is invalid, read with the range (1, 2): the error
   * names line 3 of the file, not line 2 of the range.
   */
  lemma {:induction false} InvalidLineNumbered(a: string, b: string, bad: string)
    requires GoodLine(a) && GoodLine(b)
    requires TrimSpace(bad) == bad != "" && !ValidHost(bad)
    ensures var r := SelectHosts([a, b, bad], 1, 2);
      r.Failure? && r.error.InvalidDomainAtLine? && r.error.line == 3 && r.error.host == bad
  {
    var lines := [a, b, bad];
    var w := [b, bad];
    assert Window(lines, 1, 2) == w;
    SelectHostsContract(lines, 1, 2);
    NonBlankMembers(w, bad);
    assert w[1] == bad;
    NonBlankMembers(w, b);
    assert w[0] == b;
    assert !AllValid(NonBlank(w)) by {
      var k :| 0 <= k < |NonBlank(w)| && NonBlank(w)[k] == bad;
    }
    SelectHostsNamesLine(lines, 1, 2);
  }

  /** "invalid domain", the bad line of the invalid-file tests: already trimmed, but not a valid host. */
  lemma {:induction false} InvalidDomainLiteral(bad: string)
    requires bad == "invalid domain"
    ensures !ValidHost(bad) && TrimSpace(bad) == bad
  {
    assert !IsSpace(bad[0]) && !IsSpace(bad[|bad| - 1]) && IsSpace(bad[7]);
  }

  /** "": an empty list holds no host, an error. */
  lemma {:induction false} EmptyStringRejected(s: string)
    requires s == ""
    ensures ParseDomainsFromString(s) == Failure(NoValidDomains)
  {
    assert NonBlank([""]) == [] by { assert [""][..0] == []; }
  }

  /** One invalid entry fails the whole list, even after a valid one, and is named in the error. */
  lemma {:induction false} ParseRejectsBadEntry(a: string, bad: string)
    requires GoodLine(a) && ',' !in a && ',' !in bad
    requires TrimSpace(bad) == bad != "" && !ValidHost(bad)
    ensures var r := ParseDomainsFromString(a + [','] + bad);
      r.Failure? && r.error == InvalidDomain(bad, ValidateHost(bad).error)
  {
    var entries := [a, bad];
    assert Join(entries[1..], ',') == bad;
    assert Join(entries, ',') == a + [','] + bad;
    SplitJoin(entries, ',');
    assert entries[..1] == [a] && [a][..0] == [];
    assert CollectHosts([a]) == Success([a]) by {
      assert CollectHosts([a][..0]) == Success([]);
      assert TrimSpace([a][0]) == a && ValidateHost(a) == Pass;
      assert [] + [a] == [a];
    }
    assert CollectHosts(entries) == Failure(EntryError(1, bad, ValidateHost(bad).error));
  }

  /** "example.com" is a good line holding no comma. */
  lemma {:induction false} ExampleComGood(a: string)
    requires a == "example.com"
    ensures GoodLine(a) && ',' !in a
  {
    HostnameAccepted(a);
    assert !IsSpace(a[0]) && !IsSpace(a[|a| - 1]);
  }

  /** "host with spaces" is trimmed, comma-free and invalid. */
  lemma {:induction false} HostWithSpacesInvalid(bad: string)
    requires bad == "host with spaces"
    ensures TrimSpace(bad) == bad != "" && !ValidHost(bad) && ',' !in bad
  {
    assert !IsSpace(bad[0]) && !IsSpace(bad[|bad| - 1]) && IsSpace(bad[4]);
  }

  /** "example.com,host with spaces". */
  lemma {:induction false} HostWithSpacesRejected(s: string)
    requires s == "example.com,host with spaces"
    ensures ParseDomainsFromString(s).Failure?
  {
    var a, bad := "example.com", "host with spaces";
    assert s == a + [','] + bad;
    ExampleComGood(a);
    HostWithSpacesInvalid(bad);
    ParseRejectsBadEntry(a, bad);
  }

  /** Four lines, range (1, 2): the second and third lines, as GetHosts returns them. */
  lemma {:induction false} RangeOfFourLines(a: string, b: string, c: string, d: string)
    requires GoodLine(a) && GoodLine(b) && GoodLine(c) && GoodLine(d)
    ensures SelectHosts([a, b, c, d], 1, 2) == Success([b, c])
  {
    var lines := [a, b, c, d];
    assert Window(lines, 1, 2) == [b, c];
    TwoGoodLines(b, c);
    SelectHostsContract(lines, 1, 2);
  }

  // ----- AppConfig.Validate -----

  /** The configurations the Validate test accepts. */
  lemma {:induction false} ValidConfigsAccepted(c: AppConfig)
    requires || c == AppConfig("config.yaml", "", "", 0, 0, 5, false, "table", "")
             || c == AppConfig("", "example.com,google.com", "", 0, 0, 10, false, "json", "")
             || c == AppConfig("", "", "domains.txt", 10, 20, 10, false, "json", "")
             || c == AppConfig("", "example.com", "", 0, 0, 5, false, "", "")
    ensures Validate(c) == Pass
  {
  }

  /** The configurations the Validate test rejects, each for its own rule. */
  lemma {:induction false} InvalidConfigsRejected(c: AppConfig)
    requires || c == AppConfig("", "", "", 0, 0, 5, false, "", "")
             || c == AppConfig("config.yaml", "example.com", "", 0, 0, 5, false, "", "")
             || c == AppConfig("config.yaml", "", "domains.txt", 0, 0, 5, false, "", "")
             || c == AppConfig("", "example.com", "domains.txt", 0, 0, 5, false, "", "")
             || c == AppConfig("", "example.com", "", 1, 0, 5, false, "", "")
             || c == AppConfig("", "example.com", "", 0, 1, 5, false, "", "")
             || c == AppConfig("", "", "domains.txt", -1, 0, 5, false, "", "")
             || c == AppConfig("", "", "domains.txt", 0, -1, 5, false, "", "")
             || c == AppConfig("", "example.com", "", 0, 0, 0, false, "", "")
             || c == AppConfig("", "example.com", "", 0, 0, 5, false, "xml", "")
    ensures HostSourceCount(c) == 0 ==> Validate(c) == Fail(NoHostSource)
    ensures HostSourceCount(c) > 1 ==> Validate(c) == Fail(MultipleHostSources)
    ensures HostSourceCount(c) == 1 && c.domainsFile == "" && (c.domainsFileSkip != 0 || c.domainsFileLimit != 0) ==>
      Validate(c) == Fail(RangeWithoutDomainsFile)
    ensures c.domainsFile != "" && c.domainsFileSkip < 0 ==> Validate(c) == Fail(NegativeDomainsFileSkip)
    ensures c.domainsFile != "" && c.domainsFileLimit < 0 ==> Validate(c) == Fail(NegativeDomainsFileLimit)
    ensures c.timeout == 0 ==> Validate(c) == Fail(NonPositiveTimeout)
    ensures c.outputFormat == "xml" ==> Validate(c) == Fail(UnsupportedOutputFormat("xml"))
  {
  }
}
