/**
 * The literal host strings and file contents of the host-list tests, run through the
 * general lemmas of `Config` and the generic cases of `Cases`. The file reader is in
 * `config.go`, which is not part of this model; a file is given as the lines it is
 * assumed to yield: the contents split at line breaks, with a carriage return before a
 * line break dropped, as a default `bufio.Scanner` would do.
 */
module TestInputs {
  import opened Wrappers
  import opened Strings
  import opened Hosts
  import opened Config
  import opened Cases

  // ----- host strings -----

  /** A plain name is a good, comma-free line. */
  lemma {:induction false} PlainGood(x: string)
    requires PlainName(x) && ',' !in x
    ensures GoodLine(x)
  {
    assert !IsSpace(x[0]) && !IsSpace(x[|x| - 1]);
    PlainNameAccepted(x);
  }

  /** A plain name with a valid port is a good, comma-free line. */
  lemma {:induction false} NamePortGood(name: string, port: string)
    requires PlainName(name) && ',' !in name && ValidPort(port)
    ensures GoodLine(name + ":" + port) && ',' !in name + ":" + port
  {
    var h := name + ":" + port;
    NamePortAccepted(name, port);
    assert h[0] == name[0] && !IsSpace(h[0]);
    assert h[|h| - 1] == port[|port| - 1] && IsDigit(port[|port| - 1]);
    assert ',' !in port by { assert forall i :: 0 <= i < |port| ==> IsDigit(port[i]); }
  }

  /** Lower-case letters, digits, dots and hyphens: the characters of the test's host names. */
  predicate NameChars(x: string) {
    forall i :: 0 <= i < |x| ==> ('a' <= x[i] <= 'z') || ('0' <= x[i] <= '9') || x[i] == '.' || x[i] == '-'
  }

  /** Such a name is plain, comma-free and a good line. */
  lemma {:induction false} NameCharsGood(x: string)
    requires x != "" && NameChars(x)
    ensures PlainName(x) && ',' !in x && GoodLine(x)
  {
    assert !HasSpace(x);
    assert ':' !in x && ',' !in x;
    PlainGood(x);
  }

  // One lemma per literal name, so that each is checked character by character on its own.

  lemma {:induction false} ExampleComName(x: string)
    requires x == "example.com"
    ensures x != "" && NameChars(x)
  {
  }

  lemma {:induction false} GoogleComName(x: string)
    requires x == "google.com"
    ensures x != "" && NameChars(x)
  {
  }

  lemma {:induction false} GithubComName(x: string)
    requires x == "github.com"
    ensures x != "" && NameChars(x)
  {
  }

  lemma {:induction false} FirstExampleName(x: string)
    requires x == "first.example.com"
    ensures x != "" && NameChars(x)
  {
  }

  lemma {:induction false} SecondExampleName(x: string)
    requires x == "second.example.com"
    ensures x != "" && NameChars(x)
  {
  }

  lemma {:induction false} ThirdExampleName(x: string)
    requires x == "third.example.com"
    ensures x != "" && NameChars(x)
  {
  }

  lemma {:induction false} FourthExampleName(x: string)
    requires x == "fourth.example.com"
    ensures x != "" && NameChars(x)
  {
  }

  lemma {:induction false} AlphaExampleName(x: string)
    requires x == "alpha.example.com"
    ensures x != "" && NameChars(x)
  {
  }

  lemma {:induction false} BetaExampleName(x: string)
    requires x == "beta.example.com"
    ensures x != "" && NameChars(x)
  {
  }

  lemma {:induction false} GammaExampleName(x: string)
    requires x == "gamma.example.com"
    ensures x != "" && NameChars(x)
  {
  }

  lemma {:induction false} DeltaExampleName(x: string)
    requires x == "delta.example.com"
    ensures x != "" && NameChars(x)
  {
  }

  /** A name with one space on each side trims to the name. */
  lemma {:induction false} Padded(x: string)
    requires GoodLine(x)
    ensures TrimSpace(" " + x + " ") == x
  {
    assert !IsSpace(x[0]) && !IsSpace(x[|x| - 1]);
    TrimSpaceOfPadded(" ", x, " ");
  }

  lemma {:induction false} PaddedExampleCom(x: string)
    requires x == " example.com "
    ensures ',' !in x && TrimSpace(x) == "example.com" && GoodLine("example.com")
  {
    var n := "example.com";
    assert x == " " + n + " ";
    ExampleComName(n);
    NameCharsGood(n);
    Padded(n);
  }

  lemma {:induction false} PaddedGoogleCom(x: string)
    requires x == " google.com "
    ensures ',' !in x && TrimSpace(x) == "google.com" && GoodLine("google.com")
  {
    var n := "google.com";
    assert x == " " + n + " ";
    GoogleComName(n);
    NameCharsGood(n);
    Padded(n);
  }

  lemma {:induction false} PaddedGithubCom(x: string)
    requires x == " github.com "
    ensures ',' !in x && TrimSpace(x) == "github.com" && GoodLine("github.com")
  {
    var n := "github.com";
    assert x == " " + n + " ";
    GithubComName(n);
    NameCharsGood(n);
    Padded(n);
  }

  lemma {:induction false} PaddedGooglePort(x: string)
    requires x == " google.com:443 "
    ensures TrimSpace(x) == "google.com:443" && GoodLine("google.com:443")
  {
    var n, port := "google.com", "443";
    assert x == " " + (n + ":" + port) + " " && n + ":" + port == "google.com:443";
    GoogleComName(n);
    ValidPort443(port);
    NamePortGood(n, port);
    Padded(n + ":" + port);
  }

  // ----- ParseDomainsFromString -----

  lemma {:induction false} JoinOfTwo(a: string, b: string, sep: char)
    ensures Join([a, b], sep) == a + [sep] + b
  {
    assert Join([a, b][1..], sep) == b;
  }

  lemma {:induction false} JoinOfThree(a: string, b: string, c: string, sep: char)
    ensures Join([a, b, c], sep) == a + [sep] + b + [sep] + c
  {
    JoinOfTwo(b, c, sep);
    assert [a, b, c][1..] == [b, c];
  }

  /** Plain names joined with commas parse to themselves, in order. */
  lemma {:induction false} ParsePlainNames(names: seq<string>)
    requires |names| >= 1 && forall i :: 0 <= i < |names| ==> names[i] != "" && NameChars(names[i])
    ensures ParseDomainsFromString(Join(names, ',')) == Success(names)
  {
    forall i | 0 <= i < |names|
      ensures ',' !in names[i] && TrimSpace(names[i]) == names[i] != "" && ValidHost(names[i])
    {
      NameCharsGood(names[i]);
    }
    ParseTrimmedEntries(names, names);
  }

  /** `name:port` entries with valid ports, joined with commas, parse to themselves, in order. */
  lemma {:induction false} ParsePortedNames(hosts: seq<string>, names: seq<string>, ports: seq<string>)
    requires |hosts| == |names| == |ports| >= 1
    requires forall i :: 0 <= i < |hosts| ==>
      names[i] != "" && NameChars(names[i]) && ValidPort(ports[i]) && hosts[i] == names[i] + ":" + ports[i]
    ensures ParseDomainsFromString(Join(hosts, ',')) == Success(hosts)
  {
    forall i | 0 <= i < |hosts|
      ensures ',' !in hosts[i] && TrimSpace(hosts[i]) == hosts[i] != "" && ValidHost(hosts[i])
    {
      NameCharsGood(names[i]);
      NamePortGood(names[i], ports[i]);
    }
    ParseTrimmedEntries(hosts, hosts);
  }

  /** Three comma-free entries that trim to good hosts, joined with commas, parse to those hosts. */
  lemma {:induction false} ParseThreeEntries(e1: string, e2: string, e3: string, a: string, b: string, c: string)
    requires ',' !in e1 && ',' !in e2 && ',' !in e3
    requires TrimSpace(e1) == a && TrimSpace(e2) == b && TrimSpace(e3) == c
    requires GoodLine(a) && GoodLine(b) && GoodLine(c)
    ensures ParseDomainsFromString(e1 + [','] + e2 + [','] + e3) == Success([a, b, c])
  {
    JoinOfThree(e1, e2, e3, ',');
    ParseTrimmedEntries([e1, e2, e3], [a, b, c]);
  }

  /** "example.com" gives ["example.com"]. */
  lemma {:induction false} SingleDomain(s: string)
    requires s == "example.com"
    ensures ParseDomainsFromString(s) == Success(["example.com"])
  {
    ExampleComName(s);
    ParsePlainNames([s]);
  }

  /** "example.com,google.com,github.com" gives the three names in order. */
  lemma {:induction false} MultipleDomains(s: string)
    requires s == "example.com,google.com,github.com"
    ensures ParseDomainsFromString(s) == Success(["example.com", "google.com", "github.com"])
  {
    var a, b, c := "example.com", "google.com", "github.com";
    assert s == a + [','] + b + [','] + c;
    ExampleComName(a);
    GoogleComName(b);
    GithubComName(c);
    JoinOfThree(a, b, c, ',');
    ParsePlainNames([a, b, c]);
  }

  /** "example.com:443,google.com:8080" gives both hosts with their ports. */
  lemma {:induction false} DomainsWithPorts(s: string)
    requires s == "example.com:443,google.com:8080"
    ensures ParseDomainsFromString(s) == Success(["example.com:443", "google.com:8080"])
  {
    var n1, p1, n2, p2 := "example.com", "443", "google.com", "8080";
    var a, b := n1 + ":" + p1, n2 + ":" + p2;
    assert s == a + [','] + b;
    assert a == "example.com:443" && b == "google.com:8080";
    ExampleComName(n1);
    GoogleComName(n2);
    ValidPort443(p1);
    ValidPort8080(p2);
    JoinOfTwo(a, b, ',');
    ParsePortedNames([a, b], [n1, n2], [p1, p2]);
  }

  /** " example.com , google.com , github.com " gives the three names, trimmed, in order. */
  lemma {:induction false} DomainsWithSpaces(s: string)
    requires s == " example.com , google.com , github.com "
    ensures ParseDomainsFromString(s) == Success(["example.com", "google.com", "github.com"])
  {
    var e1, e2, e3 := " example.com ", " google.com ", " github.com ";
    assert s == e1 + [','] + e2 + [','] + e3;
    PaddedExampleCom(e1);
    PaddedGoogleCom(e2);
    PaddedGithubCom(e3);
    ParseThreeEntries(e1, e2, e3, "example.com", "google.com", "github.com");
  }

  // ----- ParseDomainsFromFile -----

  /** A whole file whose non-blank lines are all valid hosts lists them. */
  lemma {:induction false} WholeFileHosts(lines: seq<string>, hosts: seq<string>)
    requires NonBlank(lines) == hosts != [] && AllValid(hosts)
    ensures SelectHosts(lines, 0, 0) == Success(hosts)
  {
    WholeWindow(lines);
    SelectHostsContract(lines, 0, 0);
  }

  /** Five lines, the second and fourth blank: the other three, trimmed, in order. */
  lemma {:induction false} NonBlankOfFive(a: string, b1: string, b: string, b2: string, c: string)
    requires TrimSpace(b1) == "" && TrimSpace(b2) == ""
    requires TrimSpace(a) != "" && TrimSpace(b) != "" && TrimSpace(c) != ""
    ensures NonBlank([a, b1, b, b2, c]) == [TrimSpace(a), TrimSpace(b), TrimSpace(c)]
  {
    var ta, tb, tc := TrimSpace(a), TrimSpace(b), TrimSpace(c);
    assert NonBlank([a]) == [ta] by { NonBlankOne(a); }
    assert NonBlank([a, b1]) == [ta] by { assert [a, b1][..1] == [a]; }
    assert NonBlank([a, b1, b]) == [ta, tb] by { assert [a, b1, b][..2] == [a, b1]; }
    assert NonBlank([a, b1, b, b2]) == [ta, tb] by { assert [a, b1, b, b2][..3] == [a, b1, b]; }
    assert [a, b1, b, b2, c][..4] == [a, b1, b, b2];
  }

  /**
   * Five lines, the second and fourth blank, the others trimming to good hosts: the whole
   * file yields those three hosts in order.
   */
  lemma {:induction false} FileOfFiveLines(l0: string, l2: string, l3: string, l4: string, a: string, b: string, c: string)
    requires TrimSpace(l0) == a && TrimSpace(l2) == b && TrimSpace(l3) == "" && TrimSpace(l4) == c
    requires GoodLine(a) && GoodLine(b) && GoodLine(c)
    ensures SelectHosts([l0, "", l2, l3, l4], 0, 0) == Success([a, b, c])
  {
    NonBlankOfFive(l0, "", l2, l3, l4);
    assert AllValid([a, b, c]) by {
      assert ValidHost([a, b, c][0]) && ValidHost([a, b, c][1]) && ValidHost([a, b, c][2]);
    }
    WholeFileHosts([l0, "", l2, l3, l4], [a, b, c]);
  }

  /** " example.com \n\n google.com:443 \n   \ngithub.com\n": the three hosts, trimmed, in order. */
  lemma {:induction false} DomainsFileParsed(lines: seq<string>)
    requires lines == [" example.com ", "", " google.com:443 ", "   ", "github.com"]
    ensures SelectHosts(lines, 0, 0) == Success(["example.com", "google.com:443", "github.com"])
  {
    var l0, l2, l3, l4 := " example.com ", " google.com:443 ", "   ", "github.com";
    PaddedExampleCom(l0);
    PaddedGooglePort(l2);
    GithubComName(l4);
    NameCharsGood(l4);
    assert TrimSpace(l3) == "" by { TrimSpaceTrims(l3); }
    FileOfFiveLines(l0, l2, l3, l4, "example.com", "google.com:443", l4);
  }

  /** "\n  \n\t\r\n": only white space, so no host and an error. */
  lemma {:induction false} EmptyDomainsFileRejected(lines: seq<string>)
    requires lines == ["", "  ", "\t"]
    ensures SelectHosts(lines, 0, 0).Failure? && SelectHosts(lines, 0, 0).error.NoDomainsInRange?
  {
    WholeWindow(lines);
    SelectHostsContract(lines, 0, 0);
    assert TrimSpace("  ") == "" && TrimSpace("\t") == "" by {
      TrimSpaceTrims("  ");
      TrimSpaceTrims("\t");
    }
    NonBlankOne("");
    NonBlankOne("  ");
    NonBlankOne("\t");
    NonBlankAppend([""], ["  "]);
    NonBlankAppend(["", "  "], ["\t"]);
    assert [""] + ["  "] == ["", "  "] && ["", "  "] + ["\t"] == lines;
  }

  /** "example.com\ninvalid domain\n": the second line is invalid and reported as line 2. */
  lemma {:induction false} InvalidDomainsFileRejected(lines: seq<string>)
    requires lines == ["example.com", "invalid domain"]
    ensures var r := SelectHosts(lines, 0, 0);
      r.Failure? && r.error.InvalidDomainAtLine? && r.error.line == 2
  {
    var a, bad := "example.com", "invalid domain";
    ExampleComName(a);
    NameCharsGood(a);
    InvalidDomainLiteral(bad);
    WholeWindow(lines);
    SelectHostsContract(lines, 0, 0);
    NonBlankMembers(lines, bad);
    assert lines[1] == bad;
    assert !AllValid(NonBlank(lines)) by {
      var k :| 0 <= k < |NonBlank(lines)| && NonBlank(lines)[k] == bad;
    }
    SelectHostsNamesLine(lines, 0, 0);
    assert lines[0] == a;
  }

  // ----- ParseDomainsFromFileWithRange and GetHosts -----

  /**
   * "first.example.com\n\nsecond.example.com:443\nthird.example.com\nfourth.example.com\n":
   * (1, 3) and (3, 2) give the hosts the test expects, and (100, 1) nothing.
   */
  lemma {:induction false} RangeFileSelected(lines: seq<string>)
    requires lines ==
      ["first.example.com", "", "second.example.com:443", "third.example.com", "fourth.example.com"]
    ensures SelectHosts(lines, 1, 3) == Success(["second.example.com:443", "third.example.com"])
    ensures SelectHosts(lines, 3, 2) == Success(["third.example.com", "fourth.example.com"])
    ensures SelectHosts(lines, 100, 1) == Failure(NoDomainsInRange(100, 1))
  {
    var a, n, port, c, d := "first.example.com", "second.example.com", "443", "third.example.com", "fourth.example.com";
    var b := n + ":" + port;
    assert b == "second.example.com:443";
    assert lines == [a, "", b, c, d];
    FirstExampleName(a);
    SecondExampleName(n);
    ThirdExampleName(c);
    FourthExampleName(d);
    NameCharsGood(a);
    NameCharsGood(n);
    NameCharsGood(c);
    NameCharsGood(d);
    ValidPort443(port);
    NamePortGood(n, port);
    RangeCountsBlankLines(a, b, c, d);
    RangeTakesLastLines(a, b, c, d);
    RangePastEndRejected(lines);
  }

  /** "first.example.com\nsecond.example.com\ninvalid domain\n" with (1, 2): the error names line 3. */
  lemma {:induction false} InvalidRangeFileRejected(lines: seq<string>)
    requires lines == ["first.example.com", "second.example.com", "invalid domain"]
    ensures var r := SelectHosts(lines, 1, 2);
      r.Failure? && r.error.InvalidDomainAtLine? && r.error.line == 3
  {
    var a, b, bad := "first.example.com", "second.example.com", "invalid domain";
    FirstExampleName(a);
    SecondExampleName(b);
    NameCharsGood(a);
    NameCharsGood(b);
    InvalidDomainLiteral(bad);
    InvalidLineNumbered(a, b, bad);
  }

  /**
   * GetHosts on a domains file of alpha, beta, gamma and delta.example.com with skip 1 and
   * limit 2: the configuration is valid and the selection is beta and gamma.
   */
  lemma {:induction false} GetHostsRangeSelected(c: AppConfig, lines: seq<string>)
    requires c == AppConfig("", "", "domains.txt", 1, 2, 5, false, "table", "")
    requires lines == ["alpha.example.com", "beta.example.com", "gamma.example.com", "delta.example.com"]
    ensures Validate(c) == Pass
    ensures SelectHosts(lines, c.domainsFileSkip, c.domainsFileLimit) ==
      Success(["beta.example.com", "gamma.example.com"])
  {
    var a, b, g, d := "alpha.example.com", "beta.example.com", "gamma.example.com", "delta.example.com";
    AlphaExampleName(a);
    BetaExampleName(b);
    GammaExampleName(g);
    DeltaExampleName(d);
    NameCharsGood(a);
    NameCharsGood(b);
    NameCharsGood(g);
    NameCharsGood(d);
    RangeOfFourLines(a, b, g, d);
  }

  /** The `GetHosts` call of the domains-file range test, on that test's configuration and file. */
  method GetHostsRangeTest(lines: seq<string>) returns (r: Result<seq<string>, ParseError>)
    requires lines == ["alpha.example.com", "beta.example.com", "gamma.example.com", "delta.example.com"]
    ensures r == Success(["beta.example.com", "gamma.example.com"])
  {
    var c := AppConfig("", "", "domains.txt", 1, 2, 5, false, "table", "");
    GetHostsRangeSelected(c, lines);
    r := GetHosts(c, [], lines);
  }
}
