/**
 * `validateHost` of the `config` package: the syntax check every host entry passes
 * before it reaches the certificate checker, `host[:port]`, `[ipv6][:port]` or a
 * bare IPv6 literal.
 */
module Hosts {
  import opened Wrappers
  import opened Strings

  const MinPort := 1
  const MaxPort := 65535

  /** Why a host string is rejected. */
  datatype HostError =
    | EmptyHost                 // empty or white space only
    | ContainsWhitespace        // white space inside the host
    | MissingClosingBracket     // "[" without "]"
    | EmptyIPv6Address          // "[]"
    | InvalidAfterBracket       // text after "]" that is not ":port"
    | EmptyHostname             // ":port" with nothing before the colon
    | InvalidPort(port: string) // not a run of decimal digits
    | PortOutOfRange(number: nat) // outside 1..65535

  /** Position of the first `c` in `s`. */
  function IndexOf(s: string, c: char): (r: Option<nat>)
    ensures r.None? <==> c !in s
    ensures r.Some? ==> r.value < |s| && s[r.value] == c && c !in s[..r.value]
  {
    if s == [] then None
    else if s[0] == c then Some(0)
    else match IndexOf(s[1..], c)
      case None => None
      case Some(i) =>
        assert s[..i + 1] == [s[0]] + s[1..][..i];
        Some(i + 1)
  }

  predicate ValidPort(port: string) {
    IsDecimal(port) && MinPort <= DecimalValue(port) <= MaxPort
  }

  function ValidatePort(port: string): (r: Outcome<HostError>)
    ensures r.Pass? <==> ValidPort(port)
    ensures r.Fail? ==> r.error.InvalidPort? || r.error.PortOutOfRange?
  {
    if !IsDecimal(port) then Fail(InvalidPort(port))
    else if DecimalValue(port) < MinPort || DecimalValue(port) > MaxPort then Fail(PortOutOfRange(DecimalValue(port)))
    else Pass
  }

  /** `[address]`, optionally followed by `:port`. */
  function ValidateBracketed(host: string): (r: Outcome<HostError>)
    requires |host| > 0 && host[0] == '['
  {
    match IndexOf(host, ']')
    case None => Fail(MissingClosingBracket)
    case Some(close) =>
      if close == 1 then Fail(EmptyIPv6Address)
      else
        var rest := host[close + 1..];
        if rest == "" then Pass
        else if rest[0] != ':' then Fail(InvalidAfterBracket)
        else ValidatePort(rest[1..])
  }

  function ValidateHost(host: string): (r: Outcome<HostError>)
    ensures r.Pass? ==> host != "" && !HasSpace(host)
    ensures r == Fail(EmptyHost) <==> AllSpace(host)
  {
    if AllSpace(host) then Fail(EmptyHost)
    else if HasSpace(host) then Fail(ContainsWhitespace)
    else if host[0] == '[' then ValidateBracketed(host)
    else if Count(host, ':') > 1 then Pass  // a bare IPv6 literal such as 2001:db8::1
    else match IndexOf(host, ':')
      case None => Pass
      case Some(colon) =>
        if colon == 0 then Fail(EmptyHostname)
        else ValidatePort(host[colon + 1..])
  }

  predicate ValidHost(host: string) {
    ValidateHost(host).Pass?
  }

  /** A host name without port: non-empty, no white space, no colon, no leading bracket. */
  predicate PlainName(name: string) {
    name != "" && !HasSpace(name) && ':' !in name && name[0] != '['
  }

  lemma {:induction false} NoSpaceConcat(a: string, b: string)
    requires !HasSpace(a) && !HasSpace(b)
    ensures !HasSpace(a + b)
  {
    forall i | 0 <= i < |a + b| ensures !IsSpace((a + b)[i]) {
      if i < |a| { assert (a + b)[i] == a[i]; } else { assert (a + b)[i] == b[i - |a|]; }
    }
  }

  lemma {:induction false} DecimalHasNoSpace(s: string)
    requires IsDecimal(s)
    ensures !HasSpace(s) && ':' !in s
  {
  }

  /** "example.com" and "www.example.com": a plain name alone is accepted. */
  lemma {:induction false} PlainNameAccepted(name: string)
    requires PlainName(name)
    ensures ValidHost(name)
  {
    assert name[0] in name;
    CountZero(name, ':');
  }

  /** "name:port" is accepted exactly when the port is a decimal number in 1..65535. */
  lemma {:induction false} NamePortAccepted(name: string, port: string)
    requires PlainName(name) && ':' !in port
    ensures ValidHost(name + ":" + port) <==> ValidPort(port)
  {
    var h := name + ":" + port;
    assert h[0] == name[0];
    assert !AllSpace(h) by { assert !IsSpace(h[|name|]); }
    assert Count(h, ':') == 1 by {
      CountConcat(name, ":", ':');
      CountConcat(name + ":", port, ':');
      CountZero(name, ':');
      CountZero(port, ':');
    }
    assert h[..|name|] == name;
    assert IndexOf(h, ':') == Some(|name|);
    assert h[|name| + 1..] == port;
    if ValidPort(port) {
      DecimalHasNoSpace(port);
      NoSpaceConcat(name, ":");
      NoSpaceConcat(name + ":", port);
    }
  }

  /** ":443": an empty host name before the port is rejected. */
  lemma {:induction false} EmptyNameRejected(port: string)
    requires ':' !in port
    ensures !ValidHost(":" + port)
  {
    var h := ":" + port;
    assert h[0] == ':' && !IsSpace(h[0]);
    assert Count(h, ':') == 1 by {
      CountConcat(":", port, ':');
      CountZero(port, ':');
    }
    assert IndexOf(h, ':') == Some(0);
  }

  /** "2001:db8::1": two or more colons without brackets form a bare IPv6 literal, accepted. */
  lemma {:induction false} BareIPv6Accepted(host: string)
    requires host != "" && !HasSpace(host) && host[0] != '[' && Count(host, ':') > 1
    ensures ValidHost(host)
  {
    assert !IsSpace(host[0]);
  }

  /** A host that opens with '[' is judged by its bracketed form once it is free of white space. */
  lemma {:induction false} BracketedHost(h: string)
    requires |h| > 0 && h[0] == '['
    ensures ValidateHost(h) == if HasSpace(h) then Fail(ContainsWhitespace) else ValidateBracketed(h)
  {
    assert !IsSpace(h[0]);
  }

  /** "[::1]": a bracketed address alone is accepted. */
  lemma {:induction false} BracketedAccepted(addr: string)
    requires addr != "" && ']' !in addr && !HasSpace(addr)
    ensures ValidHost("[" + addr + "]")
  {
    var h := "[" + addr + "]";
    BracketThenRest(addr, "");
    BracketedNoSpace(addr, "");
    assert h + "" == h;
    BracketedHost(h);
  }

  /** "[::1]:8080": a bracketed address with a port is accepted exactly when the port is valid. */
  lemma {:induction false} BracketedPortAccepted(addr: string, port: string)
    requires addr != "" && ']' !in addr && !HasSpace(addr)
    ensures ValidHost("[" + addr + "]:" + port) <==> ValidPort(port)
  {
    var h := "[" + addr + "]:" + port;
    BracketedPortVerdict(addr, port);
    BracketedHost(h);
    if ValidPort(port) {
      DecimalHasNoSpace(port);
      NoSpaceConcat(":", port);
      BracketedNoSpace(addr, ":" + port);
      assert "[" + addr + "]" + (":" + port) == h;
    }
  }

  lemma {:induction false} BracketedPortVerdict(addr: string, port: string)
    requires addr != "" && ']' !in addr
    ensures var h := "[" + addr + "]:" + port;
      |h| > 0 && h[0] == '[' && ValidateBracketed(h) == ValidatePort(port)
  {
    var rest := ":" + port;
    BracketThenRest(addr, rest);
    assert "[" + addr + "]" + rest == "[" + addr + "]:" + port;
    assert rest[1..] == port;
  }

  lemma {:induction false} BracketedNoSpace(addr: string, rest: string)
    requires !HasSpace(addr) && !HasSpace(rest)
    ensures !HasSpace("[" + addr + "]" + rest)
  {
    NoSpaceConcat("[", addr);
    NoSpaceConcat("[" + addr, "]");
    NoSpaceConcat("[" + addr + "]", rest);
  }

  /** "[::1]invalid": text after the closing bracket that does not start with ':' is rejected. */
  lemma {:induction false} TextAfterBracketRejected(addr: string, rest: string)
    requires addr != "" && ']' !in addr
    requires rest != "" && rest[0] != ':'
    ensures !ValidHost("[" + addr + "]" + rest)
  {
    BracketThenRest(addr, rest);
    var h := "[" + addr + "]" + rest;
    assert !IsSpace(h[0]);
  }

  lemma {:induction false} BracketThenRest(addr: string, rest: string)
    requires addr != "" && ']' !in addr
    ensures var h := "[" + addr + "]" + rest;
      && |h| > 0 && h[0] == '['
      && ValidateBracketed(h) ==
         if rest == "" then Pass
         else if rest[0] != ':' then Fail(InvalidAfterBracket)
         else ValidatePort(rest[1..])
  {
    var h := "[" + addr + "]" + rest;
    assert h[..|addr| + 1] == "[" + addr;
    assert h[|addr| + 1] == ']';
    assert IndexOf(h, ']') == Some(|addr| + 1);
    assert h[|addr| + 2..] == rest;
  }

  /** "[::1:8080": an opening bracket without a closing one is rejected. */
  lemma {:induction false} UnclosedBracketRejected(s: string)
    requires ']' !in s
    ensures !ValidHost("[" + s)
  {
    var h := "[" + s;
    assert h[0] == '[' && !IsSpace(h[0]);
    assert ']' !in h by { assert forall i :: 0 < i < |h| ==> h[i] == s[i - 1]; }
  }

  /** "[]": an empty bracketed address is rejected, whatever follows. */
  lemma {:induction false} EmptyBracketsRejected(rest: string)
    ensures !ValidHost("[]" + rest)
  {
    var h := "[]" + rest;
    assert h[0] == '[' && !IsSpace(h[0]) && h[1] == ']';
    assert IndexOf(h, ']') == Some(1) by { assert h[..1] == "["; }
  }

  /** The port a caller spells with NatToDecimal is accepted exactly when it lies in 1..65535. */
  lemma {:induction false} PortRoundTrip(name: string, port: nat)
    requires PlainName(name)
    ensures ValidHost(name + ":" + NatToDecimal(port)) <==> MinPort <= port <= MaxPort
  {
    DecimalHasNoSpace(NatToDecimal(port));
    NamePortAccepted(name, NatToDecimal(port));
  }
}
