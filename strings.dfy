/**
 * The string helpers of Go's `strings` package that the host-list parser and the
 * output formatter rely on: white space, TrimSpace, Split, Join and decimal numbers.
 */
module Strings {

  /** The white space above Latin-1: the other characters with the Unicode White_Space property. */
  const WideSpaceChars: set<char> := {
    '\U{1680}', '\U{2000}', '\U{2001}', '\U{2002}', '\U{2003}', '\U{2004}', '\U{2005}',
    '\U{2006}', '\U{2007}', '\U{2008}', '\U{2009}', '\U{200A}',
    '\U{2028}', '\U{2029}', '\U{202F}', '\U{205F}', '\U{3000}'
  }

  /** Go's `unicode.IsSpace`: a Latin-1 test first, then the White_Space table. */
  predicate IsSpace(c: char) {
    if c <= '\U{FF}' then
      c == ' ' || ('\t' <= c <= '\r') || c == '\U{85}' || c == '\U{A0}'
    else
      c in WideSpaceChars
  }

  predicate AllSpace(s: string) {
    forall i :: 0 <= i < |s| ==> IsSpace(s[i])
  }

  predicate HasSpace(s: string) {
    exists i :: 0 <= i < |s| && IsSpace(s[i])
  }

  /** Neither end of `s` is white space. */
  predicate IsTrimmed(s: string) {
    s == [] || (!IsSpace(s[0]) && !IsSpace(s[|s| - 1]))
  }

  /** Go's `strings.TrimSpace`: `s` without its leading and trailing white space. */
  function TrimSpace(s: string): (r: string)
    ensures |r| <= |s|
  {
    if s == [] then []
    else if IsSpace(s[0]) then TrimSpace(s[1..])
    else if IsSpace(s[|s| - 1]) then TrimSpace(s[..|s| - 1])
    else s
  }

  /** The result has no white space at either end, and is empty exactly when `s` is all white space. */
  lemma {:induction false} TrimSpaceTrims(s: string)
    ensures IsTrimmed(TrimSpace(s))
    ensures TrimSpace(s) == [] <==> AllSpace(s)
  {
    if s == [] {
    } else if IsSpace(s[0]) {
      TrimSpaceTrims(s[1..]);
      assert AllSpace(s) <==> AllSpace(s[1..]) by {
        assert forall i :: 0 < i < |s| ==> s[i] == s[1..][i - 1];
      }
    } else if IsSpace(s[|s| - 1]) {
      TrimSpaceTrims(s[..|s| - 1]);
      assert AllSpace(s) <==> AllSpace(s[..|s| - 1]) by {
        assert forall i :: 0 <= i < |s| - 1 ==> s[i] == s[..|s| - 1][i];
      }
    }
  }

  /** What TrimSpace removes is white space at the two ends, and what it keeps is the middle of `s`. */
  lemma {:induction false} TrimSpaceIsMiddle(s: string) returns (k: nat)
    ensures k + |TrimSpace(s)| <= |s|
    ensures TrimSpace(s) == s[k..k + |TrimSpace(s)|]
    ensures AllSpace(s[..k]) && AllSpace(s[k + |TrimSpace(s)|..])
  {
    if s == [] {
      k := 0;
    } else if IsSpace(s[0]) {
      var k' := TrimSpaceIsMiddle(s[1..]);
      k := k' + 1;
      MiddleAfterFront(s, k', TrimSpace(s[1..]));
    } else if IsSpace(s[|s| - 1]) {
      k := TrimSpaceIsMiddle(s[..|s| - 1]);
      MiddleBeforeBack(s, k, TrimSpace(s[..|s| - 1]));
    } else {
      k := 0;
    }
  }

  /** A middle of `s[1..]` surrounded by white space is a middle of `s` when `s[0]` is white space too. */
  lemma {:induction false} MiddleAfterFront(s: string, k: nat, m: string)
    requires s != [] && IsSpace(s[0])
    requires k + |m| <= |s| - 1 && m == s[1..][k..k + |m|]
    requires AllSpace(s[1..][..k]) && AllSpace(s[1..][k + |m|..])
    ensures m == s[k + 1..k + 1 + |m|]
    ensures AllSpace(s[..k + 1]) && AllSpace(s[k + 1 + |m|..])
  {
    assert s[k + 1..k + 1 + |m|] == s[1..][k..k + |m|];
    assert s[k + 1 + |m|..] == s[1..][k + |m|..];
    assert s[..k + 1] == [s[0]] + s[1..][..k];
  }

  /** A middle of `s` without its last character is a middle of `s` when that character is white space. */
  lemma {:induction false} MiddleBeforeBack(s: string, k: nat, m: string)
    requires s != [] && IsSpace(s[|s| - 1])
    requires k + |m| <= |s| - 1 && m == s[..|s| - 1][k..k + |m|]
    requires AllSpace(s[..|s| - 1][..k]) && AllSpace(s[..|s| - 1][k + |m|..])
    ensures m == s[k..k + |m|]
    ensures AllSpace(s[..k]) && AllSpace(s[k + |m|..])
  {
    var p := s[..|s| - 1];
    assert s[k..k + |m|] == p[k..k + |m|];
    assert s[..k] == p[..k];
    assert s[k + |m|..] == p[k + |m|..] + [s[|s| - 1]];
  }

  /** Trimming twice is trimming once. */
  lemma TrimSpaceIdempotent(s: string)
    ensures TrimSpace(TrimSpace(s)) == TrimSpace(s)
  {
    TrimSpaceTrims(s);
  }

  /** White space around a trimmed, non-empty text is exactly what TrimSpace removes. */
  lemma {:induction false} TrimSpaceOfPadded(l: string, x: string, r: string)
    requires AllSpace(l) && AllSpace(r) && x != [] && IsTrimmed(x)
    ensures TrimSpace(l + x + r) == x
  {
    var s := l + x + r;
    if l != [] {
      assert s[0] == l[0] && s[1..] == l[1..] + x + r;
      TrimSpaceOfPadded(l[1..], x, r);
    } else if r != [] {
      assert s == x + r && s[0] == x[0] && s[|s| - 1] == r[|r| - 1];
      assert s[..|s| - 1] == l + x + r[..|r| - 1];
      TrimSpaceOfPadded(l, x, r[..|r| - 1]);
    } else {
      assert s == x;
    }
  }

  /** Go's `strings.Count` for a one-character substring: how many times `c` occurs in `s`. */
  function Count(s: string, c: char): (n: nat)
    ensures n <= |s|
  {
    if s == [] then 0
    else Count(s[..|s| - 1], c) + (if s[|s| - 1] == c then 1 else 0)
  }

  /** A character is counted zero times exactly when it does not occur. */
  lemma {:induction false} CountZero(s: string, c: char)
    ensures Count(s, c) == 0 <==> c !in s
  {
    if s != [] {
      CountZero(s[..|s| - 1], c);
      assert s == s[..|s| - 1] + [s[|s| - 1]];
    }
  }

  /** Counting is additive over concatenation. */
  lemma {:induction false} CountConcat(a: string, b: string, c: char)
    ensures Count(a + b, c) == Count(a, c) + Count(b, c)
  {
    if b == [] {
      assert a + b == a;
    } else {
      CountConcat(a, b[..|b| - 1], c);
      assert (a + b)[..|a + b| - 1] == a + b[..|b| - 1];
    }
  }

  /** Go's `strings.HasSuffix`. */
  predicate HasSuffix(s: string, suffix: string) {
    |suffix| <= |s| && s[|s| - |suffix|..] == suffix
  }

  /** Go's `strings.Join(parts, string(sep))`. */
  function Join(parts: seq<string>, sep: char): (s: string)
    ensures |parts| == 1 ==> s == parts[0]
  {
    if |parts| == 0 then ""
    else if |parts| == 1 then parts[0]
    else parts[0] + [sep] + Join(parts[1..], sep)
  }

  /** Go's `strings.Split(s, string(sep))`: the pieces between separators, in order, "" giving [""]. */
  function Split(s: string, sep: char): (parts: seq<string>)
    ensures |parts| >= 1
  {
    if s == [] then [""]
    else
      var rest := Split(s[1..], sep);
      if s[0] == sep then [""] + rest
      else [[s[0]] + rest[0]] + rest[1..]
  }

  /** The pieces hold no separator, and joining them back with it gives `s` again. */
  lemma {:induction false} JoinSplit(s: string, sep: char)
    ensures forall i :: 0 <= i < |Split(s, sep)| ==> sep !in Split(s, sep)[i]
    ensures Join(Split(s, sep), sep) == s
  {
    if s != [] {
      JoinSplit(s[1..], sep);
      var rest := Split(s[1..], sep);
      if s[0] != sep {
        var parts := Split(s, sep);
        assert parts[0] == [s[0]] + rest[0];
        assert parts[1..] == rest[1..];
        forall i | 0 <= i < |parts| ensures sep !in parts[i] {
          if i > 0 { assert parts[i] == rest[i]; }
        }
        if |rest| > 1 {
          assert rest == [rest[0]] + rest[1..];
        }
      }
    }
  }

  lemma {:induction false} SplitNoSeparator(s: string, sep: char)
    requires sep !in s
    ensures Split(s, sep) == [s]
  {
    if s != [] {
      SplitNoSeparator(s[1..], sep);
      assert [s[0]] + s[1..] == s;
    }
  }

  lemma {:induction false} SplitAtSeparator(a: string, sep: char, b: string)
    requires sep !in a
    ensures Split(a + [sep] + b, sep) == [a] + Split(b, sep)
  {
    if a == [] {
      assert a + [sep] + b == [sep] + b;
      assert ([sep] + b)[1..] == b;
    } else {
      SplitAtSeparator(a[1..], sep, b);
      assert (a + [sep] + b)[1..] == a[1..] + [sep] + b;
      assert [a[0]] + a[1..] == a;
    }
  }

  /** Splitting what Join glued back together returns the pieces, when no piece holds the separator. */
  lemma {:induction false} SplitJoin(parts: seq<string>, sep: char)
    requires |parts| >= 1
    requires forall i :: 0 <= i < |parts| ==> sep !in parts[i]
    ensures Split(Join(parts, sep), sep) == parts
  {
    if |parts| == 1 {
      SplitNoSeparator(parts[0], sep);
    } else {
      SplitJoin(parts[1..], sep);
      SplitAtSeparator(parts[0], sep, Join(parts[1..], sep));
      assert parts == [parts[0]] + parts[1..];
    }
  }

  predicate IsDigit(c: char) {
    '0' <= c <= '9'
  }

  /** A non-empty run of ASCII decimal digits. */
  predicate IsDecimal(s: string) {
    |s| > 0 && forall i :: 0 <= i < |s| ==> IsDigit(s[i])
  }

  /** The number a run of decimal digits denotes (most significant digit first). */
  function DecimalValue(s: string): nat
    requires forall i :: 0 <= i < |s| ==> IsDigit(s[i])
  {
    if s == [] then 0
    else
      assert IsDigit(s[|s| - 1]);
      DecimalValue(s[..|s| - 1]) * 10 + (s[|s| - 1] as int - '0' as int)
  }

  function DigitChar(d: nat): (c: char)
    requires d < 10
    ensures IsDigit(c) && c as int - '0' as int == d
  {
    ('0' as int + d) as char
  }

  /** The decimal spelling of `n` (Go's `strconv.Itoa` for n >= 0); it reads back as `n`. */
  function NatToDecimal(n: nat): (s: string)
    ensures IsDecimal(s)
    ensures DecimalValue(s) == n
    ensures |s| > 1 ==> s[0] != '0'
  {
    if n < 10 then [DigitChar(n)]
    else
      var s := NatToDecimal(n / 10) + [DigitChar(n % 10)];
      assert s[..|s| - 1] == NatToDecimal(n / 10);
      s
  }
}
