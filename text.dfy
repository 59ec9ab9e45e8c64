/**
 * The string operations the services use on the wire: Array.prototype.join,
 * String.prototype.toUpperCase (ASCII letters), Number.prototype.toString
 * for a non-negative integer, and parseInt(text, 10).
 */
module Text {
  import opened Wrappers

  /** `parts.join(sep)`. */
  function Join(sep: string, parts: seq<string>): string
  {
    if |parts| == 0 then ""
    else if |parts| == 1 then parts[0]
    else parts[0] + sep + Join(sep, parts[1..])
  }

  predicate NoNewline(s: string) {
    forall i :: 0 <= i < |s| ==> s[i] != '\n'
  }

  predicate AllNoNewline(parts: seq<string>) {
    forall i :: 0 <= i < |parts| ==> NoNewline(parts[i])
  }

  /** With one part or more, the first newline of a newline-join sits right after the first part. */
  lemma {:induction false} JoinHead(parts: seq<string>)
    requires |parts| >= 1 && AllNoNewline(parts)
    ensures |Join("\n", parts)| >= |parts[0]|
    ensures Join("\n", parts)[..|parts[0]|] == parts[0]
    ensures |parts| == 1 <==> NoNewline(Join("\n", parts))
    ensures |parts| > 1 ==> Join("\n", parts)[|parts[0]|] == '\n'
  {
    if |parts| > 1 {
      var j := Join("\n", parts);
      assert j == parts[0] + "\n" + Join("\n", parts[1..]);
      assert j[|parts[0]|] == '\n';
      assert j[..|parts[0]|] == parts[0];
    }
  }

  /**
   * Joining newline-free fields with newlines is injective: the canonical
   * string determines the number of fields and every field.
   */
  lemma {:induction false} JoinInjective(a: seq<string>, b: seq<string>)
    requires |a| >= 1 && |b| >= 1 && AllNoNewline(a) && AllNoNewline(b)
    requires Join("\n", a) == Join("\n", b)
    ensures a == b
    decreases |a|
  {
    var j := Join("\n", a);
    JoinHead(a);
    JoinHead(b);
    if |a| == 1 || |b| == 1 {
      assert |a| == 1 && |b| == 1;
    } else {
      assert a[0] == b[0];
      var ta := Join("\n", a[1..]);
      var tb := Join("\n", b[1..]);
      assert j == a[0] + "\n" + ta;
      assert j == b[0] + "\n" + tb;
      assert ta == j[|a[0]| + 1..];
      assert tb == j[|b[0]| + 1..];
      JoinInjective(a[1..], b[1..]);
      assert a == [a[0]] + a[1..];
      assert b == [b[0]] + b[1..];
    }
  }

  /** ASCII upper-casing of one character. */
  function UpperChar(c: char): char {
    if 'a' <= c <= 'z' then (c as int - 'a' as int + 'A' as int) as char else c
  }

  /** `s.toUpperCase()` on the letters a-z. */
  function Upper(s: string): (r: string)
    ensures |r| == |s|
    ensures forall i :: 0 <= i < |s| ==> r[i] == UpperChar(s[i])
  {
    if s == "" then "" else [UpperChar(s[0])] + Upper(s[1..])
  }

  function DigitChar(d: nat): (c: char)
    requires d < 10
    ensures IsDigit(c)
  {
    (d + '0' as int) as char
  }

  predicate IsDigit(c: char) {
    '0' <= c <= '9'
  }

  function DigitValue(c: char): (d: nat)
    requires IsDigit(c)
    ensures d < 10
  {
    c as int - '0' as int
  }

  /** `n.toString()` for a non-negative integer: decimal digits, no leading zero. */
  function Decimal(n: nat): (r: string)
    ensures |r| >= 1
    ensures forall i :: 0 <= i < |r| ==> IsDigit(r[i])
    ensures |r| > 1 ==> r[0] != '0'
  {
    if n < 10 then [DigitChar(n)] else Decimal(n / 10) + [DigitChar(n % 10)]
  }

  /** The characters `parseInt` skips before the number (StrWhiteSpaceChar). */
  predicate IsJsWhitespace(c: char) {
    c == '\t' || c == '\n' || c == '\U{000B}' || c == '\U{000C}' || c == '\r' || c == ' '
    || c == '\U{00A0}' || c == '\U{1680}' || ('\U{2000}' <= c <= '\U{200A}')
    || c == '\U{2028}' || c == '\U{2029}' || c == '\U{202F}' || c == '\U{205F}'
    || c == '\U{3000}' || c == '\U{FEFF}'
  }

  function TrimStart(s: string): (r: string)
    ensures r == [] || !IsJsWhitespace(r[0])
    ensures exists k :: 0 <= k <= |s| && r == s[k..]
  {
    if s != [] && IsJsWhitespace(s[0]) then
      var r := TrimStart(s[1..]);
      var k :| 0 <= k <= |s[1..]| && r == s[1..][k..];
      assert r == s[k + 1..];
      r
    else
      assert s == s[0..];
      s
  }

  /** The length of the longest prefix of decimal digits. */
  function DigitRun(s: string): (n: nat)
    ensures n <= |s|
    ensures forall i :: 0 <= i < n ==> IsDigit(s[i])
    ensures n < |s| ==> !IsDigit(s[n])
  {
    if s != [] && IsDigit(s[0]) then 1 + DigitRun(s[1..]) else 0
  }

  /** The value of a string of decimal digits, most significant first. */
  function DigitsValue(ds: string): nat
    requires forall i :: 0 <= i < |ds| ==> IsDigit(ds[i])
  {
    if ds == [] then 0 else DigitsValue(ds[..|ds| - 1]) * 10 + DigitValue(ds[|ds| - 1])
  }

  /**
   * `parseInt(s, 10)`: skip leading white space, read an optional sign, then
   * the longest run of decimal digits. None stands for NaN (no digits).
   */
  function ParseInt(s: string): (r: Option<int>)
  {
    var t := TrimStart(s);
    var negative := t != [] && t[0] == '-';
    var u := if t != [] && (t[0] == '-' || t[0] == '+') then t[1..] else t;
    var n := DigitRun(u);
    if n == 0 then None
    else
      var magnitude: int := DigitsValue(u[..n]);
      var v: int := if negative then 0 - magnitude else magnitude;
      Some(v)
  }

  lemma {:induction false} DecimalValue(n: nat)
    ensures DigitsValue(Decimal(n)) == n
  {
    if n >= 10 {
      var d := Decimal(n);
      assert d[..|d| - 1] == Decimal(n / 10);
      DecimalValue(n / 10);
    }
  }

  lemma {:induction false} DigitRunAll(s: string)
    requires forall i :: 0 <= i < |s| ==> IsDigit(s[i])
    ensures DigitRun(s) == |s|
  {
    if s != [] {
      DigitRunAll(s[1..]);
    }
  }

  /** parseInt reads back exactly the integer that toString wrote. */
  lemma ParseDecimal(n: nat)
    ensures ParseInt(Decimal(n)) == Some(n)
  {
    var d := Decimal(n);
    assert TrimStart(d) == d;
    DigitRunAll(d);
    assert d[..|d|] == d;
    DecimalValue(n);
  }

  /** parseInt of text with no digit after the optional sign is NaN: the empty text, for one. */
  lemma ParseIntEmpty()
    ensures ParseInt("") == None
    ensures ParseInt("abc") == None
  {
    assert DigitRun("abc") == 0;
  }
}
