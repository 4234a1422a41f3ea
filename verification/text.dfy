/** Text helpers of the query builder: joining with a separator
    (Go's strings.Join), double-quoting a column list, and rendering an
    integer in decimal (Go's %d verb). */
module Text {

  predicate IsPrefix(p: string, s: string) {
    |p| <= |s| && s[..|p|] == p
  }

  predicate IsSuffix(p: string, s: string) {
    |p| <= |s| && s[|s| - |p|..] == p
  }

  /** Total length of all parts. */
  function TotalLength(parts: seq<string>): nat {
    if |parts| == 0 then 0 else |parts[0]| + TotalLength(parts[1..])
  }

  /** The parts in order, with `sep` between neighbours and nowhere else. */
  function Join(parts: seq<string>, sep: string): (r: string)
    ensures |parts| == 0 ==> r == ""
    ensures |parts| == 1 ==> r == parts[0]
  {
    if |parts| == 0 then ""
    else if |parts| == 1 then parts[0]
    else parts[0] + sep + Join(parts[1..], sep)
  }

  /** No leading or trailing separator: the joined text starts with the first
      part and ends with the last, and the separators account for exactly
      the extra length. */
  lemma {:induction false} JoinBounds(parts: seq<string>, sep: string)
    requires |parts| > 0
    ensures IsPrefix(parts[0], Join(parts, sep))
    ensures IsSuffix(parts[|parts| - 1], Join(parts, sep))
    ensures |Join(parts, sep)| == TotalLength(parts) + (|parts| - 1) * |sep|
  {
    if |parts| > 1 {
      var rest := parts[1..];
      JoinBounds(rest, sep);
      assert parts[|parts| - 1] == rest[|rest| - 1];
      var r := Join(parts, sep);
      var tail := Join(rest, sep);
      assert r == parts[0] + sep + tail;
      assert r[|r| - |rest[|rest| - 1]|..] == tail[|tail| - |rest[|rest| - 1]|..];
    }
  }

  /** Appending a part extends the joined text by one separator and that part. */
  lemma {:induction false} JoinAppend(parts: seq<string>, x: string, sep: string)
    requires |parts| > 0
    ensures Join(parts + [x], sep) == Join(parts, sep) + sep + x
  {
    if |parts| == 1 {
      assert (parts + [x])[1..] == [x];
    } else {
      assert (parts + [x])[1..] == parts[1..] + [x];
      JoinAppend(parts[1..], x, sep);
    }
  }

  /** Joining is a homomorphism: joining two non-empty runs separately and
      gluing them with one separator gives the join of the whole. */
  lemma {:induction false} JoinConcat(a: seq<string>, b: seq<string>, sep: string)
    requires |a| > 0 && |b| > 0
    ensures Join(a + b, sep) == Join(a, sep) + sep + Join(b, sep)
  {
    if |a| == 1 {
      assert (a + b)[1..] == b;
    } else {
      assert (a + b)[1..] == a[1..] + b;
      JoinConcat(a[1..], b, sep);
    }
  }

  /** A string in double quotes, with no escaping. */
  function Quote(s: string): string {
    "\"" + s + "\""
  }

  /** Every column wrapped in double quotes, joined with ", ". */
  function QuoteList(columns: seq<string>): (r: string)
    ensures |columns| == 0 ==> r == ""
    ensures |columns| == 1 ==> r == Quote(columns[0])
  {
    Join(seq(|columns|, i requires 0 <= i < |columns| => Quote(columns[i])), ", ")
  }

  /** The quoted list keeps the columns' order: the list of `a + b` is the
      list of `a`, a comma, then the list of `b`. */
  lemma QuoteListConcat(a: seq<string>, b: seq<string>)
    requires |a| > 0 && |b| > 0
    ensures QuoteList(a + b) == QuoteList(a) + ", " + QuoteList(b)
  {
    var qa := seq(|a|, i requires 0 <= i < |a| => Quote(a[i]));
    var qb := seq(|b|, i requires 0 <= i < |b| => Quote(b[i]));
    var qab := seq(|a + b|, i requires 0 <= i < |a + b| => Quote((a + b)[i]));
    assert qab == qa + qb;
    JoinConcat(qa, qb, ", ");
  }

  // ---------------------------------------------------------------------
  // Decimal rendering (Go's %d) and its inverse

  predicate IsDigit(c: char) {
    '0' <= c <= '9'
  }

  predicate AllDigits(s: string) {
    forall i :: 0 <= i < |s| ==> IsDigit(s[i])
  }

  function DigitChar(d: nat): (c: char)
    requires d < 10
    ensures IsDigit(c)
  {
    (d + '0' as int) as char
  }

  function DigitValue(c: char): (d: nat)
    requires IsDigit(c)
    ensures d < 10
  {
    c as int - '0' as int
  }

  /** Decimal digits of `n`, most significant first, with no leading zero. */
  function NatToDecimal(n: nat): (r: string)
    ensures |r| > 0 && AllDigits(r)
    ensures r[0] == '0' <==> n == 0
    ensures |r| == 1 <==> n < 10
  {
    if n < 10 then [DigitChar(n)]
    else NatToDecimal(n / 10) + [DigitChar(n % 10)]
  }

  /** The value of a non-empty string of decimal digits. */
  function ParseNat(s: string): nat
    requires |s| > 0 && AllDigits(s)
  {
    if |s| == 1 then DigitValue(s[0])
    else ParseNat(s[..|s| - 1]) * 10 + DigitValue(s[|s| - 1])
  }

  lemma {:induction false} ParseNatToDecimal(n: nat)
    ensures ParseNat(NatToDecimal(n)) == n
  {
    if n >= 10 {
      var s := NatToDecimal(n);
      assert s[..|s| - 1] == NatToDecimal(n / 10);
      ParseNatToDecimal(n / 10);
    }
  }

  /** A digit string whose first digit is not zero has a positive value. */
  lemma {:induction false} ParseNatPositive(s: string)
    requires |s| > 0 && AllDigits(s) && s[0] != '0'
    ensures ParseNat(s) > 0
  {
    if |s| > 1 {
      ParseNatPositive(s[..|s| - 1]);
    }
  }

  /** Canonical digit strings (no leading zero, or exactly "0") render back
      to themselves: the decimal form is unique. */
  lemma {:induction false} NatToDecimalParse(s: string)
    requires |s| > 0 && AllDigits(s) && (s[0] != '0' || |s| == 1)
    ensures NatToDecimal(ParseNat(s)) == s
  {
    if |s| > 1 {
      var p := s[..|s| - 1];
      ParseNatPositive(p);
      NatToDecimalParse(p);
      var n := ParseNat(s);
      assert n / 10 == ParseNat(p) && n % 10 == DigitValue(s[|s| - 1]);
      assert s == p + [s[|s| - 1]];
    }
  }

  /** Go's %d on a signed integer: a minus sign, then the magnitude. */
  function IntToDecimal(i: int): (r: string)
    ensures |r| > 0
    ensures (r[0] == '-') <==> i < 0
  {
    if i < 0 then "-" + NatToDecimal(-i) else NatToDecimal(i)
  }

  function ParseInt(s: string): int
    requires |s| > 0
    requires (s[0] == '-' && |s| > 1 && AllDigits(s[1..])) || AllDigits(s)
  {
    if s[0] == '-' then 0 - ParseNat(s[1..]) as int else ParseNat(s)
  }

  /** Reading back Go's %d rendering gives the integer that was rendered. */
  lemma IntToDecimalRoundTrip(i: int)
    ensures var r := IntToDecimal(i);
            ((r[0] == '-' && |r| > 1 && AllDigits(r[1..])) || AllDigits(r)) &&
            ParseInt(r) == i
  {
    var r := IntToDecimal(i);
    if i < 0 {
      var m := NatToDecimal(-i);
      assert r == "-" + m;
      assert r[1..] == m;
      ParseNatToDecimal(-i);
    } else {
      ParseNatToDecimal(i);
    }
  }
}
