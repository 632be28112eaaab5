/** Decimal numbers and white space, as Go's fmt, strconv and strings treat them. */
module Text {

  predicate IsDigit(c: char) {
    '0' <= c <= '9'
  }

  function DigitValue(c: char): (d: nat)
    requires IsDigit(c)
    ensures d < 10
  {
    c as int - '0' as int
  }

  function Digits(n: nat): (s: string)
    ensures s != [] && forall c :: c in s ==> IsDigit(c)
  {
    var d := ['0' + (n % 10) as char];
    if n < 10 then d else Digits(n / 10) + d
  }

  /** `%d`. */
  function Decimal(n: int): string {
    if n < 0 then "-" + Digits(-n) else Digits(n)
  }

  /** Reads digits as long as there are any: the number, continued from `acc`, and what follows. */
  function ReadDigits(acc: nat, s: string): (r: (nat, string))
    ensures |r.1| <= |s|
    decreases s
  {
    if s == [] || !IsDigit(s[0]) then (acc, s) else ReadDigits(10 * acc + DigitValue(s[0]), s[1..])
  }

  lemma {:induction false} ReadDigitsBack(n: nat, rest: string)
    ensures ReadDigits(0, Digits(n) + rest) == ReadDigits(n, rest)
  {
    var d := ['0' + (n % 10) as char];
    if n < 10 {
    } else {
      assert Digits(n) + rest == Digits(n / 10) + (d + rest);
      ReadDigitsBack(n / 10, d + rest);
    }
    assert (d + rest)[1..] == rest;
  }

  predicate AllDigits(s: string) {
    forall c :: c in s ==> IsDigit(c)
  }

  /** The number that digits stand for, the last one for the units. */
  function Numeral(s: string): nat
    requires AllDigits(s)
  {
    if s == [] then 0 else 10 * Numeral(s[..|s| - 1]) + DigitValue(s[|s| - 1])
  }

  /** Reading on to one more digit. */
  lemma {:induction false} ReadDigitsOn(acc: nat, s: string, c: char)
    requires AllDigits(s) && IsDigit(c)
    ensures ReadDigits(acc, s).1 == []
    ensures ReadDigits(acc, s + [c]) == (10 * ReadDigits(acc, s).0 + DigitValue(c), [])
    decreases |s|
  {
    if s == [] {
      assert [c][1..] == [];
    } else {
      assert (s + [c])[1..] == s[1..] + [c];
      ReadDigitsOn(10 * acc + DigitValue(s[0]), s[1..], c);
    }
  }

  lemma {:induction false} ReadDigitsMeans(s: string)
    requires AllDigits(s)
    ensures ReadDigits(0, s) == (Numeral(s), [])
  {
    if s == [] {
    } else {
      var n := |s| - 1;
      ReadDigitsMeans(s[..n]);
      ReadDigitsOn(0, s[..n], s[n]);
      assert s == s[..n] + [s[n]];
    }
  }

  lemma {:induction false} ReadDigitsStops(acc: nat, s: string)
    ensures ReadDigits(acc, s).1 == [] <==> AllDigits(s)
    decreases |s|
  {
    if s == [] || !IsDigit(s[0]) {
    } else {
      ReadDigitsStops(10 * acc + DigitValue(s[0]), s[1..]);
      assert s == [s[0]] + s[1..];
    }
  }

  /** Different numbers are written differently. */
  lemma DecimalInjective(a: int, b: int)
    requires Decimal(a) == Decimal(b)
    ensures a == b
  {
    var m, n := if a < 0 then -a else a, if b < 0 then -b else b;
    ReadDigitsBack(m, "");
    ReadDigitsBack(n, "");
    assert Digits(m) + "" == Digits(m) && Digits(n) + "" == Digits(n);
    assert Digits(m)[0] in Digits(m) && Digits(n)[0] in Digits(n);
    if a < 0 {
      assert Decimal(a)[1..] == Digits(m);
      assert Decimal(b)[0] == '-' && Decimal(b)[1..] == Digits(n);
    }
  }

  /** `unicode.IsSpace`. */
  predicate IsSpace(c: char) {
    || c in "\t\n\U{000b}\U{000c}\r \U{0085}\U{00a0}\U{1680}\U{2028}\U{2029}\U{202f}\U{205f}\U{3000}"
    || '\U{2000}' <= c <= '\U{200a}'
  }

  /** The 25 characters of the Unicode property White_Space. */
  lemma IsSpaceIs(c: char)
    ensures IsSpace(c) <==>
            var n := c as int;
            || 9 <= n <= 13 || n == 32 || n == 0x85 || n == 0xa0 || n == 0x1680 || 0x2000 <= n <= 0x200a
            || n == 0x2028 || n == 0x2029 || n == 0x202f || n == 0x205f || n == 0x3000
  {
  }

  ghost predicate AllSpace(s: string) {
    forall i :: 0 <= i < |s| ==> IsSpace(s[i])
  }

  /** The number of white-space characters that `s` begins with. */
  function LeadingSpace(s: string): (n: nat)
    ensures n <= |s| && AllSpace(s[..n]) && (n < |s| ==> !IsSpace(s[n]))
  {
    if s != [] && IsSpace(s[0]) then 1 + LeadingSpace(s[1..]) else 0
  }

  /** Where the white space that `s` ends with begins. */
  function TrailingSpace(s: string): (n: nat)
    ensures n <= |s| && AllSpace(s[n..]) && (n > 0 ==> !IsSpace(s[n - 1]))
  {
    if s != [] && IsSpace(s[|s| - 1]) then TrailingSpace(s[..|s| - 1]) else |s|
  }

  /** `strings.TrimSpace`. */
  function TrimSpace(s: string): string {
    var rest := s[LeadingSpace(s)..];
    rest[..TrailingSpace(rest)]
  }

  /** White space goes at both ends, and all of it. */
  lemma TrimSpaceIs(s: string) returns (i: nat, j: nat)
    ensures i <= j <= |s| && TrimSpace(s) == s[i..j] && AllSpace(s[..i]) && AllSpace(s[j..])
    ensures i < j ==> !IsSpace(s[i]) && !IsSpace(s[j - 1])
  {
    i := LeadingSpace(s);
    var rest := s[i..];
    j := i + TrailingSpace(rest);
    assert s[j..] == rest[TrailingSpace(rest)..];
  }
}
