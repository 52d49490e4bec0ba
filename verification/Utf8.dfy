// UTF-8 and decimal numbers: what the session gate's key framing and tokens are written in.
module Utf8 {
  import opened Common
  import Json

  type Octets = seq<int>

  /** One character in UTF-8 (section 3 of RFC 3629). */
  function EncodeChar(c: char): (octets: Octets)
    ensures 1 <= |octets| <= 4
  {
    var n := c as int;
    if n < 0x80 then [n]
    else if n < 0x800 then [0xC0 + n / 64, 0x80 + n % 64]
    else if n < 0x10000 then [0xE0 + n / 64 / 64, 0x80 + n / 64 % 64, 0x80 + n % 64]
    else [0xF0 + n / 64 / 64 / 64, 0x80 + n / 64 / 64 % 64, 0x80 + n / 64 % 64, 0x80 + n % 64]
  }

  function Encode(s: string): Octets {
    if s == [] then [] else EncodeChar(s[0]) + Encode(s[1..])
  }

  /** How many octets a first octet announces. */
  lemma FirstOctet(c: char)
    ensures var first, size := EncodeChar(c)[0], |EncodeChar(c)|;
            && (size == 1 <==> first < 0x80) && (size == 2 <==> 0xC0 <= first < 0xE0)
            && (size == 3 <==> 0xE0 <= first < 0xF0) && (size == 4 <==> 0xF0 <= first)
  {
  }

  lemma SamePair(m: nat, n: nat)
    requires m / 64 == n / 64 && m % 64 == n % 64
    ensures m == n
  {
  }

  lemma SameTriple(m: nat, n: nat)
    requires m / 64 / 64 == n / 64 / 64 && m / 64 % 64 == n / 64 % 64 && m % 64 == n % 64
    ensures m == n
  {
    SamePair(m / 64, n / 64);
    SamePair(m, n);
  }

  lemma SameQuad(m: nat, n: nat)
    requires m / 64 / 64 / 64 == n / 64 / 64 / 64 && m / 64 / 64 % 64 == n / 64 / 64 % 64 && m / 64 % 64 == n / 64 % 64
        && m % 64 == n % 64
    ensures m == n
  {
    SameTriple(m / 64, n / 64);
    SamePair(m, n);
  }

  lemma SameChar(c: char, d: char)
    requires EncodeChar(c) == EncodeChar(d)
    ensures c == d
  {
    var m, n := c as int, d as int;
    FirstOctet(c);
    FirstOctet(d);
    var x, y := EncodeChar(c), EncodeChar(d);
    assert x[0] == y[0] && x[|x| - 1] == y[|y| - 1];
    if |x| == 2 {
      SamePair(m, n);
    } else if |x| == 3 {
      assert x[1] == y[1];
      SameTriple(m, n);
    } else if |x| == 4 {
      assert x[1] == y[1] && x[2] == y[2];
      SameQuad(m, n);
    }
  }

  /** No character's octets begin another's. */
  lemma CharsAreSelfDelimiting(c: char, x: Octets, d: char, y: Octets)
    requires EncodeChar(c) + x == EncodeChar(d) + y
    ensures c == d && x == y
  {
    FirstOctet(c);
    FirstOctet(d);
    var a, b := EncodeChar(c), EncodeChar(d);
    assert (a + x)[0] == a[0] && (b + y)[0] == b[0];
    assert |a| == |b|;
    assert (a + x)[..|a|] == a && (b + y)[..|b|] == b;
    assert (a + x)[|a|..] == x && (b + y)[|b|..] == y;
    SameChar(c, d);
  }

  lemma {:induction false} EncodeIsInjective(s: string, t: string)
    requires Encode(s) == Encode(t)
    ensures s == t
  {
    if s != [] && t != [] {
      CharsAreSelfDelimiting(s[0], Encode(s[1..]), t[0], Encode(t[1..]));
      EncodeIsInjective(s[1..], t[1..]);
    }
  }

  lemma {:induction false} EncodeAppend(s: string, t: string)
    ensures Encode(s + t) == Encode(s) + Encode(t)
  {
    if s == [] {
      assert s + t == t;
    } else {
      assert (s + t)[1..] == s[1..] + t;
      EncodeAppend(s[1..], t);
    }
  }

  // ---------------------------------------------------------------- decimal numbers

  predicate IsDigit(c: char) {
    '0' <= c <= '9'
  }

  predicate AllDigits(s: string) {
    forall i :: 0 <= i < |s| ==> IsDigit(s[i])
  }

  function Digits(n: nat): (s: string)
    ensures s != [] && AllDigits(s)
  {
    if n < 10 then [('0' as int + n) as char] else Digits(n / 10) + [('0' as int + n % 10) as char]
  }

  function ValueOf(s: string): int {
    if s == [] then 0 else 10 * ValueOf(Init(s)) + (Last(s) as int - '0' as int)
  }

  lemma {:induction false} DigitsRoundTrip(n: nat)
    ensures ValueOf(Digits(n)) == n
  {
    if n >= 10 {
      DigitsRoundTrip(n / 10);
      assert Init(Digits(n)) == Digits(n / 10);
    } else {
      assert Init(Digits(n)) == [];
    }
  }

  /** What `Number` makes of a string, when that is an integer: exact for plain digits in the safe range, and
      `other` says what it makes of everything else. */
  function IntegerOf(s: string, other: string -> Option<int>): Option<int> {
    if s != [] && AllDigits(s) && ValueOf(s) <= Json.MAX_SAFE_INTEGER then Some(ValueOf(s)) else other(s)
  }
}
