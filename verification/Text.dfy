/**
 Numbers as text: the unpadded numerals Go writes for %d, %X, and the zero-padded fields of
 timestamps and UUIDs, each with the reader that recovers the number.
 */
module Text {

  /** The radix of a numeral: decimal or hexadecimal. */
  datatype Radix = Decimal | Hex

  function Times(r: Radix, n: nat): nat {
    match r
    case Decimal => 10 * n
    case Hex => 16 * n
  }

  function Quotient(r: Radix, n: nat): nat {
    match r
    case Decimal => n / 10
    case Hex => n / 16
  }

  function Remainder(r: Radix, n: nat): (d: nat)
    ensures d < Times(r, 1)
    ensures n == Times(r, Quotient(r, n)) + d
  {
    match r
    case Decimal => n % 10
    case Hex => n % 16
  }

  /** Upper-case digit; `LowerDigit` is the spelling UUIDs use. */
  function Digit(d: nat): char
    requires d < 16
  {
    if d < 10 then '0' + d as char else 'A' + (d - 10) as char
  }

  function LowerDigit(d: nat): char
    requires d < 16
  {
    if d < 10 then '0' + d as char else 'a' + (d - 10) as char
  }

  predicate IsDigit(c: char, r: Radix) {
    || '0' <= c <= '9'
    || (r.Hex? && ('A' <= c <= 'F' || 'a' <= c <= 'f'))
  }

  function DigitValue(c: char): (d: nat)
    requires IsDigit(c, Hex)
  {
    if c <= '9' then (c - '0') as int
    else if c <= 'F' then (c - 'A') as int + 10
    else (c - 'a') as int + 10
  }

  predicate IsNumeral(s: string, r: Radix) {
    forall i :: 0 <= i < |s| ==> IsDigit(s[i], r)
  }

  /** The number a string of digits denotes, most significant digit first. */
  function Value(s: string, r: Radix): nat
    requires IsNumeral(s, r)
  {
    if s == "" then 0
    else Times(r, Value(s[..|s| - 1], r)) + DigitValue(s[|s| - 1])
  }

  /** The unpadded numeral, as %d and %X write it. */
  function Numeral(n: nat, r: Radix): string
    decreases n
  {
    if n < Times(r, 1) then [Digit(n)]
    else Numeral(Quotient(r, n), r) + [Digit(Remainder(r, n))]
  }

  lemma AppendedDigit(s: string, q: nat, c: char, d: nat, r: Radix)
    requires d < Times(r, 1) && (c == Digit(d) || c == LowerDigit(d))
    requires IsNumeral(s, r) && Value(s, r) == q
    ensures IsNumeral(s + [c], r)
    ensures Value(s + [c], r) == Times(r, q) + d
  {
    assert (s + [c])[..|s + [c]| - 1] == s;
  }

  /** Reading a numeral back gives the number: numerals of different numbers differ. */
  lemma {:induction false} NumeralRoundTrip(n: nat, r: Radix)
    ensures IsNumeral(Numeral(n, r), r) && Value(Numeral(n, r), r) == n
    decreases n
  {
    if n < Times(r, 1) {
      AppendedDigit("", 0, Digit(n), n, r);
      assert "" + [Digit(n)] == [Digit(n)];
    } else {
      var q := Quotient(r, n);
      NumeralRoundTrip(q, r);
      AppendedDigit(Numeral(q, r), q, Digit(Remainder(r, n)), Remainder(r, n), r);
    }
  }

  /** Exactly `width` digits, upper or lower case. Higher digits are dropped. */
  function Padded(n: nat, width: nat, r: Radix, lower: bool): (s: string)
    ensures |s| == width
    decreases width
  {
    if width == 0 then ""
    else
      var d := Remainder(r, n);
      Padded(Quotient(r, n), width - 1, r, lower) + [if lower then LowerDigit(d) else Digit(d)]
  }

  function Power(r: Radix, e: nat): nat {
    if e == 0 then 1 else Times(r, Power(r, e - 1))
  }

  /** A number that fits the width is read back from its zero-padded numeral. */
  lemma {:induction false} PaddedRoundTrip(n: nat, width: nat, r: Radix, lower: bool)
    requires n < Power(r, width)
    ensures IsNumeral(Padded(n, width, r, lower), r)
    ensures Value(Padded(n, width, r, lower), r) == n
    decreases width
  {
    if width > 0 {
      var q, d := Quotient(r, n), Remainder(r, n);
      PaddedRoundTrip(q, width - 1, r, lower);
      AppendedDigit(Padded(q, width - 1, r, lower), q, if lower then LowerDigit(d) else Digit(d), d, r);
    }
  }

  /** In `head + sep + tail` with no separator in the tail, the last separator is after the head. */
  lemma LastSeparatorAt(h: string, t: string, sep: char, k: nat)
    requires sep !in t
    requires k < |h + [sep] + t| && (h + [sep] + t)[k] == sep
    ensures k <= |h|
  {
    var s := h + [sep] + t;
    assert forall j :: |h| < j < |s| ==> s[j] == t[j - |h| - 1];
  }

  /**
   Two strings cut at a separator that neither tail contains are equal only if their heads and
   tails are: this is what makes `head + sep + tail` readable from the right.
   */
  lemma LastSeparatorUnique(h0: string, t0: string, h1: string, t1: string, sep: char)
    requires h0 + [sep] + t0 == h1 + [sep] + t1
    requires sep !in t0 && sep !in t1
    ensures h0 == h1 && t0 == t1
  {
    var s := h0 + [sep] + t0;
    assert s == h1 + [sep] + t1;
    assert s[|h0|] == sep && s[|h1|] == sep;
    LastSeparatorAt(h0, t0, sep, |h1|);
    LastSeparatorAt(h1, t1, sep, |h0|);
    assert h0 == s[..|h0|] && h1 == s[..|h1|];
    assert t0 == s[|h0| + 1..] && t1 == s[|h1| + 1..];
  }

  function LowerChar(c: char): char {
    if 'A' <= c <= 'Z' then c - 'A' + 'a' else c
  }

  function UpperChar(c: char): char {
    if 'a' <= c <= 'z' then c - 'a' + 'A' else c
  }

  function Lower(s: string): (r: string)
    ensures |r| == |s|
  {
    seq(|s|, i requires 0 <= i < |s| => LowerChar(s[i]))
  }

  function Upper(s: string): (r: string)
    ensures |r| == |s|
  {
    seq(|s|, i requires 0 <= i < |s| => UpperChar(s[i]))
  }
}
