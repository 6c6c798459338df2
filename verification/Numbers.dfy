/** Decimal numbers: `std::to_string` and the saturating `strtol`. */
module Numbers {

  const LONG_MAX: nat := 0x7FFF_FFFF_FFFF_FFFF
  const LONG_MIN: int := -0x8000_0000_0000_0000
  const SIZE_T: nat := 0x1_0000_0000_0000_0000

  predicate IsDigit(c: char) { '0' <= c <= '9' }

  predicate AllDigits(s: string) { forall i :: 0 <= i < |s| ==> IsDigit(s[i]) }

  predicate IsSpace(c: char) {
    c == ' ' || c == '\t' || c == '\n' || c == '\r' || c == 11 as char || c == 12 as char
  }

  predicate AllSpace(s: string) { forall i :: 0 <= i < |s| ==> IsSpace(s[i]) }

  /** The number a digit string denotes, without any bound. */
  function Value(digits: string): nat
    requires AllDigits(digits)
  {
    if digits == "" then 0
    else 10 * Value(digits[..|digits| - 1]) + (digits[|digits| - 1] as int - '0' as int)
  }

  /** `std::to_string` of a non-negative number. */
  function Decimal(n: nat): (s: string)
    ensures s != "" && AllDigits(s)
  {
    if n < 10 then [('0' as int + n) as char]
    else Decimal(n / 10) + [('0' as int + n % 10) as char]
  }

  /** `std::to_string` of an `int`. */
  function Signed(n: int): string {
    if n < 0 then "-" + Decimal(-n) else Decimal(n)
  }

  lemma {:induction false} DecimalRoundTrip(n: nat)
    ensures Value(Decimal(n)) == n
  {
    var s := Decimal(n);
    if n >= 10 {
      DecimalRoundTrip(n / 10);
      assert s[..|s| - 1] == Decimal(n / 10);
    }
  }

  /** What `strtol` accumulates: the bound is applied after every digit, so the running
      value never leaves the range of `long`. */
  function Accumulate(digits: string, bound: nat): (v: nat)
    requires AllDigits(digits)
    ensures v <= bound
  {
    if digits == "" then 0
    else
      var next := 10 * Accumulate(digits[..|digits| - 1], bound) + (digits[|digits| - 1] as int - '0' as int);
      if next > bound then bound else next
  }

  /** Clamping after each digit is clamping the whole number once. */
  lemma {:induction false} AccumulateClamps(digits: string, bound: nat)
    requires AllDigits(digits)
    ensures Accumulate(digits, bound) == if Value(digits) > bound then bound else Value(digits)
  {
    if digits != "" {
      AccumulateClamps(digits[..|digits| - 1], bound);
    }
  }

  /** The number of leading characters of `s` satisfying `IsSpace`. */
  function Spaces(s: string): (n: nat)
    ensures n <= |s| && AllSpace(s[..n])
    ensures n < |s| ==> !IsSpace(s[n])
  {
    if s != "" && IsSpace(s[0]) then 1 + Spaces(s[1..]) else 0
  }

  /** The leading digits of `s`. */
  function LeadingDigits(s: string): (d: string)
    ensures |d| <= |s| && d == s[..|d|] && AllDigits(d)
    ensures |d| < |s| ==> !IsDigit(s[|d|])
  {
    if s != "" && IsDigit(s[0]) then [s[0]] + LeadingDigits(s[1..]) else ""
  }

  /** `strtol(s, nullptr, 10)`: blanks, an optional sign, digits; anything after them is
      ignored, no digits give 0 and out-of-range values saturate. */
  function Strtol(s: string): (v: int)
    ensures LONG_MIN <= v <= LONG_MAX
  {
    var t := s[Spaces(s)..];
    if t != "" && t[0] == '-' then 0 - Accumulate(LeadingDigits(t[1..]), -LONG_MIN) as int
    else if t != "" && t[0] == '+' then Accumulate(LeadingDigits(t[1..]), LONG_MAX)
    else Accumulate(LeadingDigits(t), LONG_MAX)
  }

  lemma {:induction false} SpacesOf(pad: string, rest: string)
    requires AllSpace(pad) && (rest != "" ==> !IsSpace(rest[0]))
    ensures Spaces(pad + rest) == |pad|
  {
    if pad == "" {
      assert pad + rest == rest;
    } else {
      assert (pad + rest)[1..] == pad[1..] + rest;
      SpacesOf(pad[1..], rest);
    }
  }

  lemma {:induction false} LeadingDigitsOf(d: string, rest: string)
    requires AllDigits(d) && (rest != "" ==> !IsDigit(rest[0]))
    ensures LeadingDigits(d + rest) == d
  {
    if d == "" {
      assert d + rest == rest;
    } else {
      assert (d + rest)[1..] == d[1..] + rest;
      LeadingDigitsOf(d[1..], rest);
    }
  }

  /** A padded digit string of any length reads as its own value, saturated. */
  lemma StrtolOfDigits(pad: string, d: string, rest: string)
    requires AllSpace(pad) && AllDigits(d) && d != "" && (rest != "" ==> !IsDigit(rest[0]))
    ensures Strtol(pad + d + rest) == if Value(d) > LONG_MAX then LONG_MAX else Value(d)
  {
    hide Accumulate, LeadingDigits, Spaces, Value;
    var s := pad + d + rest;
    assert s == pad + (d + rest);
    assert (d + rest)[0] == d[0];
    SpacesOf(pad, d + rest);
    assert s[|pad|..] == d + rest;
    LeadingDigitsOf(d, rest);
    AccumulateClamps(d, LONG_MAX);
  }

  /** Signs: the digits after one are read as without it, negated or not, each side with its
      own bound. */
  lemma StrtolOfSigned(pad: string, d: string, rest: string)
    requires AllSpace(pad) && AllDigits(d) && d != "" && (rest != "" ==> !IsDigit(rest[0]))
    ensures Strtol(pad + ("-" + (d + rest))) == if Value(d) > -LONG_MIN then LONG_MIN else 0 - Value(d)
    ensures Strtol(pad + ("+" + (d + rest))) == if Value(d) > LONG_MAX then LONG_MAX else Value(d)
  {
    hide Accumulate, LeadingDigits, Spaces, Value;
    LeadingDigitsOf(d, rest);
    AccumulateClamps(d, LONG_MAX);
    AccumulateClamps(d, -LONG_MIN);
    SignRead(pad, "-", d + rest);
    SignRead(pad, "+", d + rest);
  }

  lemma SignRead(pad: string, sign: string, rest: string)
    requires AllSpace(pad) && (sign == "-" || sign == "+")
    ensures var t := (pad + (sign + rest))[Spaces(pad + (sign + rest))..]; t == sign + rest && t[1..] == rest
  {
    hide Spaces;
    SpacesOf(pad, sign + rest);
  }

  /** The six characters that are skipped in front, and that anything else which is neither a
      sign nor a digit reads as 0. */
  lemma StrtolSkips(c: char, s: string)
    ensures c in " \t\n\r" || c == 11 as char || c == 12 as char ==> Strtol([c] + s) == Strtol(s)
    ensures c !in " \t\n\r" && c != 11 as char && c != 12 as char && c != '-' && c != '+' && !IsDigit(c) ==>
              Strtol([c] + s) == 0
  {
    assert ([c] + s)[1..] == s;
    if IsSpace(c) {
      assert ([c] + s)[1 + Spaces(s)..] == s[Spaces(s)..];
    } else {
      assert ([c] + s)[0..] == [c] + s;
    }
  }

  lemma DecimalIsStrtol(n: nat)
    requires n <= LONG_MAX
    ensures Strtol(Decimal(n)) == n
  {
    DecimalRoundTrip(n);
    StrtolOfDigits("", Decimal(n), "");
    assert "" + Decimal(n) + "" == Decimal(n);
  }

  /** `to_string` of an `int` is read back by `strtol`. */
  lemma SignedRoundTrip(n: int)
    requires 0 - LONG_MAX <= n <= LONG_MAX
    ensures Strtol(Signed(n)) == n
  {
    hide Strtol, Decimal, Value;
    if n < 0 {
      DecimalRoundTrip(-n);
      StrtolOfSigned("", Decimal(-n), "");
      assert "" + ("-" + (Decimal(-n) + "")) == Signed(n);
    } else {
      DecimalIsStrtol(n);
    }
  }

  lemma ThreeDigits(a: nat, b: nat, c: nat)
    requires 0 < a < 10 && b < 10 && c < 10
    ensures Signed(100 * a + 10 * b + c) ==
            [('0' as int + a) as char, ('0' as int + b) as char, ('0' as int + c) as char]
  {
    var n := 100 * a + 10 * b + c;
    assert n / 10 == 10 * a + b && n % 10 == c && (10 * a + b) / 10 == a;
    assert Decimal(a) == [('0' as int + a) as char];
    assert Decimal(10 * a + b) == Decimal(a) + [('0' as int + b) as char];
  }
}
