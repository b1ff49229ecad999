/**
 * `std::stoi` on one item of the directive file: an optional sign and the
 * longest run of decimal digits after it. No digit at all, or a value outside
 * the range of a 32-bit `int`, makes it throw; that is the `None` outcome here.
 */
module StringToInt {
  import opened Wrappers

  const IntMin: int := -0x8000_0000
  const IntMax: int := 0x7FFF_FFFF

  predicate IsDigit(c: char) {
    '0' <= c <= '9'
  }

  predicate AllDigits(s: string) {
    forall i :: 0 <= i < |s| ==> IsDigit(s[i])
  }

  /** Length of the longest prefix of `s` made of digits. */
  function DigitRun(s: string): (n: nat)
    ensures n <= |s| && AllDigits(s[..n])
    ensures n == |s| || !IsDigit(s[n])
  {
    if s == [] || !IsDigit(s[0]) then 0
    else
      var n := 1 + DigitRun(s[1..]);
      assert s[..n] == [s[0]] + s[1..][..n - 1];
      n
  }

  /** The value of a string of decimal digits, most significant digit first. */
  function DigitsValue(d: string): nat
    requires AllDigits(d)
  {
    if d == [] then 0 else DigitsValue(d[..|d| - 1]) * 10 + (d[|d| - 1] as int - '0' as int)
  }

  /** The digit character for `n`. */
  function DigitChar(n: nat): (c: char)
    requires n < 10
    ensures IsDigit(c) && c as int - '0' as int == n
  {
    ('0' as int + n) as char
  }

  /** The shortest decimal notation of `n`, as `std::to_string` writes it. */
  function Decimal(n: nat): (d: string)
    ensures d != [] && AllDigits(d)
    ensures DigitsValue(d) == n
  {
    if n < 10 then [DigitChar(n)]
    else
      var d := Decimal(n / 10) + [DigitChar(n % 10)];
      assert d[..|d| - 1] == Decimal(n / 10);
      d
  }

  /**
   * What `std::stoi` returns for a whitespace-free item `s`, or `None` where it
   * throws. Every value the loader converts is such an item, extracted with `>>`;
   * the leading whitespace `std::stoi` would skip never occurs in one.
   */
  function Stoi(s: string): (r: Option<int>)
    ensures r.Some? ==> IntMin <= r.value <= IntMax
    ensures r.Some? ==> |s| > 0 && (IsDigit(s[0]) || ((s[0] == '-' || s[0] == '+') && |s| > 1 && IsDigit(s[1])))
  {
    var signed := |s| > 0 && (s[0] == '-' || s[0] == '+');
    var body := if signed then s[1..] else s;
    var n := DigitRun(body);
    if n == 0 then None
    else
      var magnitude: int := DigitsValue(body[..n]);
      var v := if signed && s[0] == '-' then -magnitude else magnitude;
      if IntMin <= v <= IntMax then Some(v) else None
  }

  /**
   * Decimal notation read back: `stoi` returns the number and ignores whatever
   * follows the digits.
   */
  lemma StoiOfDecimal(n: nat, tail: string)
    requires n <= IntMax
    requires tail == [] || !IsDigit(tail[0])
    ensures Stoi(Decimal(n) + tail) == Some(n)
  {
    var d := Decimal(n);
    DigitRunOfDigits(d, tail);
    assert (d + tail)[..|d|] == d;
  }

  /** With a sign in front of the decimal notation, `stoi` returns the signed number. */
  lemma StoiOfSignedDecimal(n: nat, tail: string)
    requires n <= IntMax
    requires tail == [] || !IsDigit(tail[0])
    ensures Stoi("+" + Decimal(n) + tail) == Some(n)
    ensures Stoi("-" + Decimal(n) + tail) == Some(-(n as int))
  {
    var d := Decimal(n);
    DigitRunOfDigits(d, tail);
    assert (d + tail)[..|d|] == d;
    assert ("+" + d + tail)[1..] == d + tail;
    assert ("-" + d + tail)[1..] == d + tail;
  }

  /**
   * A numeral beyond the range of `int` makes `stoi` throw, with or without a
   * '+' in front, whatever follows the digits.
   */
  lemma StoiRejectsTooLarge(n: nat, tail: string)
    requires n > IntMax
    requires tail == [] || !IsDigit(tail[0])
    ensures Stoi(Decimal(n) + tail) == None
    ensures Stoi("+" + Decimal(n) + tail) == None
  {
    var d := Decimal(n);
    DigitRunOfDigits(d, tail);
    assert (d + tail)[..|d|] == d;
    assert ("+" + d + tail)[1..] == d + tail;
  }

  /** A '-' in front of a numeral beyond the magnitude of INT_MIN makes `stoi` throw as well. */
  lemma StoiRejectsTooSmall(n: nat, tail: string)
    requires -(n as int) < IntMin
    requires tail == [] || !IsDigit(tail[0])
    ensures Stoi("-" + Decimal(n) + tail) == None
  {
    var d := Decimal(n);
    DigitRunOfDigits(d, tail);
    assert (d + tail)[..|d|] == d;
    assert ("-" + d + tail)[1..] == d + tail;
  }

  /** The bounds are exact: INT_MIN is read back through its '-' notation. */
  lemma StoiOfIntMin()
    ensures Stoi("-" + Decimal(-IntMin)) == Some(IntMin)
  {
    var d := Decimal(-IntMin);
    DigitRunOfDigits(d, []);
    assert d + [] == d;
    assert ("-" + d)[1..] == d;
    assert (d + [])[..|d|] == d;
  }

  /** The digit run of a digit string followed by a non-digit stops right after it. */
  lemma {:induction false} DigitRunOfDigits(d: string, tail: string)
    requires AllDigits(d)
    requires tail == [] || !IsDigit(tail[0])
    ensures DigitRun(d + tail) == |d|
  {
    if d != [] {
      assert (d + tail)[1..] == d[1..] + tail;
      DigitRunOfDigits(d[1..], tail);
    }
  }
}
