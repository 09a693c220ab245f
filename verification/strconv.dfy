/** Go's `strconv.Atoi` and `strconv.Itoa` on decimal strings. Go's `int`
    is 64 bits wide on the platforms the service targets, so `Atoi` rejects
    values outside the signed 64-bit range. */
module Strconv {
  import opened Wrappers

  const MinInt64: int := -0x8000_0000_0000_0000
  const MaxInt64: int := 0x7fff_ffff_ffff_ffff

  predicate IsDigit(ch: char) {
    '0' <= ch <= '9'
  }

  predicate AllDigits(s: string) {
    forall k :: 0 <= k < |s| ==> IsDigit(s[k])
  }

  /** Value of a string of decimal digits, most significant first. */
  function DigitsValue(s: string): nat
    requires AllDigits(s)
  {
    if |s| == 0 then 0
    else DigitsValue(s[..|s| - 1]) * 10 + (s[|s| - 1] as int - '0' as int)
  }

  const MaxUint64: int := 0xffff_ffff_ffff_ffff

  /** The text after an optional leading `+` or `-`. */
  function Unsigned(s: string): string
  {
    if |s| > 0 && (s[0] == '+' || s[0] == '-') then s[1..] else s
  }

  predicate Negative(s: string)
  {
    |s| > 0 && s[0] == '-'
  }

  /** Well-formed input for `Atoi`: an optional sign, then at least one
      decimal digit and nothing else (leading zeros allowed). */
  predicate IsDecimal(s: string)
  {
    |Unsigned(s)| > 0 && AllDigits(Unsigned(s))
  }

  /** The length of the run of digits that `u` starts with. */
  function DigitRun(u: string): (k: nat)
    ensures k <= |u| && AllDigits(u[..k])
    ensures k < |u| ==> !IsDigit(u[k])
  {
    if |u| == 0 || !IsDigit(u[0]) then 0
    else
      var j := DigitRun(u[1..]);
      assert u[..1 + j] == [u[0]] + u[1..][..j];
      1 + j
  }

  /** The error texts of `strconv.Atoi`, the input in double quotes. */
  function SyntaxError(s: string): string
  {
    "strconv.Atoi: parsing \"" + s + "\": invalid syntax"
  }

  function RangeError(s: string): string
  {
    "strconv.Atoi: parsing \"" + s + "\": value out of range"
  }

  /** `strconv.Atoi` on a 64-bit platform. Well-formed input within the
      signed 64-bit range is read, with its sign; well-formed input outside
      it is a range error; malformed input is a syntax error, except that
      the digit scan of `ParseUint` reports a range error as soon as the
      digits read so far exceed the unsigned 64-bit range, before it
      reaches a character that is not a digit. */
  function Atoi(s: string): (r: Result<int, string>)
    ensures r.Success? ==> MinInt64 <= r.value <= MaxInt64
    ensures r.Success? ==> IsDecimal(s)
    ensures IsDecimal(s) && !Negative(s) ==>
      && (r.Success? <==> DigitsValue(Unsigned(s)) <= MaxInt64)
      && (r.Success? ==> r.value == DigitsValue(Unsigned(s)))
    ensures IsDecimal(s) && Negative(s) ==>
      && (r.Success? <==> DigitsValue(Unsigned(s)) <= 0 - MinInt64)
      && (r.Success? ==> r.value == 0 - DigitsValue(Unsigned(s)))
    ensures r.Failure? ==> r.error == SyntaxError(s) || r.error == RangeError(s)
    ensures r.Failure? && IsDecimal(s) ==> r.error == RangeError(s)
  {
    var u := Unsigned(s);
    var k := DigitRun(u);
    assert u[..|u|] == u;
    if |u| == 0 then Failure(SyntaxError(s))
    else if DigitsValue(u[..k]) > MaxUint64 then Failure(RangeError(s))
    else if k < |u| then Failure(SyntaxError(s))
    else
      var v: int := if Negative(s) then 0 - DigitsValue(u) else DigitsValue(u);
      if v < MinInt64 || v > MaxInt64 then Failure(RangeError(s))
      else Success(v)
  }

  /** A run of digits too large for 64 unsigned bits is a range error even
      when a character that is not a digit follows it:
      `Atoi("18446744073709551616x")` reports "value out of range". */
  lemma OverflowBeforeBadChar(digits: string, tail: string)
    requires |digits| > 0 && AllDigits(digits) && DigitsValue(digits) > MaxUint64
    requires |tail| > 0 && !IsDigit(tail[0])
    ensures Atoi(digits + tail) == Failure(RangeError(digits + tail))
  {
    var u := digits + tail;
    assert Unsigned(u) == u by {
      assert IsDigit(u[0]);
    }
    var k := DigitRun(u);
    assert forall j :: 0 <= j < |digits| ==> u[j] == digits[j];
    assert u[|digits|] == tail[0];
    assert k == |digits|;
    assert u[..k] == digits;
  }

  function Digit(d: nat): (ch: char)
    requires d < 10
    ensures IsDigit(ch) && ch as int - '0' as int == d
  {
    ('0' as int + d) as char
  }

  /** `strconv.Itoa` for non-negative values: decimal, no sign, no leading
      zeros. */
  function Itoa(n: nat): (s: string)
    ensures |s| > 0 && AllDigits(s)
    ensures DigitsValue(s) == n
  {
    if n < 10 then [Digit(n)]
    else
      var s := Itoa(n / 10) + [Digit(n % 10)];
      assert s[..|s| - 1] == Itoa(n / 10);
      s
  }

  /** `Atoi` reads back what `Itoa` wrote, for every value `Atoi` can
      represent. */
  lemma AtoiItoa(n: nat)
    requires n <= MaxInt64
    ensures Atoi(Itoa(n)) == Success(n)
  {
    var s := Itoa(n);
    assert Unsigned(s) == s by {
      assert IsDigit(s[0]);
    }
  }
}
