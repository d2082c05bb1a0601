/**
 * Decimal conversions of Go's `strconv` package as the relay uses them:
 * `ParseUint(s, 10, 64)`, `ParseInt(s, 10, 64)`, `Atoi` and `FormatInt(x, 10)`
 * (the same text `fmt.Sprintf("%d", x)` produces). Go returns a value together
 * with an error; on a syntax error the value is 0 and on a range error it is
 * the bound that was exceeded, and callers that ignore the error see that value.
 */
module GoStrconv {

  const MaxUint64: int := 0xFFFF_FFFF_FFFF_FFFF
  const MaxInt64: int := 0x7FFF_FFFF_FFFF_FFFF
  const MinInt64: int := -0x8000_0000_0000_0000

  predicate IsInt64(x: int)
  {
    MinInt64 <= x <= MaxInt64
  }

  const TwoTo64: int := 0x1_0000_0000_0000_0000

  /** Go's arithmetic on `int` (64 bits): a result out of range wraps around modulo 2^64. */
  function Wrap64(x: int): (r: int)
    ensures IsInt64(r)
    ensures IsInt64(x) ==> r == x
    ensures (x - r) % TwoTo64 == 0
  {
    (x - MinInt64) % TwoTo64 + MinInt64
  }

  /** Two results of Go arithmetic that differ by less than 2^64 differ after wrapping. */
  lemma Wrap64Distinct(x: int, d: int)
    requires 0 < d < TwoTo64
    ensures Wrap64(x) != Wrap64(x + d)
  {
    var a := x - MinInt64;
    var q, r := a / TwoTo64, a % TwoTo64;
    assert a == q * TwoTo64 + r;
    var q2, r2 := (a + d) / TwoTo64, (a + d) % TwoTo64;
    assert a + d == q2 * TwoTo64 + r2;
  }

  datatype NumError = NoError | ErrSyntax | ErrRange

  /** A Go `(value, err)` pair. */
  datatype Parsed = Parsed(value: int, err: NumError)

  predicate IsDigit(c: char)
  {
    '0' <= c <= '9'
  }

  function DigitValue(c: char): (d: nat)
    requires IsDigit(c)
    ensures d <= 9
  {
    (c as int) - ('0' as int)
  }

  function DigitChar(d: nat): (c: char)
    requires d <= 9
    ensures IsDigit(c) && DigitValue(c) == d
  {
    (('0' as int) + d) as char
  }

  /** A non-empty run of ASCII digits. */
  predicate IsDecimal(s: string)
  {
    s != [] && forall i :: 0 <= i < |s| ==> IsDigit(s[i])
  }

  /** The number a run of digits denotes, read as a numeral (most significant first). */
  function DecimalValue(s: string): nat
    requires forall i :: 0 <= i < |s| ==> IsDigit(s[i])
  {
    if s == [] then 0
    else DecimalValue(s[..|s| - 1]) * 10 + DigitValue(s[|s| - 1])
  }

  /**
   * The digit loop of `ParseUint`: a non-digit is a syntax error and the first
   * step that exceeds the 64-bit bound is a range error, whatever follows it.
   */
  function ParseDigits(s: string, acc: nat): (r: Parsed)
    requires acc <= MaxUint64
    ensures 0 <= r.value <= MaxUint64
    ensures r.err == ErrSyntax ==> r.value == 0
    ensures r.err == ErrRange ==> r.value == MaxUint64
    ensures r.err == NoError ==> forall i :: 0 <= i < |s| ==> IsDigit(s[i])
  {
    if s == [] then Parsed(acc, NoError)
    else if !IsDigit(s[0]) then Parsed(0, ErrSyntax)
    else if acc * 10 + DigitValue(s[0]) > MaxUint64 then Parsed(MaxUint64, ErrRange)
    else
      var r := ParseDigits(s[1..], acc * 10 + DigitValue(s[0]));
      assert s == [s[0]] + s[1..];
      r
  }

  /** `strconv.ParseUint(s, 10, 64)`. */
  function ParseUint(s: string): (r: Parsed)
    ensures 0 <= r.value <= MaxUint64
    ensures r.err == ErrSyntax ==> r.value == 0
    ensures r.err == ErrRange ==> r.value == MaxUint64
    ensures r.err == NoError ==> IsDecimal(s)
  {
    if s == [] then Parsed(0, ErrSyntax) else ParseDigits(s, 0)
  }

  /** `strconv.ParseInt(s, 10, 64)`: an optional sign, then `ParseUint` and a clamp. */
  function ParseInt(s: string): (r: Parsed)
    ensures IsInt64(r.value)
    ensures r.err == ErrSyntax ==> r.value == 0
    ensures r.err == ErrRange ==> r.value == MaxInt64 || r.value == MinInt64
  {
    if s == [] then Parsed(0, ErrSyntax)
    else
      var neg := s[0] == '-';
      var digits := if s[0] == '+' || s[0] == '-' then s[1..] else s;
      var u := ParseUint(digits);
      if u.err == ErrSyntax then Parsed(0, ErrSyntax)
      else if !neg && u.value > MaxInt64 then Parsed(MaxInt64, ErrRange)
      else if neg && u.value > -MinInt64 then Parsed(MinInt64, ErrRange)
      else Parsed(if neg then -u.value else u.value, u.err)
  }

  /**
   * `strconv.Atoi` on a 64-bit platform. Its fast path for short inputs and
   * its fall-back to `ParseInt(s, 10, 0)` give the same value and the same
   * kind of error as `ParseInt(s, 10, 64)` on every input.
   */
  function Atoi(s: string): (r: Parsed)
    ensures IsInt64(r.value)
  {
    ParseInt(s)
  }

  /** The decimal digits of `n`, without leading zeros. */
  function Digits(n: nat): (s: string)
    ensures IsDecimal(s)
    ensures DecimalValue(s) == n
    ensures s[0] == '0' ==> n == 0
  {
    if n < 10 then [DigitChar(n)]
    else
      var s := Digits(n / 10) + [DigitChar(n % 10)];
      assert s[..|s| - 1] == Digits(n / 10);
      s
  }

  /** `strconv.FormatInt(x, 10)`, or `fmt.Sprintf("%d", x)`. */
  function FormatInt(x: int): (s: string)
    ensures s != [] && (s[0] == '-' <==> x < 0)
  {
    if x < 0 then "-" + Digits(-x) else Digits(x)
  }

  /** Running the digit loop over `a + b` is running it over `a`, then over `b`. */
  lemma {:induction false} ParseDigitsAppend(a: string, b: string, acc: nat)
    requires acc <= MaxUint64
    ensures var ra := ParseDigits(a, acc);
      ParseDigits(a + b, acc) == if ra.err == NoError then ParseDigits(b, ra.value) else ra
  {
    if a != [] {
      assert (a + b)[0] == a[0];
      assert (a + b)[1..] == a[1..] + b;
      if IsDigit(a[0]) && acc * 10 + DigitValue(a[0]) <= MaxUint64 {
        ParseDigitsAppend(a[1..], b, acc * 10 + DigitValue(a[0]));
      }
    } else {
      assert a + b == b;
    }
  }

  /** On a numeral, `ParseUint` yields its value, or a range error past 2^64-1. */
  lemma {:induction false} ParseUintDecimal(s: string)
    requires IsDecimal(s)
    ensures ParseUint(s) == if DecimalValue(s) <= MaxUint64
      then Parsed(DecimalValue(s), NoError) else Parsed(MaxUint64, ErrRange)
  {
    var a, c := s[..|s| - 1], s[|s| - 1];
    assert s == a + [c];
    ParseDigitsAppend(a, [c], 0);
    if a != [] {
      ParseUintDecimal(a);
    }
  }

  /** Distinct 64-bit integers have distinct decimal forms. */
  lemma FormatIntInjective(x: int, y: int)
    requires IsInt64(x) && IsInt64(y) && FormatInt(x) == FormatInt(y)
    ensures x == y
  {
    FormatParseRoundTrip(x);
    FormatParseRoundTrip(y);
  }

  /** Every 64-bit integer survives formatting and parsing back unchanged. */
  lemma FormatParseRoundTrip(x: int)
    requires IsInt64(x)
    ensures ParseInt(FormatInt(x)) == Parsed(x, NoError)
    ensures Atoi(FormatInt(x)) == Parsed(x, NoError)
  {
    if x < 0 {
      var s := FormatInt(x);
      assert s[1..] == Digits(-x);
      ParseUintDecimal(Digits(-x));
    } else {
      ParseUintDecimal(Digits(x));
    }
  }
}
