/**
 * `strconv.ParseInt(s, 10, 64)` as `UploadMedia` uses it: the error is
 * discarded, so what matters is the value returned in every case — 0 on a
 * syntax error, the nearest 64-bit bound when the number is out of range.
 */
module ParseInt {

  const MaxUint64: int := 0xFFFF_FFFF_FFFF_FFFF
  const MaxInt64: int := 0x7FFF_FFFF_FFFF_FFFF
  const MinInt64: int := -0x8000_0000_0000_0000

  predicate IsDigit(c: char)
  {
    '0' <= c <= '9'
  }

  function DigitValue(c: char): nat
    requires IsDigit(c)
  {
    c as int - '0' as int
  }

  /** How the unsigned scan of a digit string ended. */
  datatype Scan = SyntaxError | RangeError | Digits(n: nat)

  /**
   * `ParseUint`'s loop in base 10, continuing from `acc`: a non-digit is a
   * syntax error, and the first digit that takes the value past 2^64-1 is a
   * range error, whatever follows it.
   */
  function ScanDecimal(s: string, acc: nat): (r: Scan)
    requires acc <= MaxUint64
    ensures r.Digits? ==> acc <= r.n <= MaxUint64
    decreases |s|
  {
    if s == [] then Digits(acc)
    else if !IsDigit(s[0]) then SyntaxError
    else
      var n := acc * 10 + DigitValue(s[0]);
      if n > MaxUint64 then RangeError else ScanDecimal(s[1..], n)
  }

  /** `ParseUint(s, 10, 64)`: the empty string is a syntax error. */
  function ParseUint64(s: string): Scan
  {
    if s == [] then SyntaxError else ScanDecimal(s, 0)
  }

  /**
   * `ParseInt(s, 10, 64)`'s returned value: an optional sign, then
   * `ParseUint`; out-of-range magnitudes are clamped to the int64 bounds.
   */
  function ParseInt64(s: string): (r: int)
    ensures MinInt64 <= r <= MaxInt64
    ensures s == [] ==> r == 0
    ensures |s| > 0 && !IsDigit(s[0]) && s[0] != '+' && s[0] != '-' ==> r == 0
  {
    if s == [] then 0
    else
      var neg := s[0] == '-';
      var magnitude := if s[0] == '+' || s[0] == '-' then s[1..] else s;
      var value: int :=
        match ParseUint64(magnitude)
        case SyntaxError => 0
        case RangeError => if neg then MinInt64 else MaxInt64
        case Digits(u) =>
          if !neg && u > MaxInt64 then MaxInt64
          else if neg && u > -MinInt64 then MinInt64
          else if neg then -(u as int)
          else u;
      value
  }

  function DigitChar(d: nat): (c: char)
    requires d < 10
    ensures IsDigit(c) && DigitValue(c) == d
  {
    ('0' as int + d) as char
  }

  /** The decimal digits of `n`, most significant first (`strconv.FormatUint`). */
  function DecimalString(n: nat): (s: string)
    ensures |s| > 0
    decreases n
  {
    if n < 10 then [DigitChar(n)] else DecimalString(n / 10) + [DigitChar(n % 10)]
  }

  /** `strconv.FormatInt(n, 10)`. */
  function FormatInt64(n: int): string
  {
    if n < 0 then "-" + DecimalString(-n) else DecimalString(n)
  }

  /** Scanning one more digit extends the accumulated value by that digit. */
  lemma {:induction false} ScanDecimalSnoc(s: string, c: char, acc: nat, m: nat)
    requires acc <= MaxUint64 && IsDigit(c)
    requires ScanDecimal(s, acc) == Digits(m)
    ensures m * 10 + DigitValue(c) <= MaxUint64 ==> ScanDecimal(s + [c], acc) == Digits(m * 10 + DigitValue(c))
    decreases |s|
  {
    if s == [] {
      assert s + [c] == [c];
    } else {
      var n := acc * 10 + DigitValue(s[0]);
      assert (s + [c])[0] == s[0];
      assert (s + [c])[1..] == s[1..] + [c];
      ScanDecimalSnoc(s[1..], c, n, m);
    }
  }

  lemma {:induction false} ScanDecimalString(n: nat)
    requires n <= MaxUint64
    ensures ScanDecimal(DecimalString(n), 0) == Digits(n)
    decreases n
  {
    if n >= 10 {
      ScanDecimalString(n / 10);
      ScanDecimalSnoc(DecimalString(n / 10), DigitChar(n % 10), 0, n / 10);
    }
  }

  /** Parsing what `FormatInt64` prints gives back every int64. */
  lemma ParseFormatRoundTrip(n: int)
    requires MinInt64 <= n <= MaxInt64
    ensures ParseInt64(FormatInt64(n)) == n
  {
    if n < 0 {
      ScanDecimalString(-n);
      assert ("-" + DecimalString(-n))[1..] == DecimalString(-n);
    } else {
      ScanDecimalString(n);
      assert DecimalString(n)[0] != '-';
      assert DecimalString(n)[0] != '+';
    }
  }
}
