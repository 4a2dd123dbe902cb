/** The parts of Go's `strings` and `strconv` packages that the configuration
    loaders rely on, written out so that their edge cases are visible. */
module GoText {
  import opened Wrappers

  /** Letter case mapping restricted to ASCII (see README, "Left out"). */
  function LowerChar(c: char): (r: char)
    ensures !('A' <= r <= 'Z')
    ensures !('A' <= c <= 'Z') ==> r == c
  {
    if 'A' <= c <= 'Z' then (c as int + 32) as char else c
  }

  function UpperChar(c: char): (r: char)
    ensures !('a' <= r <= 'z')
    ensures !('a' <= c <= 'z') ==> r == c
  {
    if 'a' <= c <= 'z' then (c as int - 32) as char else c
  }

  /** strings.ToLower on ASCII text. */
  function ToLower(s: string): (r: string)
    ensures |r| == |s|
    ensures forall i | 0 <= i < |s| :: r[i] == LowerChar(s[i])
  {
    seq(|s|, i requires 0 <= i < |s| => LowerChar(s[i]))
  }

  /** strings.ToUpper on ASCII text. */
  function ToUpper(s: string): (r: string)
    ensures |r| == |s|
    ensures forall i | 0 <= i < |s| :: r[i] == UpperChar(s[i])
  {
    seq(|s|, i requires 0 <= i < |s| => UpperChar(s[i]))
  }

  const MaxInt64: int := 0x7FFF_FFFF_FFFF_FFFF
  const MinInt64: int := -0x8000_0000_0000_0000
  const MaxUint64: int := 0xFFFF_FFFF_FFFF_FFFF

  /** The error strconv returns with a number: Go's nil error, or one of the
      two reasons strconv gives for rejecting the text. */
  datatype NumError = Nil | ErrSyntax | ErrRange

  /** strconv's (value, error) pair: the value is meaningful even when the
      error is set, and callers that discard the error see it. */
  datatype Parsed = Parsed(value: int, err: NumError)

  predicate IsDigit(c: char) {
    '0' <= c <= '9'
  }

  /** The digit loop of strconv.ParseUint(s, 10, 64), continuing from the
      value `n` accumulated so far. A non-digit stops with a syntax error and
      value 0; the first step that passes 2^64 - 1 stops with a range error
      and value 2^64 - 1, without looking at the characters after it. */
  function ScanUint(s: string, n: nat): (r: Parsed)
    requires n <= MaxUint64
    ensures r.err == ErrSyntax ==> r.value == 0
    ensures r.err == ErrRange ==> r.value == MaxUint64
    ensures r.err == Nil ==> n <= r.value <= MaxUint64 && forall i | 0 <= i < |s| :: IsDigit(s[i])
    decreases |s|
  {
    if s == [] then Parsed(n, Nil)
    else if !IsDigit(s[0]) then Parsed(0, ErrSyntax)
    else
      var n1 := n * 10 + (s[0] as int - '0' as int);
      if n1 > MaxUint64 then Parsed(MaxUint64, ErrRange)
      else ScanUint(s[1..], n1)
  }

  /** strconv.Atoi on a 64-bit platform, which is strconv.ParseInt(s, 10, 0):
      an optional sign, then ParseUint of the rest, then clamping to the
      int64 range with a range error. (Atoi's fast path for short strings
      gives the same results.) */
  function Atoi(s: string): (r: Parsed)
    ensures MinInt64 <= r.value <= MaxInt64
    ensures r.err == ErrSyntax ==> r.value == 0
    ensures r.err == ErrRange ==> |s| > 0 && (r.value == MinInt64 <==> s[0] == '-')
    ensures r.err == ErrRange ==> r.value == MaxInt64 || r.value == MinInt64
    ensures s == [] || s == "+" || s == "-" ==> r == Parsed(0, ErrSyntax)
    ensures (exists i | 0 <= i < |s| :: !IsDigit(s[i]) && (i > 0 || (s[0] != '+' && s[0] != '-')))
            ==> r.err != Nil
  {
    if s == [] then Parsed(0, ErrSyntax)
    else
      var neg := s[0] == '-';
      var digits := if s[0] == '+' || s[0] == '-' then s[1..] else s;
      var u := if digits == [] then Parsed(0, ErrSyntax) else ScanUint(digits, 0);
      if u.err == ErrSyntax then Parsed(0, u.err)
      else if !neg && u.value >= 0x8000_0000_0000_0000 then Parsed(MaxInt64, ErrRange)
      else if neg && u.value > 0x8000_0000_0000_0000 then Parsed(MinInt64, ErrRange)
      else
        assert forall i | 0 <= i < |s| && (i > 0 || (s[0] != '+' && s[0] != '-')) :: IsDigit(s[i]) by {
          forall i | 0 <= i < |s| && (i > 0 || (s[0] != '+' && s[0] != '-')) ensures IsDigit(s[i]) {
            if s[0] == '+' || s[0] == '-' { assert s[i] == digits[i - 1]; } else { assert s[i] == digits[i]; }
          }
        }
        Parsed(if neg then -u.value else u.value, Nil)
  }

  function DigitChar(d: int): (c: char)
    requires 0 <= d < 10
    ensures IsDigit(c) && c as int - '0' as int == d
  {
    ('0' as int + d) as char
  }

  /** The decimal digits of `n`, most significant first. */
  function Decimal(n: nat): (s: string)
    ensures |s| > 0
    ensures forall i | 0 <= i < |s| :: IsDigit(s[i])
  {
    if n < 10 then [DigitChar(n)] else Decimal(n / 10) + [DigitChar(n % 10)]
  }

  /** strconv.Itoa. */
  function Itoa(n: int): (s: string)
    ensures |s| > 0
  {
    if n < 0 then "-" + Decimal(-n) else Decimal(n)
  }

  /** Scanning a concatenation scans the first part and continues with the
      second from the value reached. */
  lemma {:induction false} ScanUintAppend(a: string, b: string, n: nat)
    requires n <= MaxUint64
    ensures ScanUint(a + b, n) ==
      var r := ScanUint(a, n); if r.err == Nil then ScanUint(b, r.value) else r
    decreases |a|
  {
    if a == [] {
      assert a + b == b;
    } else {
      assert (a + b)[0] == a[0];
      assert (a + b)[1..] == a[1..] + b;
      if IsDigit(a[0]) {
        var n1 := n * 10 + (a[0] as int - '0' as int);
        if n1 <= MaxUint64 {
          ScanUintAppend(a[1..], b, n1);
        }
      }
    }
  }

  lemma {:induction false} ScanDecimal(n: nat)
    requires n <= MaxUint64
    ensures ScanUint(Decimal(n), 0) == Parsed(n, Nil)
  {
    if n >= 10 {
      ScanDecimal(n / 10);
      ScanUintAppend(Decimal(n / 10), [DigitChar(n % 10)], 0);
      assert [DigitChar(n % 10)][1..] == [];
    }
  }

  /** Past 2^64 - 1 the digit loop stops with a range error. */
  lemma {:induction false} ScanDecimalOverflow(n: nat)
    requires n > MaxUint64
    ensures ScanUint(Decimal(n), 0) == Parsed(MaxUint64, ErrRange)
  {
    ScanUintAppend(Decimal(n / 10), [DigitChar(n % 10)], 0);
    if n / 10 > MaxUint64 {
      ScanDecimalOverflow(n / 10);
    } else {
      ScanDecimal(n / 10);
      assert (n / 10) * 10 + n % 10 == n;
    }
  }

  /** A number past the int64 range is clamped with a range error: to
      MaxInt64 without a sign or with a plus sign, to MinInt64 with a minus
      sign, where 2^63 itself is still in range as -2^63. */
  lemma AtoiOverflow(n: nat)
    requires n > MaxInt64
    ensures Atoi(Decimal(n)) == Parsed(MaxInt64, ErrRange)
    ensures Atoi("+" + Decimal(n)) == Parsed(MaxInt64, ErrRange)
    ensures n > MaxInt64 + 1 ==> Atoi("-" + Decimal(n)) == Parsed(MinInt64, ErrRange)
    ensures n == MaxInt64 + 1 ==> Atoi("-" + Decimal(n)) == Parsed(MinInt64, Nil)
  {
    if n <= MaxUint64 {
      ScanDecimal(n);
    } else {
      ScanDecimalOverflow(n);
    }
    assert ("+" + Decimal(n))[1..] == Decimal(n);
    assert ("-" + Decimal(n))[1..] == Decimal(n);
  }

  /** Atoi reads back every int64 that Itoa writes. */
  lemma AtoiItoa(n: int)
    requires MinInt64 <= n <= MaxInt64
    ensures Atoi(Itoa(n)) == Parsed(n, Nil)
  {
    if n < 0 {
      ScanDecimal(-n);
      assert ("-" + Decimal(-n))[1..] == Decimal(-n);
    } else {
      ScanDecimal(n);
    }
  }

  /** strconv.ParseBool: exactly the twelve spellings Go accepts. */
  function ParseBool(s: string): (r: Result<bool, NumError>)
    ensures r.Success? && r.value <==> s in {"1", "t", "T", "true", "TRUE", "True"}
    ensures r.Success? && !r.value <==> s in {"0", "f", "F", "false", "FALSE", "False"}
    ensures r.Failure? ==> r.error == ErrSyntax
  {
    match s
    case "1" => Success(true)
    case "t" => Success(true)
    case "T" => Success(true)
    case "true" => Success(true)
    case "TRUE" => Success(true)
    case "True" => Success(true)
    case "0" => Success(false)
    case "f" => Success(false)
    case "F" => Success(false)
    case "false" => Success(false)
    case "FALSE" => Success(false)
    case "False" => Success(false)
    case _ => Failure(ErrSyntax)
  }
}
