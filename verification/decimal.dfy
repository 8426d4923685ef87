/**
  Decimal integers as the ping handler reads them.

  The interval a peer puts in a ping payload is read with Go's `strconv.Atoi`
  and the error is discarded, so what matters is the value `Atoi` returns
  alongside its error. On a 64-bit platform that is the value of
  `strconv.ParseInt(s, 10, 64)`:
  - an optional `+` or `-`, then the digits are scanned left to right;
  - the first non-digit is a syntax error and the value is 0, unless the digits
    before it already overflowed 64 bits: the scan stops at the overflowing
    digit with a range error and never sees the stray character;
  - a range error gives the `int64` bound of the payload's sign.
  Nothing else (no spaces, no underscores, no empty string) is accepted.
  The payload is read one character per byte, which is exact for ASCII text.
 */
module Decimal {

  import opened Wrappers
  import opened GoInt

  predicate IsDigit(c: char) {
    '0' <= c <= '9'
  }

  function DigitValue(c: char): (d: nat)
    requires IsDigit(c)
    ensures d < 10
  {
    c as int - '0' as int
  }

  function DigitChar(d: nat): (c: char)
    requires d < 10
    ensures IsDigit(c) && DigitValue(c) == d
  {
    ('0' as int + d) as char
  }

  predicate AllDigits(s: string) {
    forall i :: 0 <= i < |s| ==> IsDigit(s[i])
  }

  /** The value of a run of digits, most significant digit first. */
  function Magnitude(s: string): nat
    requires AllDigits(s)
    decreases |s|
  {
    if |s| == 0 then 0
    else Magnitude(s[..|s| - 1]) * 10 + DigitValue(s[|s| - 1])
  }

  function Pow10(n: nat): nat {
    if n == 0 then 1 else 10 * Pow10(n - 1)
  }

  predicate HasSign(s: string) {
    |s| > 0 && (s[0] == '+' || s[0] == '-')
  }

  /** `s` without its leading sign character, if it has one. */
  function Unsigned(s: string): string {
    if HasSign(s) then s[1..] else s
  }

  /** Optional sign, then one or more digits. */
  predicate WellFormed(s: string) {
    |Unsigned(s)| > 0 && AllDigits(Unsigned(s))
  }

  /** The exact (unbounded) value of well-formed text, or `None`. */
  function Parse(s: string): (r: Option<int>)
    ensures r.Some? <==> WellFormed(s)
  {
    if !WellFormed(s) then None
    else
      var m: int := Magnitude(Unsigned(s));
      Some(if s[0] == '-' then -m else m)
  }

  /** The two errors `strconv` reports. */
  datatype NumError = ErrSyntax | ErrRange

  /** What the digit scan of `strconv.ParseUint` yields. */
  datatype UintResult = UintOk(n: nat) | UintErr(err: NumError)

  /**
    The digit scan of `strconv.ParseUint(u, 10, 64)`, one character at a time
    from the left: a non-digit is a syntax error, and a digit that takes the
    accumulated value past the `uint64` range is a range error; the first
    error ends the scan.
   */
  function ScanDigits(u: string): (r: UintResult)
    ensures r.UintOk? ==> AllDigits(u) && r.n == Magnitude(u) && r.n <= MaxUint64
    decreases |u|
  {
    if |u| == 0 then UintOk(0)
    else
      match ScanDigits(u[..|u| - 1])
      case UintErr(e) => UintErr(e)
      case UintOk(n) =>
        var c := u[|u| - 1];
        if !IsDigit(c) then UintErr(ErrSyntax)
        else if n * 10 + DigitValue(c) > MaxUint64 then UintErr(ErrRange)
        else UintOk(n * 10 + DigitValue(c))
  }

  /** `strconv.ParseUint(u, 10, 64)`: the empty string is a syntax error. */
  function ParseUint(u: string): UintResult {
    if |u| == 0 then UintErr(ErrSyntax) else ScanDigits(u)
  }

  /** A value together with the error `strconv` reported, if any. */
  datatype IntResult = IntResult(value: int, err: Option<NumError>)

  /**
    `strconv.Atoi` on a 64-bit platform, i.e. `strconv.ParseInt(s, 10, 64)`:
    strip one sign, scan the rest as unsigned, and saturate to `int64`; after
    a syntax error the value is 0.
   */
  function Atoi(s: string): (r: IntResult)
    ensures IsInt64(r.value)
    ensures r.err == Some(ErrSyntax) ==> r.value == 0
    ensures r.err.None? ==> WellFormed(s) && r.value == Parse(s).value
  {
    if |s| == 0 then IntResult(0, Some(ErrSyntax))
    else
      var neg := s[0] == '-';
      match ParseUint(Unsigned(s))
      case UintErr(ErrSyntax) => IntResult(0, Some(ErrSyntax))
      case UintErr(ErrRange) =>
        if neg then IntResult(MinInt64, Some(ErrRange)) else IntResult(MaxInt64, Some(ErrRange))
      case UintOk(un) =>
        if !neg && un > MaxInt64 then IntResult(MaxInt64, Some(ErrRange))
        else if neg && un > -MinInt64 then IntResult(MinInt64, Some(ErrRange))
        else
          var v: int := un;
          IntResult(if neg then -v else v, None)
  }

  /** Decimal digits of `n` without leading zeros. */
  function NatToString(n: nat): (s: string)
    ensures |s| > 0 && AllDigits(s)
    ensures s[0] != '+' && s[0] != '-'
    decreases n
  {
    if n < 10 then [DigitChar(n)]
    else NatToString(n / 10) + [DigitChar(n % 10)]
  }

  /** `strconv.Itoa`: the canonical decimal text of `n`. */
  function Itoa(n: int): (s: string)
    ensures WellFormed(s)
    ensures s[0] == '-' <==> n < 0
  {
    if n < 0 then "-" + NatToString(-n) else NatToString(n)
  }

  lemma {:induction false} MagnitudeBound(s: string)
    requires AllDigits(s)
    ensures Magnitude(s) < Pow10(|s|)
    decreases |s|
  {
    if |s| > 0 {
      MagnitudeBound(s[..|s| - 1]);
    }
  }

  /** The powers of ten that bound 18 and 20 digits. */
  lemma Pow10Values()
    ensures Pow10(18) == 1_000_000_000_000_000_000
    ensures Pow10(20) == 100_000_000_000_000_000_000
  {
    assert Pow10(4) == 10_000;
    assert Pow10(8) == 100_000_000;
    assert Pow10(12) == 1_000_000_000_000;
    assert Pow10(16) == 10_000_000_000_000_000;
  }

  lemma {:induction false} Pow10Monotone(i: nat, j: nat)
    requires i <= j
    ensures Pow10(i) <= Pow10(j)
    decreases j
  {
    if i < j {
      Pow10Monotone(i, j - 1);
    }
  }

  /** A run of digits scans to its value while that fits in 64 bits, and to a range error otherwise. */
  lemma {:induction false} ScanAllDigits(u: string)
    requires AllDigits(u)
    ensures ScanDigits(u) == if Magnitude(u) <= MaxUint64 then UintOk(Magnitude(u)) else UintErr(ErrRange)
    decreases |u|
  {
    if |u| > 0 {
      var init := u[..|u| - 1];
      ScanAllDigits(init);
    }
  }

  /**
    With a non-digit at `i` after digits only, the scan is a syntax error if
    those digits fit in 64 bits and a range error if they do not.
   */
  lemma {:induction false} ScanStray(u: string, i: nat)
    requires i < |u| && !IsDigit(u[i]) && AllDigits(u[..i])
    ensures ScanDigits(u) ==
      if Magnitude(u[..i]) <= MaxUint64 then UintErr(ErrSyntax) else UintErr(ErrRange)
    decreases |u|
  {
    var init := u[..|u| - 1];
    if |u| == i + 1 {
      ScanAllDigits(init);
    } else {
      assert init[..i] == u[..i];
      ScanStray(init, i);
    }
  }

  /**
    Well-formed text reads as its exact value saturated to `int64`, and the
    error is a range error exactly when it saturated.
   */
  lemma AtoiWellFormed(s: string)
    requires WellFormed(s)
    ensures Atoi(s).value == Clamp64(Parse(s).value)
    ensures Atoi(s).err == if IsInt64(Parse(s).value) then None else Some(ErrRange)
  {
    ScanAllDigits(Unsigned(s));
  }

  /** Text with no digits after the optional sign (`""`, `"+"`, `"-"`) is a syntax error and reads as 0. */
  lemma AtoiNoDigits(s: string)
    requires |Unsigned(s)| == 0
    ensures Atoi(s) == IntResult(0, Some(ErrSyntax))
  {
  }

  /**
    A payload whose unsigned part has a stray non-digit at `i`: it reads as 0
    with a syntax error when the digits before the stray character fit in 64
    bits; when they do not, the scan stopped earlier with a range error and the
    payload reads as the `int64` bound of its sign.
   */
  lemma AtoiStray(s: string, i: nat)
    requires i < |Unsigned(s)| && !IsDigit(Unsigned(s)[i]) && AllDigits(Unsigned(s)[..i])
    ensures Atoi(s) ==
      if Magnitude(Unsigned(s)[..i]) <= MaxUint64 then IntResult(0, Some(ErrSyntax))
      else if s[0] == '-' then IntResult(MinInt64, Some(ErrRange))
      else IntResult(MaxInt64, Some(ErrRange))
  {
    ScanStray(Unsigned(s), i);
  }

  lemma {:induction false} MagnitudeOfNatToString(n: nat)
    ensures Magnitude(NatToString(n)) == n
    decreases n
  {
    var s := NatToString(n);
    if n >= 10 {
      MagnitudeOfNatToString(n / 10);
      assert s[..|s| - 1] == NatToString(n / 10);
    }
  }

  /** Reading back the text of any `int64` gives that integer without error. */
  lemma AtoiItoa(n: int)
    requires IsInt64(n)
    ensures Atoi(Itoa(n)) == IntResult(n, None)
  {
    var s := Itoa(n);
    if n < 0 {
      assert Unsigned(s) == NatToString(-n);
      MagnitudeOfNatToString(-n);
    } else {
      assert Unsigned(s) == NatToString(n);
      MagnitudeOfNatToString(n);
    }
    AtoiWellFormed(s);
  }

  /** Text shorter than this takes the fast path of `strconv.Atoi` on a 64-bit platform. */
  const FastPathLength: nat := 19

  /**
    The fast path of `strconv.Atoi` for text of 1 to 18 bytes (one character
    per byte, as for ASCII text): skip one sign, fail when nothing follows it,
    fold the digits left to right, negate for `-`, and give up with 0 on the
    first non-digit. Such text cannot overflow, and the fast path agrees with
    the general parse.
   */
  method AtoiFastPath(s: string) returns (n: int, ok: bool)
    requires 0 < |s| < FastPathLength
    ensures n == Atoi(s).value
    ensures ok <==> Atoi(s).err.None?
    ensures ok <==> WellFormed(s)
  {
    var u := s;
    if s[0] == '-' || s[0] == '+' {
      u := s[1..];
      if |u| < 1 {
        return 0, false;
      }
    }
    assert u == Unsigned(s);
    Pow10Monotone(|u|, 18);
    Pow10Values();
    var acc := 0;
    var i := 0;
    while i < |u|
      invariant 0 <= i <= |u|
      invariant AllDigits(u[..i])
      invariant acc == Magnitude(u[..i])
    {
      if !IsDigit(u[i]) {
        MagnitudeBound(u[..i]);
        Pow10Monotone(i, |u|);
        AtoiStray(s, i);
        return 0, false;
      }
      assert u[..i + 1][..i] == u[..i];
      acc := acc * 10 + DigitValue(u[i]);
      i := i + 1;
    }
    assert u[..i] == u;
    MagnitudeBound(u);
    AtoiWellFormed(s);
    if s[0] == '-' {
      acc := -acc;
    }
    return acc, true;
  }

  lemma {:induction false} AllNines(k: nat)
    ensures AllDigits(seq(k, _ => '9'))
    ensures Magnitude(seq(k, _ => '9')) == Pow10(k) - 1
  {
    if k > 0 {
      AllNines(k - 1);
      assert seq(k, _ => '9')[..k - 1] == seq(k - 1, _ => '9');
    }
  }

  /** `"30"` reads as 30 and `"-7"` as -7. */
  lemma ExamplesWellFormed()
    ensures Atoi("30") == IntResult(30, None)
    ensures Atoi("-7") == IntResult(-7, None)
  {
    assert Unsigned("30") == "30";
    assert "30"[..1] == "3";
    assert "3"[..0] == "";
    assert Unsigned("-7") == "7";
    assert "7"[..0] == "";
  }

  /** `"abc"` and a bare `+` are syntax errors and read as 0. */
  lemma ExamplesSyntax()
    ensures Atoi("abc") == IntResult(0, Some(ErrSyntax))
    ensures Atoi("+") == IntResult(0, Some(ErrSyntax))
  {
    AtoiStray("abc", 0);
    AtoiNoDigits("+");
  }

  /**
    `"99999999999999999999x"` reads as the largest `int64`, not 0: its twenty
    nines overflow before the `x` is reached.
   */
  lemma ExampleOverflowBeforeStray()
    ensures Atoi("99999999999999999999x") == IntResult(MaxInt64, Some(ErrRange))
  {
    var big := "99999999999999999999x";
    AllNines(20);
    assert big[..20] == seq(20, _ => '9');
    Pow10Values();
    AtoiStray(big, 20);
  }
}
