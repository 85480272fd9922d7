/** The two number parsers of Go's `strconv` package that the message builder calls:
    `ParseUint(s, 10, 32)` and, as a recogniser only, `ParseFloat(s, 64)`. */
module Strconv {
  import opened Wrappers
  import opened Text

  const MaxUint32: int := 0xFFFF_FFFF

  /** Go's `uint32`. */
  type u32 = x: int | 0 <= x <= MaxUint32

  /** The `Err` field of a `*strconv.NumError`. */
  datatype NumErr = ErrSyntax | ErrRange

  predicate IsDigit(c: char) { '0' <= c <= '9' }

  predicate AllDigits(s: string) { forall i :: 0 <= i < |s| ==> IsDigit(s[i]) }

  function DigitValue(c: char): (d: nat)
    requires IsDigit(c)
    ensures d < 10
  {
    c as int - '0' as int
  }

  /** The value of a string of decimal digits, read most significant digit first. */
  function DecimalValue(s: string): nat
    requires AllDigits(s)
  {
    if s == [] then 0 else DecimalValue(s[..|s| - 1]) * 10 + DigitValue(s[|s| - 1])
  }

  /** The length of the run of digits `s` starts with. */
  function LeadingDigits(s: string): (k: nat)
    ensures k <= |s| && AllDigits(s[..k])
    ensures k < |s| ==> !IsDigit(s[k])
  {
    if s == [] || !IsDigit(s[0]) then 0
    else
      var k := 1 + LeadingDigits(s[1..]);
      assert forall i :: 1 <= i < k ==> s[..k][i] == s[1..][..k - 1][i - 1];
      k
  }

  /** The digit loop of `ParseUint` for base 10 and 32 bits: left to right, a non-digit is
      a syntax error and a running value above `MaxUint32` a range error, whichever comes
      first. */
  function ScanDecimal(s: string, i: nat, n: u32): Result<u32, NumErr>
    requires i <= |s|
    decreases |s| - i
  {
    if i == |s| then Ok(n)
    else if !IsDigit(s[i]) then Err(ErrSyntax)
    else if n * 10 + DigitValue(s[i]) > MaxUint32 then Err(ErrRange)
    else ScanDecimal(s, i + 1, n * 10 + DigitValue(s[i]))
  }

  /** `strconv.ParseUint(s, 10, 32)`: succeeds exactly on non-empty all-digit text whose
      value fits in 32 bits, and then returns that value. Otherwise the error is ErrRange
      when the digits the text starts with are already too large, and ErrSyntax when they
      are not, as for the empty text and a non-digit met first. */
  function ParseUint32(s: string): (r: Result<u32, NumErr>)
    ensures r.Ok? <==> s != [] && AllDigits(s) && DecimalValue(s) <= MaxUint32
    ensures r.Ok? ==> r.value == DecimalValue(s)
    ensures r.Err? ==> r.error == if DecimalValue(s[..LeadingDigits(s)]) <= MaxUint32 then ErrSyntax else ErrRange
    ensures s != [] && AllDigits(s) && DecimalValue(s) > MaxUint32 ==> r == Err(ErrRange)
    ensures s == [] ==> r == Err(ErrSyntax)
  {
    if s == [] then Err(ErrSyntax)
    else
      assert s[..0] == [];
      ScanDecimalCorrect(s, 0, 0);
      var k := LeadingDigits(s);
      if k < |s| then
        ScanDecimalStops(s, 0, 0);
        ScanDecimal(s, 0, 0)
      else
        assert s[..k] == s;
        ScanDecimal(s, 0, 0)
  }

  /** Past the leading digits, the scan has either overflowed on them or stops at the first
      non-digit. */
  lemma {:induction false} ScanDecimalStops(s: string, i: nat, n: u32)
    requires i <= LeadingDigits(s) < |s|
    requires AllDigits(s[..i]) && n == DecimalValue(s[..i])
    ensures ScanDecimal(s, i, n)
            == if DecimalValue(s[..LeadingDigits(s)]) <= MaxUint32 then Err(ErrSyntax) else Err(ErrRange)
    decreases |s| - i
  {
    var k := LeadingDigits(s);
    if i < k {
      assert IsDigit(s[i]) by { assert s[..k][i] == s[i]; }
      var t := s[..k];
      assert t[..i + 1] == s[..i + 1] && t[..i] == s[..i];
      DecimalValueSnoc(t, i);
      if n * 10 + DigitValue(s[i]) > MaxUint32 {
        DecimalValuePrefix(t, i + 1);
      } else {
        ScanDecimalStops(s, i + 1, n * 10 + DigitValue(s[i]));
      }
    }
  }

  /** A non-digit is a syntax error unless the digits before it already overflow. */
  lemma ParseUintErrorKinds()
    ensures ParseUint32("1a") == Err(ErrSyntax)
    ensures ParseUint32("5000000000x") == Err(ErrRange)
  {
  }

  lemma DecimalValueSnoc(s: string, i: nat)
    requires i < |s| && AllDigits(s[..i + 1])
    ensures AllDigits(s[..i])
    ensures DecimalValue(s[..i + 1]) == DecimalValue(s[..i]) * 10 + DigitValue(s[i])
  {
    assert s[..i + 1][..i] == s[..i];
  }

  /** A prefix of a digit string never has a larger value than the whole. */
  lemma {:induction false} DecimalValuePrefix(s: string, i: nat)
    requires AllDigits(s) && i <= |s|
    ensures AllDigits(s[..i]) && DecimalValue(s[..i]) <= DecimalValue(s)
    decreases |s| - i
  {
    if i < |s| {
      DecimalValuePrefix(s, i + 1);
      DecimalValueSnoc(s, i);
    } else {
      assert s[..i] == s;
    }
  }

  lemma {:induction false} ScanDecimalCorrect(s: string, i: nat, n: u32)
    requires i <= |s| && AllDigits(s[..i]) && n == DecimalValue(s[..i])
    ensures ScanDecimal(s, i, n).Ok? <==> AllDigits(s) && DecimalValue(s) <= MaxUint32
    ensures ScanDecimal(s, i, n).Ok? ==> ScanDecimal(s, i, n).value == DecimalValue(s)
    ensures AllDigits(s) && DecimalValue(s) > MaxUint32 ==> ScanDecimal(s, i, n) == Err(ErrRange)
    decreases |s| - i
  {
    if i == |s| {
      assert s[..i] == s;
    } else if !IsDigit(s[i]) {
    } else {
      var t := s[..i + 1];
      assert AllDigits(t) by {
        forall j | 0 <= j < |t| ensures IsDigit(t[j]) {
          if j < i { assert t[j] == s[..i][j]; }
        }
      }
      DecimalValueSnoc(s, i);
      if n * 10 + DigitValue(s[i]) > MaxUint32 {
        if AllDigits(s) { DecimalValuePrefix(s, i + 1); }
      } else {
        ScanDecimalCorrect(s, i + 1, n * 10 + DigitValue(s[i]));
      }
    }
  }

  function LowerAscii(c: char): char
  {
    if 'A' <= c <= 'Z' then (c as int + 32) as char else c
  }

  function Lower(s: string): (r: string)
    ensures |r| == |s|
  {
    seq(|s|, i requires 0 <= i < |s| => LowerAscii(s[i]))
  }

  /** The special spellings `ParseFloat` accepts, in any letter case: a possibly signed
      "inf" or "infinity", and an unsigned "nan". */
  predicate IsSpecialFloat(s: string)
  {
    Lower(s) in {"inf", "+inf", "-inf", "infinity", "+infinity", "-infinity", "nan"}
  }

  function WithoutSign(s: string): string
  {
    if s != [] && (s[0] == '+' || s[0] == '-') then s[1..] else s
  }

  /** Digits with at most one decimal point and at least one digit: "1", "1.", ".5", "1.25". */
  predicate IsMantissa(m: string)
  {
    var k := IndexOf(m, '.');
    AllDigits(m[..k]) && (k == |m| || AllDigits(m[k + 1..])) && (k < |m| ==> |m| >= 2) && m != []
  }

  function IndexOfExponent(s: string): (k: nat)
    ensures k <= |s|
    ensures k < |s| ==> s[k] == 'e' || s[k] == 'E'
    ensures forall i :: 0 <= i < k ==> s[i] != 'e' && s[i] != 'E'
  {
    if s == [] then 0 else if s[0] == 'e' || s[0] == 'E' then 0 else 1 + IndexOfExponent(s[1..])
  }

  /** A decimal floating-point literal: optional sign, mantissa, then optionally `e` or `E`,
      an optional sign and at least one digit. */
  predicate IsDecimalFloat(s: string)
  {
    var body := WithoutSign(s);
    var e := IndexOfExponent(body);
    IsMantissa(body[..e]) && (e == |body| || (WithoutSign(body[e + 1..]) != [] && AllDigits(WithoutSign(body[e + 1..]))))
  }

  /** The texts on which `strconv.ParseFloat(s, 64)` returns no error, as far as this model
      follows it (decimal and special spellings). */
  predicate IsFloatLiteral(s: string): (b: bool)
    ensures b ==> s != []
  {
    IsSpecialFloat(s) || IsDecimalFloat(s)
  }

  /** A non-empty string of decimal digits is a float literal, as `ParseFloat` reads a
      decimal integer as a float. */
  lemma DigitsAreFloat(s: string)
    requires s != [] && AllDigits(s)
    ensures IsFloatLiteral(s)
  {
    forall i | 0 <= i < |s| ensures s[i] != '.' && s[i] != 'e' && s[i] != 'E' {
      assert IsDigit(s[i]);
    }
    assert s[..|s|] == s;
  }

  /** Digits, a decimal point and digits, with at least one digit, are a float literal. */
  lemma PointedDigitsAreFloat(a: string, b: string)
    requires AllDigits(a) && AllDigits(b) && a + b != []
    ensures IsFloatLiteral(a + "." + b)
  {
    var s := a + "." + b;
    forall i | 0 <= i < |s| ensures s[i] != 'e' && s[i] != 'E' && (i != |a| ==> s[i] != '.') {
      if i < |a| { assert IsDigit(a[i]); } else if i > |a| { assert IsDigit(b[i - |a| - 1]); }
    }
    assert WithoutSign(s) == s;
    assert IndexOf(s, '.') == |a|;
    assert s[..|s|] == s && s[..|a|] == a && s[|a| + 1..] == b;
  }
}
