/** Go's `strconv.Atoi` for base 10 on a 64-bit platform, as the scaler uses it
    to read the `listLength` option. Atoi delegates to ParseInt, which strips one
    sign and hands the rest to ParseUint; ParseUint scans the digits left to
    right and stops at the first character that is not a digit (a syntax
    error) or at the first digit that makes the value exceed 2^64-1 (a range
    error), whichever comes first. */
module StrConv {
  import opened Wrappers

  const MinInt64: int := -0x8000_0000_0000_0000
  const MaxInt64: int := 0x7FFF_FFFF_FFFF_FFFF
  const MaxUint64: int := 0xFFFF_FFFF_FFFF_FFFF

  /** Smallest n such that n * 10 exceeds MaxUint64 (ParseUint's `cutoff`). */
  const Cutoff: int := MaxUint64 / 10 + 1

  /** Go's int64, and Go's int on the 64-bit platforms the server targets. */
  newtype Int64 = x: int | -0x8000_0000_0000_0000 <= x <= 0x7FFF_FFFF_FFFF_FFFF

  datatype NumErrorKind = InvalidSyntax | OutOfRange

  /** strconv.NumError as Atoi reports it: the whole input and the reason. */
  datatype NumError = NumError(num: string, kind: NumErrorKind)

  predicate IsDigit(c: char) {
    '0' <= c <= '9'
  }

  function DigitValue(c: char): nat
    requires IsDigit(c)
  {
    (c as int) - ('0' as int)
  }

  predicate AllDigits(s: string) {
    forall i | 0 <= i < |s| :: IsDigit(s[i])
  }

  predicate InInt64(x: int) {
    MinInt64 <= x <= MaxInt64
  }

  /** The value of a string of decimal digits, most significant digit first. */
  function Value(s: string): nat
    requires AllDigits(s)
  {
    if |s| == 0 then 0 else Value(s[..|s| - 1]) * 10 + DigitValue(s[|s| - 1])
  }

  /** Length of the longest prefix of `s` made of decimal digits. */
  function DigitRun(s: string): (k: nat)
    ensures k <= |s|
    ensures forall i | 0 <= i < k :: IsDigit(s[i])
    ensures k < |s| ==> !IsDigit(s[k])
  {
    if |s| == 0 || !IsDigit(s[0]) then 0
    else 1 + DigitRun(s[1..])
  }

  /** A digit prefix of length `i` lies inside the digit run, and ends it
      when nothing or a non-digit follows. */
  lemma {:induction false} DigitRunFrom(s: string, i: nat)
    requires i <= |s| && AllDigits(s[..i])
    ensures DigitRun(s) >= i
    ensures i == |s| || !IsDigit(s[i]) ==> DigitRun(s) == i
  {
    if i > 0 {
      assert IsDigit(s[..i][0]);
      assert s[1..][..i - 1] == s[..i][1..];
      DigitRunFrom(s[1..], i - 1);
    }
  }

  /** A longer prefix of a digit string never has a smaller value. */
  lemma {:induction false} ValuePrefixLe(t: string, j: nat)
    requires AllDigits(t) && j <= |t|
    ensures AllDigits(t[..j]) && Value(t[..j]) <= Value(t)
  {
    if j == |t| {
      assert t[..j] == t;
    } else {
      var p := t[..|t| - 1];
      ValuePrefixLe(p, j);
      assert p[..j] == t[..j];
    }
  }

  /** The outcome of ParseUint on a non-empty input, stated without the scan:
      a range error when the leading digit run already exceeds 2^64-1, else a
      syntax error when a non-digit follows the run, else the digits' value. */
  function ScanReference(s: string): Result<nat, NumErrorKind> {
    var k := DigitRun(s);
    if Value(s[..k]) > MaxUint64 then Failure(OutOfRange)
    else if k < |s| then Failure(InvalidSyntax)
    else assert s[..k] == s; Success(Value(s))
  }

  /** ParseUint's loop from position `i` with accumulator `n` (the value of
      the digits already read); the check `n >= cutoff` comes before the
      multiplication and `n1 > maxVal` after the addition, as in Go. */
  function Scan(s: string, i: nat, n: nat): (r: Result<nat, NumErrorKind>)
    requires i <= |s|
    requires AllDigits(s[..i]) && n == Value(s[..i]) && n <= MaxUint64
    ensures r == ScanReference(s)
    decreases |s| - i
  {
    if i == |s| then
      assert s[..i] == s;
      DigitRunFrom(s, i);
      Success(n)
    else if !IsDigit(s[i]) then
      DigitRunFrom(s, i);
      Failure(InvalidSyntax)
    else
      var n1 := n * 10 + DigitValue(s[i]);
      assert AllDigits(s[..i + 1]) by {
        assert forall j | 0 <= j < i :: s[..i + 1][j] == s[..i][j];
      }
      assert n1 == Value(s[..i + 1]) by {
        assert s[..i + 1][..i] == s[..i];
      }
      if n >= Cutoff || n1 > MaxUint64 then
        var k := DigitRun(s);
        DigitRunFrom(s, i + 1);
        ValuePrefixLe(s[..k], i + 1);
        assert s[..k][..i + 1] == s[..i + 1];
        Failure(OutOfRange)
      else
        Scan(s, i + 1, n1)
  }

  /** strconv.ParseUint(s, 10, 64): the empty string is a syntax error. */
  function ParseUint(s: string): (r: Result<nat, NumErrorKind>)
    ensures |s| == 0 ==> r == Failure(InvalidSyntax)
    ensures |s| > 0 ==> r == ScanReference(s)
  {
    if |s| == 0 then Failure(InvalidSyntax) else Scan(s, 0, 0)
  }

  /** The input without its one optional leading sign. */
  function Body(s: string): string {
    if |s| > 0 && (s[0] == '+' || s[0] == '-') then s[1..] else s
  }

  predicate Negative(s: string) {
    |s| > 0 && s[0] == '-'
  }

  /** The grammar Atoi accepts: an optional sign, then one or more digits. */
  predicate WellFormed(s: string) {
    |Body(s)| > 0 && AllDigits(Body(s))
  }

  function SignedValue(s: string): int
    requires WellFormed(s)
  {
    if Negative(s) then -(Value(Body(s)) as int) else Value(Body(s))
  }

  /** The inputs Atoi rejects with a range error rather than a syntax error:
      the digit run after the sign exceeds 2^64-1 (ParseUint gave up there),
      or the whole input is well formed but its value is not an int64. */
  predicate RangeFailure(s: string) {
    var b := Body(s);
    Value(b[..DigitRun(b)]) > MaxUint64 || (WellFormed(s) && !InInt64(SignedValue(s)))
  }

  /** strconv.ParseInt(s, 10, 64). A range error from ParseUint leaves
      `un` at 2^64-1, which the signed bound check then rejects again. */
  function ParseInt(s: string): (r: Result<Int64, NumErrorKind>)
    ensures r.Success? <==> WellFormed(s) && InInt64(SignedValue(s))
    ensures r.Success? ==> r.value as int == SignedValue(s)
    ensures r.Failure? ==> (r.error == OutOfRange <==> RangeFailure(s))
  {
    var b := Body(s);
    assert DigitRun(b) == |b| ==> b[..DigitRun(b)] == b;
    if |s| == 0 then Failure(InvalidSyntax)
    else
      var neg := s[0] == '-';
      var u := ParseUint(if s[0] == '+' || s[0] == '-' then s[1..] else s);
      if u.Failure? && u.error == InvalidSyntax then Failure(InvalidSyntax)
      else
        var un := if u.Failure? then MaxUint64 else u.value;
        if !neg && un >= 0x8000_0000_0000_0000 then Failure(OutOfRange)
        else if neg && un > 0x8000_0000_0000_0000 then Failure(OutOfRange)
        else Success((if neg then -un else un) as Int64)
  }

  /** strconv.Atoi(s): succeeds exactly on an optionally signed, non-empty
      run of ASCII digits whose value fits an int64, and then yields that
      value; every error names the whole input. */
  function Atoi(s: string): (r: Result<Int64, NumError>)
    ensures r.Success? <==> WellFormed(s) && InInt64(SignedValue(s))
    ensures r.Success? ==> r.value as int == SignedValue(s)
    ensures r.Failure? ==> r.error.num == s
    ensures r.Failure? ==> (r.error.kind == OutOfRange <==> RangeFailure(s))
  {
    match ParseInt(s)
    case Success(n) => Success(n)
    case Failure(kind) => Failure(NumError(s, kind))
  }

  /** The decimal digits of `k`, without leading zeros. */
  function Digits(k: nat): string
  {
    var d := ['0' + (k % 10) as char];
    if k < 10 then d else Digits(k / 10) + d
  }

  lemma {:induction false} DigitsValue(k: nat)
    ensures |Digits(k)| > 0 && AllDigits(Digits(k)) && Value(Digits(k)) == k
  {
    var s := Digits(k);
    if k >= 10 {
      DigitsValue(k / 10);
      assert s[..|s| - 1] == Digits(k / 10);
    }
  }

  /** strconv.FormatInt(n, 10), the inverse of Atoi on its canonical inputs. */
  function FormatInt(n: Int64): string {
    if n < 0 then "-" + Digits(-(n as int)) else Digits(n as int)
  }

  /** Atoi reads back every int64 that FormatInt writes. */
  lemma AtoiFormatInt(n: Int64)
    ensures Atoi(FormatInt(n)) == Success(n)
  {
    var m := if n < 0 then -(n as int) else n as int;
    DigitsValue(m);
    var s := FormatInt(n);
    assert Body(s) == Digits(m) by {
      assert IsDigit(Digits(m)[0]);
      if n < 0 {
        assert s[1..] == Digits(m);
      }
    }
    assert Negative(s) <==> n < 0 by {
      assert IsDigit(Digits(m)[0]);
    }
  }
}
