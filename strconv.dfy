/** Go's decimal integer text: `%d` formatting, strconv.Atoi, and the int32
    conversion `train` applies to the parsed ID (api.go:87, 134, 138).

    Go's `int` is 64 bits wide here, so Atoi reports a range error outside
    [MinInt64, MaxInt64]; `int32(x)` keeps the low 32 bits of x. */
module Strconv {
  import opened Errors

  const MaxInt64: int := 0x7FFF_FFFF_FFFF_FFFF
  const MinInt64: int := -0x8000_0000_0000_0000
  const MaxUint64: int := 0xFFFF_FFFF_FFFF_FFFF

  newtype int32 = x: int | -0x8000_0000 <= x < 0x8000_0000

  predicate IsDigit(c: char) {
    '0' <= c <= '9'
  }

  predicate AllDigits(s: string) {
    forall i :: 0 <= i < |s| ==> IsDigit(s[i])
  }

  function DigitChar(d: nat): (c: char)
    requires d < 10
    ensures IsDigit(c) && c as int - '0' as int == d
  {
    ('0' as int + d) as char
  }

  /** The decimal digits of n, most significant first, without leading zeros. */
  function Decimal(n: nat): (r: string)
    ensures r != [] && AllDigits(r)
    ensures r[0] == '0' ==> n == 0 && r == "0"
    decreases n
  {
    if n < 10 then [DigitChar(n)] else Decimal(n / 10) + [DigitChar(n % 10)]
  }

  /** fmt's `%d` (and strconv.FormatInt base 10): a '-' before the digits of a
      negative number, no sign otherwise. */
  function FormatInt(x: int): (r: string)
    ensures r != [] && (x >= 0 ==> AllDigits(r))
    ensures x < 0 <==> r[0] == '-'
  {
    if x < 0 then "-" + Decimal(-x) else Decimal(x)
  }

  /** The part of a number after its optional sign. */
  function Unsigned(s: string): (r: string)
    requires s != []
  {
    if s[0] == '+' || s[0] == '-' then s[1..] else s
  }

  /** Atoi's accepted syntax: an optional sign, then at least one digit. */
  predicate IntSyntax(s: string) {
    s != [] && Unsigned(s) != [] && AllDigits(Unsigned(s))
  }

  /** The number the digits of s spell when written after the digits of acc. */
  function DigitsFrom(acc: nat, s: string): (v: nat)
    requires AllDigits(s)
    ensures v >= acc
    decreases |s|
  {
    if s == [] then acc else DigitsFrom(acc * 10 + (s[0] as int - '0' as int), s[1..])
  }

  /** The number a string of decimal digits spells. */
  function DigitsValue(s: string): (v: nat)
    requires AllDigits(s)
  {
    DigitsFrom(0, s)
  }

  /** The value of text in Atoi's syntax: the number its digits spell,
      negated after a '-'. */
  function IntValue(s: string): (v: int)
    requires IntSyntax(s)
  {
    if s[0] == '-' then -(DigitsValue(Unsigned(s)) as int) else DigitsValue(Unsigned(s))
  }

  /** strconv.ParseUint's digit loop in base 10 with 64-bit width: digits are read
      left to right into acc; a non-digit is a syntax error and a value that
      would pass MaxUint64 is a range error, whichever comes first. On digits
      alone it yields the number they spell, or a range error when that number
      does not fit in 64 bits. */
  function ScanUint(s: string, acc: nat): (r: Result<nat, NumErrorKind>)
    requires acc <= MaxUint64
    ensures r.Success? ==> AllDigits(s) && r.value <= MaxUint64
    ensures AllDigits(s) ==>
              r == if DigitsFrom(acc, s) <= MaxUint64 then Success(DigitsFrom(acc, s)) else Failure(ErrRange)
    decreases |s|
  {
    if s == [] then Success(acc)
    else if !IsDigit(s[0]) then Failure(ErrSyntax)
    else
      var n := acc * 10 + (s[0] as int - '0' as int);
      if n > MaxUint64 then Failure(ErrRange) else ScanUint(s[1..], n)
  }

  /** strconv.Atoi for a 64-bit int. Well-formed text yields its value when that
      fits in 64 bits and a range error otherwise; every failure is a NumError
      naming "Atoi" and the whole input. */
  function Atoi(s: string): (r: Result<int, Error>)
    ensures IntSyntax(s) && MinInt64 <= IntValue(s) <= MaxInt64 ==> r == Success(IntValue(s))
    ensures IntSyntax(s) && !(MinInt64 <= IntValue(s) <= MaxInt64) ==> r == Failure(NumError("Atoi", s, ErrRange))
    ensures !IntSyntax(s) ==> r.Failure?
    ensures r.Failure? ==> r.error.NumError? && r.error.fn == "Atoi" && r.error.num == s
  {
    if s == [] then Failure(NumError("Atoi", s, ErrSyntax))
    else
      var neg := s[0] == '-';
      var body := Unsigned(s);
      if body == [] then Failure(NumError("Atoi", s, ErrSyntax))
      else
        match ScanUint(body, 0)
        case Failure(kind) => Failure(NumError("Atoi", s, kind))
        case Success(u) =>
          if !neg && u > MaxInt64 then Failure(NumError("Atoi", s, ErrRange))
          else if neg && u > -MinInt64 then Failure(NumError("Atoi", s, ErrRange))
          else
            var v: int := if neg then -(u as int) else u as int;
            Success(v)
  }

  /** Go's conversion int32(x): the value of x's low 32 bits read as two's
      complement. */
  function ToInt32(x: int): (r: int32)
    ensures (r as int - x) % 0x1_0000_0000 == 0
    ensures r as int == x <==> -0x8000_0000 <= x < 0x8000_0000
  {
    ((x + 0x8000_0000) % 0x1_0000_0000 - 0x8000_0000) as int32
  }

  /** Positional meaning of the digits: one more digit at the end multiplies
      the number by ten and adds that digit. */
  lemma {:induction false} DigitsFromSnoc(acc: nat, s: string, c: char)
    requires AllDigits(s) && IsDigit(c)
    ensures AllDigits(s + [c])
    ensures DigitsFrom(acc, s + [c]) == DigitsFrom(acc, s) * 10 + (c as int - '0' as int)
    decreases |s|
  {
    assert forall i :: 0 <= i < |s + [c]| ==> (s + [c])[i] == if i < |s| then s[i] else c;
    if s == [] {
      assert [c][1..] == [];
    } else {
      assert (s + [c])[1..] == s[1..] + [c];
      DigitsFromSnoc(acc * 10 + (s[0] as int - '0' as int), s[1..], c);
    }
  }

  /** The digits Decimal writes spell the number it was given. */
  lemma {:induction false} DecimalValue(n: nat)
    ensures DigitsValue(Decimal(n)) == n
    decreases n
  {
    if n < 10 {
      assert Decimal(n)[1..] == [];
      assert DigitsFrom(0, Decimal(n)) == DigitsFrom(n, []);
    } else {
      DecimalValue(n / 10);
      DigitsFromSnoc(0, Decimal(n / 10), DigitChar(n % 10));
    }
  }

  /** Text with a non-digit at p after the digits s[..p]: the scan stops with a
      range error if those digits already pass MaxUint64, and with a syntax
      error at the non-digit otherwise. */
  lemma {:induction false} ScanUintMalformed(s: string, acc: nat, p: nat)
    requires acc <= MaxUint64
    requires p < |s| && !IsDigit(s[p]) && AllDigits(s[..p])
    ensures ScanUint(s, acc) == if DigitsFrom(acc, s[..p]) <= MaxUint64 then Failure(ErrSyntax) else Failure(ErrRange)
    decreases p
  {
    if p == 0 {
      assert s[..p] == [];
    } else {
      assert s[..p][0] == s[0];
      var n := acc * 10 + (s[0] as int - '0' as int);
      assert s[..p][1..] == s[1..][..p - 1];
      if n <= MaxUint64 {
        ScanUintMalformed(s[1..], n, p - 1);
      }
    }
  }

  /** Atoi on a signed or unsigned number whose digits stop at a non-digit:
      a range error when the digits before it already pass MaxUint64, a
      syntax error otherwise. */
  lemma AtoiMalformed(s: string, p: nat)
    requires s != [] && p < |Unsigned(s)| && !IsDigit(Unsigned(s)[p]) && AllDigits(Unsigned(s)[..p])
    ensures Atoi(s) == Failure(NumError("Atoi", s, if DigitsValue(Unsigned(s)[..p]) <= MaxUint64 then ErrSyntax else ErrRange))
  {
    ScanUintMalformed(Unsigned(s), 0, p);
  }

  /** Atoi on empty text, or on a lone sign, is a syntax error. */
  lemma AtoiNoDigits(s: string)
    requires s == [] || Unsigned(s) == []
    ensures Atoi(s) == Failure(NumError("Atoi", s, ErrSyntax))
  {
  }

  /** Round trip: Atoi reads back every 64-bit int that `%d` prints, negative
      ones included. */
  lemma AtoiFormatInt(x: int)
    requires MinInt64 <= x <= MaxInt64
    ensures Atoi(FormatInt(x)) == Success(x)
  {
    if x < 0 {
      var s := FormatInt(x);
      assert Unsigned(s) == Decimal(-x);
      DecimalValue(-x);
    } else {
      DecimalValue(x);
    }
  }

  /** `%d` writes different text for different numbers. */
  lemma FormatIntInjective(x: int, y: int)
    requires MinInt64 <= x <= MaxInt64 && MinInt64 <= y <= MaxInt64
    requires FormatInt(x) == FormatInt(y)
    ensures x == y
  {
    AtoiFormatInt(x);
    AtoiFormatInt(y);
  }
}
