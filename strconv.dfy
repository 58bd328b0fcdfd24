/**
 * The two conversions of Go's strconv package the core relies on, for a
 * 64-bit platform: Atoi / ParseInt(s, 10, 64) (an optional sign, then one or
 * more decimal digits, in the int64 range) and Itoa. Go's integer division
 * truncates toward zero, which Dafny's does not; TruncDiv writes it out.
 * ToUint64 and ToInt64 are Go's conversions between int64 and uint64.
 */
module Strconv {
  import opened Wrappers

  const MinInt64: int := -0x8000_0000_0000_0000
  const MaxInt64: int := 0x7fff_ffff_ffff_ffff

  predicate IsInt64(n: int) {
    MinInt64 <= n <= MaxInt64
  }

  /** Go's uint64(x) for a 64-bit int x: negative values wrap around. */
  function ToUint64(x: int): (u: nat)
    ensures u < 0x1_0000_0000_0000_0000
    ensures 0 <= x < 0x1_0000_0000_0000_0000 ==> u == x
    ensures -0x1_0000_0000_0000_0000 <= x < 0 ==> u == x + 0x1_0000_0000_0000_0000
  {
    x % 0x1_0000_0000_0000_0000
  }

  /** Go's int64(u) for a uint64 u: values above MaxInt64 wrap to negatives. */
  function ToInt64(u: nat): (x: int)
    requires u < 0x1_0000_0000_0000_0000
    ensures IsInt64(x)
    ensures u <= MaxInt64 ==> x == u
    ensures u > MaxInt64 ==> x == u - 0x1_0000_0000_0000_0000
  {
    if u <= MaxInt64 then u else u - 0x1_0000_0000_0000_0000
  }

  /** The two conversions are inverse bijections between int64 and uint64. */
  lemma ConversionsInverse(x: int, u: nat)
    requires IsInt64(x) && u < 0x1_0000_0000_0000_0000
    ensures ToInt64(ToUint64(x)) == x
    ensures ToUint64(ToInt64(u)) == u
  {
  }

  predicate IsDigit(c: char) {
    '0' <= c <= '9'
  }

  predicate AllDigits(s: string) {
    forall i :: 0 <= i < |s| ==> IsDigit(s[i])
  }

  function DigitValue(c: char): nat
    requires IsDigit(c)
  {
    c as int - '0' as int
  }

  function DigitChar(d: nat): (c: char)
    requires d < 10
    ensures IsDigit(c) && DigitValue(c) == d
  {
    ('0' as int + d) as char
  }

  /** The number a string of decimal digits denotes, most significant first. */
  function DigitsValue(s: string): nat
    requires AllDigits(s)
  {
    if s == [] then 0 else DigitsValue(s[..|s| - 1]) * 10 + DigitValue(s[|s| - 1])
  }

  /** The unsigned part of a numeral: what follows an optional leading sign. */
  function Magnitude(s: string): string {
    if |s| > 0 && (s[0] == '-' || s[0] == '+') then s[1..] else s
  }

  predicate Negative(s: string) {
    |s| > 0 && s[0] == '-'
  }

  /** A numeral Go accepts in base 10 before the range check. */
  predicate WellFormed(s: string) {
    |Magnitude(s)| > 0 && AllDigits(Magnitude(s))
  }

  /** The number a well-formed numeral denotes, sign included. */
  function SignedValue(s: string): int
    requires WellFormed(s)
  {
    if Negative(s) then 0 - DigitsValue(Magnitude(s)) else DigitsValue(Magnitude(s))
  }

  /**
   * strconv.Atoi and strconv.ParseInt(s, 10, 64): None stands for the syntax
   * error and for the range error, where Go returns an error.
   */
  function ParseInt(s: string): (r: Option<int>)
    ensures r.Some? <==> WellFormed(s) && IsInt64(SignedValue(s))
    ensures r.Some? ==> r.value == SignedValue(s) && IsInt64(r.value) && (r.value < 0 ==> Negative(s))
  {
    var body := Magnitude(s);
    if |body| == 0 || !AllDigits(body) then None
    else
      var v: int := if Negative(s) then 0 - DigitsValue(body) else DigitsValue(body);
      if IsInt64(v) then Some(v) else None
  }

  /** The shortest decimal numeral of a natural number. */
  function Digits(n: nat): (s: string)
    ensures |s| > 0 && AllDigits(s) && DigitsValue(s) == n
    ensures |s| > 1 ==> s[0] != '0'
  {
    if n < 10 then [DigitChar(n)]
    else
      var s := Digits(n / 10) + [DigitChar(n % 10)];
      assert s[..|s| - 1] == Digits(n / 10);
      s
  }

  /** strconv.Itoa. */
  function Itoa(n: int): (s: string)
    ensures |s| > 0
    ensures s[0] == '-' <==> n < 0
  {
    if n < 0 then "-" + Digits(-n) else Digits(n)
  }

  /** ParseInt reads back every int64 that Itoa writes. */
  lemma {:induction false} ParseItoa(n: int)
    requires IsInt64(n)
    ensures ParseInt(Itoa(n)) == Some(n)
  {
    var s := Itoa(n);
    if n < 0 {
      assert Magnitude(s) == Digits(-n);
    } else {
      assert Magnitude(s) == Digits(n);
    }
  }

  /**
   * Itoa writes back exactly the numerals ParseInt accepts that have no '+'
   * and no leading zero, where zero itself is written only as "0" ("-0" and
   * "00" parse to 0 but are not written back).
   */
  lemma {:induction false} ItoaParse(s: string)
    requires ParseInt(s).Some?
    ensures Itoa(ParseInt(s).value) == s
      <==> s[0] != '+' && (if ParseInt(s).value == 0 then s == "0" else Magnitude(s)[0] != '0')
  {
    var v := ParseInt(s).value;
    var body := Magnitude(s);
    if v == 0 {
      assert Itoa(v) == "0";
    } else if s[0] != '+' && body[0] != '0' {
      CanonicalDigits(body);
      if v < 0 {
        assert s == "-" + body;
      } else {
        assert s == body;
      }
    }
    if v != 0 && Itoa(v) == s {
      if v < 0 {
        assert body == Digits(-v);
      } else {
        assert body == Digits(v);
      }
    }
  }

  /** A digit string without a leading zero is the numeral Digits writes for its value. */
  lemma {:induction false} CanonicalDigits(s: string)
    requires |s| > 0 && AllDigits(s) && (|s| > 1 ==> s[0] != '0')
    ensures Digits(DigitsValue(s)) == s
    decreases |s|
  {
    if |s| > 1 {
      var p := s[..|s| - 1];
      assert AllDigits(p);
      LeadingDigitPositive(p);
      CanonicalDigits(p);
      assert DigitsValue(s) / 10 == DigitsValue(p);
      assert DigitsValue(s) % 10 == DigitValue(s[|s| - 1]);
      assert s == p + [s[|s| - 1]];
    } else {
      assert DigitsValue(s) == DigitValue(s[0]) by {
        assert s[..0] == [];
      }
    }
  }

  /** A digit string that does not start with zero denotes a positive number. */
  lemma {:induction false} LeadingDigitPositive(s: string)
    requires |s| > 0 && AllDigits(s) && s[0] != '0'
    ensures DigitsValue(s) > 0
    decreases |s|
  {
    if |s| > 1 {
      LeadingDigitPositive(s[..|s| - 1]);
    } else {
      assert s[..0] == [];
    }
  }

  /** Go's `a / b` for int64 and b > 0: truncates toward zero. */
  function TruncDiv(a: int, b: int): (q: int)
    requires b > 0
    ensures a >= 0 ==> 0 <= q * b <= a < q * b + b
    ensures a < 0 ==> q * b - b < a <= q * b <= 0
  {
    if a >= 0 then
      FloorDivBounds(a, b);
      a / b
    else
      FloorDivBounds(-a, b);
      -((-a) / b)
  }

  lemma FloorDivBounds(a: nat, b: int)
    requires b > 0
    ensures 0 <= (a / b) * b <= a < (a / b) * b + b
    ensures (-(a / b)) * b == -((a / b) * b)
  {
  }

  /** Appending a digit to a positive number's numeral appends its character. */
  lemma DigitsSnoc(n: nat, d: nat)
    requires n > 0 && d < 10
    ensures Digits(10 * n + d) == Digits(n) + [DigitChar(d)]
  {
    assert (10 * n + d) / 10 == n && (10 * n + d) % 10 == d;
  }

  /** The first five digits of the journal timestamp in record_test.go. */
  lemma TimestampHead()
    ensures Digits(14804) == "14804"
  {
    assert Digits(1) == "1";
    DigitsSnoc(1, 4);
    DigitsSnoc(14, 8);
    DigitsSnoc(148, 0);
    DigitsSnoc(1480, 4);
  }

  /** Its first ten digits. */
  lemma TimestampMiddle()
    ensures Digits(1480459022) == "1480459022"
  {
    TimestampHead();
    DigitsSnoc(14804, 5);
    DigitsSnoc(148045, 9);
    DigitsSnoc(1480459, 0);
    DigitsSnoc(14804590, 2);
    DigitsSnoc(148045902, 2);
  }

  /** Its first thirteen digits. */
  lemma TimestampMillis()
    ensures Digits(1480459022025) == "1480459022025"
  {
    TimestampMiddle();
    DigitsSnoc(1480459022, 0);
    assert Digits(14804590220) == "14804590220";
    DigitsSnoc(14804590220, 2);
    assert Digits(148045902202) == "148045902202";
    DigitsSnoc(148045902202, 5);
  }

  /** Its first fifteen digits. */
  lemma TimestampTail()
    ensures Digits(148045902202595) == "148045902202595"
  {
    TimestampMillis();
    DigitsSnoc(1480459022025, 9);
    assert Digits(14804590220259) == "14804590220259";
    DigitsSnoc(14804590220259, 5);
  }

  /** Itoa of the journal timestamp in record_test.go, built up digit by digit. */
  lemma TimestampNumeral()
    ensures Itoa(1480459022025952) == "1480459022025952"
  {
    TimestampTail();
    DigitsSnoc(148045902202595, 2);
  }
}
