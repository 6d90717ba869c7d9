/**
 The values that travel through the sync: the scalars the messaging platform
 sends, the JSON values of the rows handed to the warehouse loader, and
 Python's `str()` on the scalars.
 */
module Values {

  /** A JSON value of an output row; `Null` is Python's `None`. */
  datatype Value = Null | Bool(b: bool) | Int(i: int) | Str(s: string) | List(items: seq<Value>)

  /** The values a contact field or a flow result can hold: everything but a list. */
  type Scalar = v: Value | !v.List? witness Null

  /** One flattened record, as a dictionary from column name to value. */
  type Row = map<string, Value>

  predicate IsDigit(c: char) {
    '0' <= c <= '9'
  }

  predicate AllDigits(s: string) {
    forall i :: 0 <= i < |s| ==> IsDigit(s[i])
  }

  /** A non-empty run of decimal digits. */
  predicate IsDecimal(s: string) {
    |s| >= 1 && AllDigits(s)
  }

  /** An int literal: digits, with a leading '-' for a negative number. */
  predicate IsIntLiteral(s: string) {
    IsDecimal(s) || (|s| >= 2 && s[0] == '-' && IsDecimal(s[1..]))
  }

  /** A run of digits with no leading zero, the only such run being "0" itself. */
  predicate IsCanonicalDecimal(s: string) {
    IsDecimal(s) && (s[0] == '0' ==> s == "0")
  }

  /** The text Python prints for an int: canonical digits, after a '-' for a negative number. */
  predicate IsCanonicalInt(s: string) {
    IsCanonicalDecimal(s) || (|s| >= 2 && s[0] == '-' && IsCanonicalDecimal(s[1..]) && s[1] != '0')
  }

  function DigitChar(d: nat): char
    requires d < 10
  {
    (48 + d) as char
  }

  function DigitValue(c: char): nat
    requires IsDigit(c)
  {
    c as int - 48
  }

  /** Decimal rendering of a natural number, most significant digit first, with no leading zero. */
  function NatToDecimal(n: nat): (s: string)
    ensures IsCanonicalDecimal(s)
    ensures s[0] == '0' <==> n == 0
    decreases n
  {
    if n < 10 then [DigitChar(n)] else NatToDecimal(n / 10) + [DigitChar(n % 10)]
  }

  /** The number a run of digits denotes. */
  function DecimalValue(s: string): nat
    requires AllDigits(s)
    decreases |s|
  {
    if |s| == 0 then 0 else DecimalValue(s[..|s| - 1]) * 10 + DigitValue(s[|s| - 1])
  }

  lemma {:induction false} DecimalRoundTrip(n: nat)
    ensures DecimalValue(NatToDecimal(n)) == n
    decreases n
  {
    if n >= 10 {
      var s := NatToDecimal(n);
      assert s[..|s| - 1] == NatToDecimal(n / 10);
      DecimalRoundTrip(n / 10);
    }
  }

  /** A canonical run of digits is the rendering of the number it denotes. */
  lemma {:induction false} CanonicalDecimalUnique(s: string)
    requires IsCanonicalDecimal(s)
    ensures NatToDecimal(DecimalValue(s)) == s
    decreases |s|
  {
    if |s| == 1 {
      assert DecimalValue(s) == DigitValue(s[0]);
    } else {
      var p := s[..|s| - 1];
      assert p[0] == s[0];
      LeadingDigitPositive(p);
      CanonicalDecimalUnique(p);
      var n := DecimalValue(s);
      assert n == DecimalValue(p) * 10 + DigitValue(s[|s| - 1]);
      assert n / 10 == DecimalValue(p) && n % 10 == DigitValue(s[|s| - 1]);
      assert DigitChar(n % 10) == s[|s| - 1];
      assert s == p + [s[|s| - 1]];
    }
  }

  /** Digits that do not start with '0' denote a positive number. */
  lemma {:induction false} LeadingDigitPositive(s: string)
    requires IsDecimal(s) && s[0] != '0'
    ensures DecimalValue(s) >= 1
    decreases |s|
  {
    if |s| > 1 {
      var p := s[..|s| - 1];
      assert p[0] == s[0];
      LeadingDigitPositive(p);
    }
  }

  /** Python's `str()` on an int. */
  function IntToDecimal(i: int): (s: string)
    ensures IsIntLiteral(s) && IsCanonicalInt(s)
    ensures s[0] == '-' <==> i < 0
  {
    if i < 0 then
      var digits := NatToDecimal(-i);
      assert ("-" + digits)[1..] == digits;
      "-" + digits
    else NatToDecimal(i)
  }

  /** Reads back the int that an int literal denotes. */
  function ParseInt(s: string): int
    requires IsIntLiteral(s)
  {
    if IsDecimal(s) then DecimalValue(s) as int else -(DecimalValue(s[1..]) as int)
  }

  lemma IntRoundTrip(i: int)
    ensures ParseInt(IntToDecimal(i)) == i
  {
    var s := IntToDecimal(i);
    if i < 0 {
      assert !IsDigit(s[0]);
      assert s[1..] == NatToDecimal(-i);
      DecimalRoundTrip(-i);
    } else {
      DecimalRoundTrip(i);
    }
  }

  /** The canonical text of an int is the only canonical int literal that reads back as that int. */
  lemma CanonicalIntUnique(i: int, s: string)
    requires IsCanonicalInt(s)
    ensures IsIntLiteral(s)
    ensures ParseInt(s) == i <==> s == IntToDecimal(i)
  {
    IntRoundTrip(i);
    if IsCanonicalDecimal(s) {
      CanonicalDecimalUnique(s);
      assert IntToDecimal(DecimalValue(s) as int) == s;
    } else {
      var digits := s[1..];
      CanonicalDecimalUnique(digits);
      LeadingDigitPositive(digits);
      assert "-" + digits == s;
      assert IntToDecimal(-(DecimalValue(digits) as int)) == s;
    }
  }

  /**
   Python's `str()` on a scalar: a string is kept verbatim and an int is
   rendered in canonical decimal, so that it reads back as the same int.
   */
  function PyStr(v: Scalar): (s: string)
    ensures v.Str? ==> s == v.s
    ensures v.Int? ==> IsCanonicalInt(s) && IsIntLiteral(s) && ParseInt(s) == v.i
  {
    if v.Null? then "None"
    else if v.Bool? then (if v.b then "True" else "False")
    else if v.Int? then IntRoundTrip(v.i); IntToDecimal(v.i)
    else v.s
  }

  /** Among the canonical int literals, `str()` of an int is exactly the one that reads back as it. */
  lemma PyStrIntUnique(i: int, s: string)
    requires IsCanonicalInt(s)
    ensures IsIntLiteral(s)
    ensures ParseInt(s) == i <==> s == PyStr(Int(i))
  {
    CanonicalIntUnique(i, s);
  }
}
