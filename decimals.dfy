/**
 * Python's `decimal.Decimal` as exact rationals: `quantize` under the default
 * round-half-even rule, the string constructor `Decimal(s)` for the plain
 * numerals the devices send, `f"{n}"` for integers, and the run-time type
 * test every unit-converting setter of the integration performs.
 */
module Decimals {
  import opened Wrappers

  /** Rounds to the nearest integer; a tie goes to the even neighbour. */
  function RoundHalfEven(x: real): (n: int)
    ensures -0.5 <= n as real - x <= 0.5
    ensures (n as real - x == 0.5 || x - n as real == 0.5) ==> n % 2 == 0
  {
    var f := x.Floor;
    var frac := x - f as real;
    if frac < 0.5 then f
    else if frac > 0.5 then f + 1
    else if f % 2 == 0 then f else f + 1
  }

  /** The two properties in RoundHalfEven's contract determine its result. */
  lemma RoundHalfEvenUnique(x: real, m: int)
    requires -0.5 <= m as real - x <= 0.5
    requires (m as real - x == 0.5 || x - m as real == 0.5) ==> m % 2 == 0
    ensures m == RoundHalfEven(x)
  {
  }

  lemma RoundHalfEvenMonotone(x: real, y: real)
    requires x <= y
    ensures RoundHalfEven(x) <= RoundHalfEven(y)
  {
    if x == y {
    } else {
      assert RoundHalfEven(x) as real <= x + 0.5 && y - 0.5 <= RoundHalfEven(y) as real;
    }
  }

  /** The step of a `quantize` call: Decimal("1.0"), Decimal("0.01") or Decimal("1.000"). */
  datatype Quantum = Tenth | Hundredth | Thousandth

  /** `x` counted in steps `q`: ten, a hundred or a thousand to the unit. */
  function InSteps(x: real, q: Quantum): real
  {
    match q
    case Tenth => x * 10.0
    case Hundredth => x * 100.0
    case Thousandth => x * 1000.0
  }

  /** A count of steps `q` as a value. */
  function FromSteps(n: real, q: Quantum): (x: real)
    ensures InSteps(x, q) == n
  {
    match q
    case Tenth => n / 10.0
    case Hundredth => n / 100.0
    case Thousandth => n / 1000.0
  }

  /** Counting in steps is linear, keeps order both ways round, and `FromSteps` undoes it. */
  lemma InStepsLinear(x: real, y: real, q: Quantum)
    ensures InSteps(x - y, q) == InSteps(x, q) - InSteps(y, q)
    ensures x <= y ==> InSteps(x, q) <= InSteps(y, q)
    ensures x <= y ==> FromSteps(x, q) <= FromSteps(y, q)
    ensures FromSteps(InSteps(x, q), q) == x
  {
    match q
    case Tenth =>
    case Hundredth =>
    case Thousandth =>
  }

  /** `x` is a whole number of steps `q`. */
  predicate OnGrid(x: real, q: Quantum)
  {
    InSteps(x, q).Floor as real == InSteps(x, q)
  }

  /** The number of whole steps `q` that `x` rounds to. */
  function Steps(x: real, q: Quantum): (n: int)
    ensures -0.5 <= n as real - InSteps(x, q) <= 0.5
  {
    RoundHalfEven(InSteps(x, q))
  }

  /** More never rounds to fewer steps. */
  lemma StepsMonotone(x: real, y: real, q: Quantum)
    requires x <= y
    ensures Steps(x, q) <= Steps(y, q)
  {
    InStepsLinear(x, y, q);
    RoundHalfEvenMonotone(InSteps(x, q), InSteps(y, q));
  }

  /** `x.quantize(q)`: the nearest multiple of the step, a tie going to the even multiple. */
  function Quantize(x: real, q: Quantum): (r: real)
    ensures OnGrid(r, q)
    ensures -0.5 <= InSteps(r, q) - InSteps(x, q) <= 0.5
  {
    FromSteps(Steps(x, q) as real, q)
  }

  /** A value already on the grid is left as it is. */
  lemma QuantizeOnGrid(x: real, q: Quantum)
    requires OnGrid(x, q)
    ensures Quantize(x, q) == x
  {
    var k := InSteps(x, q).Floor;
    RoundHalfEvenUnique(InSteps(x, q), k);
    InStepsLinear(x, x, q);
  }

  /** Quantizing twice is quantizing once. */
  lemma QuantizeIdempotent(x: real, q: Quantum)
    ensures Quantize(Quantize(x, q), q) == Quantize(x, q)
  {
    QuantizeOnGrid(Quantize(x, q), q);
  }

  /** A larger value never quantizes to a smaller one. */
  lemma QuantizeMonotone(x: real, y: real, q: Quantum)
    requires x <= y
    ensures Quantize(x, q) <= Quantize(y, q)
  {
    StepsMonotone(x, y, q);
    InStepsLinear(Steps(x, q) as real, Steps(y, q) as real, q);
  }

  /** A value below a grid point never quantizes above it. */
  lemma QuantizeBelow(x: real, c: real, q: Quantum)
    requires x <= c && OnGrid(c, q)
    ensures Quantize(x, q) <= c
  {
    QuantizeMonotone(x, c, q);
    QuantizeOnGrid(c, q);
  }

  lemma QuantizeZero(q: Quantum)
    ensures Quantize(0.0, q) == 0.0
  {
    QuantizeOnGrid(0.0, q);
  }

  /** Rounding never crosses zero: the result has the sign of the input or is zero. */
  lemma QuantizeSign(x: real, q: Quantum)
    ensures x >= 0.0 ==> Quantize(x, q) >= 0.0
    ensures x <= 0.0 ==> Quantize(x, q) <= 0.0
  {
    QuantizeZero(q);
    if x >= 0.0 {
      QuantizeMonotone(0.0, x, q);
    } else {
      QuantizeMonotone(x, 0.0, q);
    }
  }

  /** Half a step: the most `quantize` moves a value. */
  function HalfStep(q: Quantum): (h: real)
    ensures InSteps(h, q) == 0.5
  {
    match q
    case Tenth => 0.05
    case Hundredth => 0.005
    case Thousandth => 0.0005
  }

  /** Rounding moves a value by at most half a step. */
  lemma QuantizeError(x: real, q: Quantum)
    ensures -HalfStep(q) <= Quantize(x, q) - x <= HalfStep(q)
  {
    var d := Quantize(x, q) - x;
    InStepsLinear(Quantize(x, q), x, q);
    assert -0.5 <= InSteps(d, q) <= 0.5;
    match q
    case Tenth =>
    case Hundredth =>
    case Thousandth =>
  }

  /** A whole number of thousandths stays what it is under `quantize(Decimal("1.000"))`. */
  lemma QuantizeThousandths(k: int)
    ensures Quantize(k as real * 0.001, Thousandth) == k as real * 0.001
  {
    assert k as real * 0.001 * 1000.0 == k as real;
    QuantizeOnGrid(k as real * 0.001, Thousandth);
  }

  // ---------------------------------------------------------------------------
  // Numerals

  predicate IsDigit(c: char) { '0' <= c <= '9' }

  predicate AllDigits(s: string) { forall i | 0 <= i < |s| :: IsDigit(s[i]) }

  function DigitValue(c: char): (d: nat)
    requires IsDigit(c)
    ensures d < 10
  {
    (c as int) - ('0' as int)
  }

  function DigitChar(d: nat): (c: char)
    requires d < 10
    ensures IsDigit(c) && DigitValue(c) == d
  {
    (('0' as int) + d) as char
  }

  /** The value of a string of decimal digits, most significant digit first. */
  function DigitsValue(s: string): nat
    requires AllDigits(s)
  {
    if s == [] then 0 else DigitsValue(s[..|s| - 1]) * 10 + DigitValue(s[|s| - 1])
  }

  function Pow10(k: nat): (r: nat)
    ensures r > 0
  {
    if k == 0 then 1 else 10 * Pow10(k - 1)
  }

  /** `f"{n}"` for a natural number: its shortest decimal numeral. */
  function NatToString(n: nat): (r: string)
    ensures |r| > 0 && AllDigits(r) && DigitsValue(r) == n
    ensures r[0] == '0' ==> n == 0
  {
    if n < 10 then [DigitChar(n)]
    else
      var prefix := NatToString(n / 10);
      var r := prefix + [DigitChar(n % 10)];
      assert r[..|r| - 1] == prefix;
      r
  }

  /** `f"{n}"` for an integer: a minus sign before the numeral of a negative number. */
  function IntToString(n: int): (r: string)
    ensures |r| > 0
  {
    if n < 0 then "-" + NatToString(-n) else NatToString(n)
  }

  predicate IsSpace(c: char)
  {
    c == ' ' || c == '\t' || c == '\n' || c == '\r' || c == '\U{B}' || c == '\U{C}'
  }

  function StripLeft(s: string): (r: string)
    ensures |r| <= |s| && r == s[|s| - |r|..]
    ensures |r| > 0 ==> !IsSpace(r[0])
  {
    if |s| > 0 && IsSpace(s[0]) then StripLeft(s[1..]) else s
  }

  function StripRight(s: string): (r: string)
    ensures |r| <= |s| && r == s[..|r|]
    ensures |r| > 0 ==> !IsSpace(r[|r| - 1])
  {
    if |s| > 0 && IsSpace(s[|s| - 1]) then StripRight(s[..|s| - 1]) else s
  }

  /** Python's `str.strip()` for ASCII whitespace. */
  function Strip(s: string): (r: string)
    ensures |r| <= |s|
    ensures |r| > 0 ==> !IsSpace(r[0]) && !IsSpace(r[|r| - 1])
  {
    StripRight(StripLeft(s))
  }

  /** The length of the run of digits that starts `t`. */
  function DigitRun(t: string): (k: nat)
    ensures k <= |t| && AllDigits(t[..k])
    ensures k < |t| ==> !IsDigit(t[k])
  {
    if |t| > 0 && IsDigit(t[0]) then
      var k := 1 + DigitRun(t[1..]);
      assert t[..k] == [t[0]] + t[1..][..k - 1];
      k
    else 0
  }

  /** An unsigned numeral: digits, optionally a point and more digits, at least one digit in all. */
  function ParseUnsigned(t: string): (r: Option<real>)
    ensures r.Some? ==> r.value >= 0.0
  {
    var k := DigitRun(t);
    if k == |t| then
      if k > 0 then Some(DigitsValue(t) as real) else None
    else if t[k] == '.' && AllDigits(t[k + 1..]) && (k > 0 || k + 1 < |t|) then
      var whole, fraction := DigitsValue(t[..k]) as real, DigitsValue(t[k + 1..]) as real / Pow10(|t| - k - 1) as real;
      assert fraction >= 0.0;
      Some(whole + fraction)
    else None
  }

  function Negated(r: Option<real>): Option<real>
  {
    match r
    case None => None
    case Some(x) => Some(-x)
  }

  /**
   * `Decimal(s)`: surrounding whitespace is ignored and an optional sign may
   * precede an unsigned numeral; `None` stands for the InvalidOperation that
   * Python raises.
   */
  function ParseDecimal(s: string): (r: Option<real>)
    ensures Strip(s) == "" ==> r.None?
    ensures r.Some? && Strip(s)[0] == '-' ==> r.value <= 0.0
    ensures r.Some? && Strip(s)[0] != '-' ==> r.value >= 0.0
  {
    var t := Strip(s);
    if |t| > 0 && t[0] == '-' then Negated(ParseUnsigned(t[1..]))
    else if |t| > 0 && t[0] == '+' then ParseUnsigned(t[1..])
    else ParseUnsigned(t)
  }

  lemma {:induction false} DigitRunOfDigits(t: string)
    requires AllDigits(t)
    ensures DigitRun(t) == |t|
  {
    if |t| > 0 {
      DigitRunOfDigits(t[1..]);
    }
  }

  lemma StripClean(s: string)
    requires |s| > 0 && !IsSpace(s[0]) && !IsSpace(s[|s| - 1])
    ensures Strip(s) == s
  {
  }

  /** The digits of a natural number parse back to it as an unsigned numeral. */
  lemma ParseNatToString(m: nat)
    ensures ParseUnsigned(NatToString(m)) == Some(m as real)
  {
    DigitRunOfDigits(NatToString(m));
  }

  /** A written integer neither starts nor ends with whitespace, and starts with a sign only when negative. */
  lemma IntToStringEdges(n: int)
    ensures var s := IntToString(n); !IsSpace(s[0]) && !IsSpace(s[|s| - 1])
    ensures var s := IntToString(n); n >= 0 ==> IsDigit(s[0])
    ensures var s := IntToString(n); n < 0 ==> s[0] == '-' && s[1..] == NatToString(-n)
  {
    var digits := NatToString(if n < 0 then -n else n);
    assert IsDigit(digits[0]) && IsDigit(digits[|digits| - 1]);
    if n < 0 {
      assert IntToString(n)[1..] == digits;
    }
  }

  /** `Decimal(f"{n}") == n`: every integer numeral the integration writes parses back to its value. */
  lemma ParseIntToString(n: int)
    ensures ParseDecimal(IntToString(n)) == Some(n as real)
  {
    var s := IntToString(n);
    IntToStringEdges(n);
    StripClean(s);
    if n < 0 {
      ParseNatToString(-n);
    } else {
      ParseNatToString(n);
    }
  }

  /** Distinct integers are written differently. */
  lemma IntToStringInjective(a: int, b: int)
    requires IntToString(a) == IntToString(b)
    ensures a == b
  {
    ParseIntToString(a);
    ParseIntToString(b);
  }

  /** No numeral written by `f"{n}"` contains a tab. */
  lemma IntToStringNoTab(n: int)
    ensures '\t' !in IntToString(n)
  {
    var s := IntToString(n);
    if n < 0 {
      assert forall i | 1 <= i < |s| :: s[i] == NatToString(-n)[i - 1];
    }
    assert forall i | 0 <= i < |s| :: s[i] == '-' || IsDigit(s[i]);
  }

  // ---------------------------------------------------------------------------
  // Setter arguments

  /** The run-time type of a value handed to a unit-converting setter. */
  datatype PyValue = Str(s: string) | Dec(d: real) | Other

  datatype ConversionError = ValueError | InvalidOperation

  /**
   * What a unit-converting setter stores: a string is parsed and multiplied by
   * `factor`, a Decimal is stored as given, anything else raises ValueError.
   */
  function Convert(v: PyValue, factor: real): (r: Result<real, ConversionError>)
    ensures v.Dec? ==> r == Success(v.d)
    ensures r == Failure(ValueError) <==> v.Other?
    ensures v.Str? ==> (r.Success? <==> ParseDecimal(v.s).Some?)
  {
    match v
    case Str(s) =>
      (match ParseDecimal(s)
       case None => Failure(InvalidOperation)
       case Some(x) => Success(x * factor))
    case Dec(d) => Success(d)
    case Other => Failure(ValueError)
  }

  /** A numeral string is stored as its value times the setter's factor: milli, centi or one. */
  lemma ConvertScales(s: string)
    requires ParseDecimal(s).Some?
    ensures Convert(Str(s), 0.001) == Success(ParseDecimal(s).value * 0.001)
    ensures Convert(Str(s), 0.01) == Success(ParseDecimal(s).value * 0.01)
    ensures Convert(Str(s), 1.0) == Success(ParseDecimal(s).value)
  {
    var x := ParseDecimal(s).value;
    assert ParseDecimal(s) == Some(x);
  }
}
