/** JavaScript numbers as the expression evaluator of static/script.js sees them:
    `parseFloat` on the token texts it builds, `Number.prototype.toString` on the
    results it splices back, and `Math.round(r * 1000) / 1000`.
    Finite numbers are exact reals: IEEE-754 rounding, overflow and -0 are not modelled. */
module JsNumbers {

  datatype JsNum = Finite(value: real) | NaN | Infinity(negative: bool)

  predicate IsDigit(c: char) { '0' <= c <= '9' }

  function DigitValue(c: char): (d: nat)
    ensures d < 10
  {
    if IsDigit(c) then c as int - '0' as int else 0
  }

  function DigitChar(d: nat): (c: char)
    requires d < 10
    ensures IsDigit(c) && DigitValue(c) == d
  {
    ('0' as int + d) as char
  }

  /** Length of the run of decimal digits at the start of `s`. */
  function DigitRun(s: string): (n: nat)
    ensures n <= |s|
    ensures forall i :: 0 <= i < n ==> IsDigit(s[i])
    ensures n < |s| ==> !IsDigit(s[n])
  {
    if s == [] || !IsDigit(s[0]) then 0 else 1 + DigitRun(s[1..])
  }

  /** The integer a run of digits denotes. */
  function DigitsValue(ds: string): nat
  {
    if ds == [] then 0 else 10 * DigitsValue(ds[..|ds| - 1]) + DigitValue(ds[|ds| - 1])
  }

  /** The value of the digits after a decimal point: ".d1 d2 ..." */
  function FractionValue(ds: string): real
  {
    if ds == [] then 0.0 else (DigitValue(ds[0]) as real + FractionValue(ds[1..])) / 10.0
  }

  /** `parseFloat` without a sign: the longest prefix `digits [. digits]` that holds at least
      one digit, or NaN when there is none ("2.5.3" gives 2.5, "." and "+" give NaN). */
  function ParseUnsigned(s: string): (r: JsNum)
    ensures r.Finite? || r.NaN?
    ensures r.Finite? ==> r.value >= 0.0
    ensures r.NaN? <==> (s == [] || (!IsDigit(s[0]) && (s[0] != '.' || |s| == 1 || !IsDigit(s[1]))))
  {
    var d := DigitRun(s);
    var f := PointDigits(s, d);
    if d == 0 && f == 0 then NaN
    else Finite(DigitsValue(s[..d]) as real + PointFraction(s, d, f))
  }

  /** How many digits follow a point at index `d`; 0 when there is no point there. */
  function PointDigits(s: string, d: nat): (f: nat)
    requires d <= |s|
    ensures f > 0 ==> d < |s| && s[d] == '.' && f == DigitRun(s[d + 1..])
  {
    if d < |s| && s[d] == '.' then DigitRun(s[d + 1..]) else 0
  }

  /** The value of the `f` digits after a point at index `d`. */
  function PointFraction(s: string, d: nat, f: nat): (v: real)
    requires f > 0 ==> d < |s| && s[d] == '.' && f == DigitRun(s[d + 1..])
    ensures 0.0 <= v < 1.0
  {
    if f == 0 then 0.0
    else
      FractionNonNegative(s[d + 1..d + 1 + f]);
      FractionValue(s[d + 1..d + 1 + f])
  }

  lemma {:induction false} FractionNonNegative(ds: string)
    ensures 0.0 <= FractionValue(ds) < 1.0
  {
    if ds != [] {
      FractionNonNegative(ds[1..]);
    }
  }

  function Negate(n: JsNum): JsNum
  {
    match n
    case Finite(v) => Finite(-v)
    case NaN => NaN
    case Infinity(neg) => Infinity(!neg)
  }

  /** `parseFloat(s)` for the texts the evaluator parses: an optional sign, then a decimal
      prefix. Exponents, "Infinity" and leading white space never occur in those texts. */
  function ParseFloat(s: string): (r: JsNum)
    ensures !r.Infinity?
    ensures s != [] && !IsDigit(s[0]) && s[0] !in "+-." ==> r.NaN?
  {
    if s != [] && s[0] == '-' then Negate(ParseUnsigned(s[1..]))
    else if s != [] && s[0] == '+' then ParseUnsigned(s[1..])
    else ParseUnsigned(s)
  }

  // ---------------------------------------------------------------------------------
  // The arithmetic operators `+ - * /` on numbers that may be NaN or infinite

  function Add(a: JsNum, b: JsNum): JsNum
  {
    match (a, b)
    case (Finite(x), Finite(y)) => Finite(x + y)
    case (Infinity(s), Finite(_)) => Infinity(s)
    case (Finite(_), Infinity(t)) => Infinity(t)
    case (Infinity(s), Infinity(t)) => if s == t then Infinity(s) else NaN
    case _ => NaN
  }

  function Subtract(a: JsNum, b: JsNum): JsNum
  {
    Add(a, Negate(b))
  }

  function Multiply(a: JsNum, b: JsNum): JsNum
  {
    match (a, b)
    case (Finite(x), Finite(y)) => Finite(x * y)
    case (Infinity(s), Finite(y)) => if y == 0.0 then NaN else Infinity(s != (y < 0.0))
    case (Finite(x), Infinity(t)) => if x == 0.0 then NaN else Infinity(t != (x < 0.0))
    case (Infinity(s), Infinity(t)) => Infinity(s != t)
    case _ => NaN
  }

  function Divide(a: JsNum, b: JsNum): JsNum
  {
    match (a, b)
    case (Finite(x), Finite(y)) =>
      if y != 0.0 then Finite(x / y) else if x == 0.0 then NaN else Infinity(x < 0.0)
    case (Finite(_), Infinity(_)) => Finite(0.0)
    case (Infinity(s), Finite(y)) => Infinity(s != (y < 0.0))
    case _ => NaN
  }

  // ---------------------------------------------------------------------------------
  // Number.prototype.toString on evaluator results, which are always whole thousandths

  /** Decimal digits of a natural number, most significant first, no leading zeros. */
  function NatText(n: nat): (s: string)
    ensures |s| > 0 && forall i :: 0 <= i < |s| ==> IsDigit(s[i])
    ensures DigitsValue(s) == n
    decreases n
  {
    if n < 10 then [DigitChar(n)]
    else
      var s := NatText(n / 10) + [DigitChar(n % 10)];
      assert s[..|s| - 1] == NatText(n / 10);
      s
  }

  /** The fraction of `f` thousandths as JavaScript prints it: "" for none, otherwise '.'
      followed by one to three digits without trailing zeros. */
  function FractionText(f: nat): (s: string)
    requires f < 1000
  {
    if f == 0 then ""
    else if f % 100 == 0 then ['.', DigitChar(f / 100)]
    else if f % 10 == 0 then ['.', DigitChar(f / 100), DigitChar(f / 10 % 10)]
    else ['.', DigitChar(f / 100), DigitChar(f / 10 % 10), DigitChar(f % 10)]
  }

  /** The text of the number `k / 1000`. */
  function DecimalText(k: int): (s: string)
    ensures |s| > 0 && (IsDigit(s[0]) || s[0] == '-')
    ensures forall i :: 0 <= i < |s| ==> IsDigit(s[i]) || s[i] in "-."
  {
    var m := if k < 0 then -k else k;
    (if k < 0 then "-" else "") + NatText(m / 1000) + FractionText(m % 1000)
  }

  lemma {:induction false} DigitRunOfDigits(ds: string, rest: string)
    requires forall i :: 0 <= i < |ds| ==> IsDigit(ds[i])
    requires rest == [] || !IsDigit(rest[0])
    ensures DigitRun(ds + rest) == |ds|
  {
    if ds != [] {
      assert (ds + rest)[1..] == ds[1..] + rest;
      DigitRunOfDigits(ds[1..], rest);
    } else {
      assert ds + rest == rest;
    }
  }

  lemma FractionTextValue(f: nat)
    requires 0 < f < 1000
    ensures var s := FractionText(f);
      |s| >= 2 && s[0] == '.' && DigitRun(s[1..]) == |s| - 1 &&
      FractionValue(s[1..]) == f as real / 1000.0
  {
    var s := FractionText(f);
    var a, b, c := f / 100, f / 10 % 10, f % 10;
    assert f == 100 * a + 10 * b + c;
    var da, db, dc := DigitChar(a), DigitChar(b), DigitChar(c);
    if f % 100 == 0 {
      assert s[1..] == [da];
      assert FractionValue([da]) == a as real / 10.0;
    } else if f % 10 == 0 {
      assert s[1..] == [da, db];
      assert [da, db][1..] == [db];
      assert FractionValue([db]) == b as real / 10.0;
      assert FractionValue([da, db]) == (a as real + b as real / 10.0) / 10.0;
    } else {
      assert s[1..] == [da, db, dc];
      assert [da, db, dc][1..] == [db, dc];
      assert [db, dc][1..] == [dc];
      assert FractionValue([dc]) == c as real / 10.0;
      assert FractionValue([db, dc]) == (b as real + c as real / 10.0) / 10.0;
      assert FractionValue([da, db, dc]) == (a as real + (b as real + c as real / 10.0) / 10.0) / 10.0;
    }
  }

  lemma UnsignedTextValue(m: nat)
    ensures ParseUnsigned(NatText(m / 1000) + FractionText(m % 1000)) == Finite(m as real / 1000.0)
  {
    var digits := NatText(m / 1000);
    var frac := FractionText(m % 1000);
    if m % 1000 == 0 {
      assert digits + frac == digits;
      ParseDigits(digits);
    } else {
      FractionTextValue(m % 1000);
      ParseDigitsAndFraction(digits, frac);
    }
  }

  /** A run of digits alone parses as the integer it denotes. */
  lemma ParseDigits(digits: string)
    requires |digits| > 0 && forall i :: 0 <= i < |digits| ==> IsDigit(digits[i])
    ensures ParseUnsigned(digits) == Finite(DigitsValue(digits) as real)
  {
    DigitRunOfDigits(digits, []);
    assert digits + [] == digits;
    assert digits[..|digits|] == digits;
  }

  /** Digits, a point and more digits parse as the integer part plus the fraction. */
  lemma ParseDigitsAndFraction(digits: string, frac: string)
    requires |digits| > 0 && forall i :: 0 <= i < |digits| ==> IsDigit(digits[i])
    requires |frac| >= 2 && frac[0] == '.' && DigitRun(frac[1..]) == |frac| - 1
    ensures ParseUnsigned(digits + frac) ==
      Finite(DigitsValue(digits) as real + FractionValue(frac[1..]))
  {
    var u := digits + frac;
    DigitRunOfDigits(digits, frac);
    AfterDigits(digits, frac);
    ParsePieces(u, digits, frac[1..], |digits|, |frac| - 1);
  }

  /** `ParseUnsigned` reads the integer digits and the fraction digits of a text that has
      both. */
  lemma ParsePieces(u: string, digits: string, fraction: string, d: nat, f: nat)
    requires d == DigitRun(u) && d < |u| && u[d] == '.' && f == DigitRun(u[d + 1..]) && f > 0
    requires u[..d] == digits && u[d + 1..d + 1 + f] == fraction
    ensures ParseUnsigned(u) == Finite(DigitsValue(digits) as real + FractionValue(fraction))
  {
    ParseWithPoint(u, d, f);
  }

  /** The pieces of `digits + frac` that `ParseUnsigned` looks at. */
  lemma AfterDigits(digits: string, frac: string)
    requires |frac| >= 1
    ensures var u := digits + frac; var d := |digits|;
      && u[d] == frac[0] && u[d + 1..] == frac[1..]
      && u[..d] == digits && u[d + 1..d + |frac|] == frac[1..]
  {
  }

  /** `ParseUnsigned` on a text whose digit run `d` is followed by a point and `f > 0`
      further digits. */
  lemma ParseWithPoint(s: string, d: nat, f: nat)
    requires d == DigitRun(s) && d < |s| && s[d] == '.'
    requires f == DigitRun(s[d + 1..]) && f > 0
    ensures ParseUnsigned(s) == Finite(DigitsValue(s[..d]) as real + FractionValue(s[d + 1..d + 1 + f]))
  {
    ParseWithPointDigits(s, d, f);
    PointFractionValue(s, d, f);
  }

  lemma ParseWithPointDigits(s: string, d: nat, f: nat)
    requires d == DigitRun(s) && d < |s| && s[d] == '.'
    requires f == DigitRun(s[d + 1..]) && f > 0
    ensures ParseUnsigned(s) == Finite(DigitsValue(s[..d]) as real + PointFraction(s, d, f))
  {
    assert PointDigits(s, d) == f;
  }

  lemma PointFractionValue(s: string, d: nat, f: nat)
    requires d < |s| && s[d] == '.'
    requires f == DigitRun(s[d + 1..]) && f > 0
    ensures PointFraction(s, d, f) == FractionValue(s[d + 1..d + 1 + f])
  {
  }

  /** Printing an evaluator result and parsing it back gives the same number: the
      splice of a parenthesised result is read back unchanged by the enclosing level. */
  lemma DecimalTextRoundTrip(k: int)
    ensures ParseFloat(DecimalText(k)) == Finite(k as real / 1000.0)
  {
    var m := if k < 0 then -k else k;
    var digits := NatText(m / 1000);
    var u := digits + FractionText(m % 1000);
    assert u[0] == digits[0];
    UnsignedTextValue(m);
    ParseSigned(u);
    if k < 0 {
      assert DecimalText(k) == "-" + u;
    } else {
      assert DecimalText(k) == u;
    }
  }

  /** `parseFloat` of a text starting with a digit, with and without a minus sign. */
  lemma ParseSigned(u: string)
    requires |u| > 0 && IsDigit(u[0])
    ensures ParseFloat(u) == ParseUnsigned(u)
    ensures ParseFloat("-" + u) == Negate(ParseUnsigned(u))
  {
    assert ("-" + u)[1..] == u;
  }

  // ---------------------------------------------------------------------------------
  // Math.round(r * 1000) / 1000

  /** `Math.round(r * 1000) / 1000`: `Math.round` is floor(x + 1/2), so halves go up. */
  function Round3(r: real): (v: real)
    ensures (v * 1000.0).Floor as real == v * 1000.0
    ensures r - 1.0 / 2000.0 < v <= r + 1.0 / 2000.0
  {
    var k := (r * 1000.0 + 0.5).Floor;
    assert k as real <= r * 1000.0 + 0.5 < k as real + 1.0;
    var v := k as real / 1000.0;
    assert v * 1000.0 == k as real;
    v
  }

  /** The two facts Round3 promises determine its result: it is the one multiple of 1/1000
      in the half-open window (r - 1/2000, r + 1/2000]. */
  lemma RoundingIsUnique(r: real, v: real)
    requires (v * 1000.0).Floor as real == v * 1000.0
    requires r - 1.0 / 2000.0 < v <= r + 1.0 / 2000.0
    ensures v == Round3(r)
  {
    var w := Round3(r);
    var a, b := (v * 1000.0).Floor, (w * 1000.0).Floor;
    assert -1.0 < v * 1000.0 - w * 1000.0 < 1.0;
    assert a == b;
  }
}
