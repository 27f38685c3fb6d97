/**
 * The game's arbitrary-magnitude number (Scripts/BigDouble.cs): a pair
 * (mantissa, exponent) whose value is mantissa * 10^exponent.  The source's
 * doubles are modelled as exact reals, so the model describes the arithmetic
 * the code means to perform, without floating-point rounding.
 */
module BigDoubles {

  function Abs(x: real): real
  {
    if x < 0.0 then -x else x
  }

  /** m * 10^e, one factor of ten at a time (Math.Pow(10, e) times m, without rounding). */
  function Scale(m: real, e: int): real
    decreases if e < 0 then -e else e
  {
    if e == 0 then m
    else if e > 0 then 10.0 * Scale(m, e - 1)
    else Scale(m, e + 1) / 10.0
  }

  /** 10^e for any integer e. */
  function Pow10(e: int): real
  {
    Scale(1.0, e)
  }

  /** x^n for a natural n (Math.Pow with an integral power, without rounding). */
  function RealPow(x: real, n: nat): real
  {
    if n == 0 then 1.0 else x * RealPow(x, n - 1)
  }

  datatype BigDouble = BigDouble(mantissa: real, exponent: int)

  /** The number a pair stands for: mantissa * 10^exponent. */
  function Value(x: BigDouble): real
  {
    Scale(x.mantissa, x.exponent)
  }

  /** The form Normalize leaves: zero is (0, 0), anything else has 1 <= |mantissa| < 10. */
  predicate IsNormal(x: BigDouble)
  {
    if x.mantissa == 0.0 then x.exponent == 0 else 1.0 <= Abs(x.mantissa) < 10.0
  }

  // ---------------------------------------------------------------------------
  // Powers of ten

  lemma ScaleStep(m: real, e: int)
    ensures Scale(m, e + 1) == 10.0 * Scale(m, e)
  {
  }

  /** Scaling is linear in the mantissa. */
  lemma {:induction false} ScaleLinear(a: real, b: real, e: int)
    ensures Scale(a + b, e) == Scale(a, e) + Scale(b, e)
    ensures Scale(a - b, e) == Scale(a, e) - Scale(b, e)
    ensures Scale(-a, e) == -Scale(a, e)
    decreases if e < 0 then -e else e
  {
    if e > 0 {
      ScaleLinear(a, b, e - 1);
    } else if e < 0 {
      ScaleLinear(a, b, e + 1);
    }
  }

  lemma {:induction false} ScaleZero(e: int)
    ensures Scale(0.0, e) == 0.0
    decreases if e < 0 then -e else e
  {
    if e > 0 {
      ScaleZero(e - 1);
    } else if e < 0 {
      ScaleZero(e + 1);
    }
  }

  /** Scaling preserves the strict order of mantissas. */
  lemma {:induction false} ScaleMonotone(a: real, b: real, e: int)
    requires a < b
    ensures Scale(a, e) < Scale(b, e)
    decreases if e < 0 then -e else e
  {
    if e > 0 {
      ScaleMonotone(a, b, e - 1);
    } else if e < 0 {
      ScaleMonotone(a, b, e + 1);
    }
  }

  lemma ScaleAbs(m: real, e: int)
    ensures Abs(Scale(m, e)) == Scale(Abs(m), e)
    ensures m > 0.0 ==> Scale(m, e) > 0.0
  {
    ScaleZero(e);
    ScaleLinear(m, 0.0, e);
    if m > 0.0 {
      ScaleMonotone(0.0, m, e);
    } else if m < 0.0 {
      ScaleMonotone(0.0, -m, e);
    }
  }

  lemma TimesTen(c: real, s: real)
    ensures 10.0 * (c * s) == c * (10.0 * s)
    ensures (c * s) / 10.0 == c * (s / 10.0)
  {
  }

  lemma TenAssoc(s: real, t: real)
    ensures (10.0 * s) * t == 10.0 * (s * t)
    ensures (s / 10.0) * t == (s * t) / 10.0
  {
  }

  lemma {:induction false} ScaleMul(c: real, m: real, e: int)
    ensures Scale(c * m, e) == c * Scale(m, e)
    decreases if e < 0 then -e else e
  {
    if e > 0 {
      ScaleMul(c, m, e - 1);
      TimesTen(c, Scale(m, e - 1));
    } else if e < 0 {
      ScaleMul(c, m, e + 1);
      TimesTen(c, Scale(m, e + 1));
    }
  }

  lemma {:induction false} ScaleTimes(x: real, a: int, y: real)
    ensures Scale(x, a) * y == Scale(x * y, a)
    decreases if a < 0 then -a else a
  {
    if a > 0 {
      ScaleTimes(x, a - 1, y);
      TenAssoc(Scale(x, a - 1), y);
    } else if a < 0 {
      ScaleTimes(x, a + 1, y);
      TenAssoc(Scale(x, a + 1), y);
    }
  }

  lemma {:induction false} ScaleCompose(m: real, a: int, b: int)
    ensures Scale(Scale(m, a), b) == Scale(m, a + b)
    decreases if b < 0 then -b else b
  {
    if b > 0 {
      ScaleCompose(m, a, b - 1);
      ScaleStep(m, a + b - 1);
    } else if b < 0 {
      ScaleCompose(m, a, b + 1);
      ScaleStep(m, a + b);
    }
  }

  /** Multiplication as a function, so that products in lemma statements are matched by their operands. */
  function Times(x: real, y: real): real
  {
    x * y
  }

  lemma ScaleCongruent(u: real, v: real, e: int)
    requires u == v
    ensures Scale(u, e) == Scale(v, e)
  {
  }

  lemma ScaleEqual(u: real, e: int, v: real, f: int)
    requires u == v && e == f
    ensures Scale(u, e) == Scale(v, f)
  {
  }

  lemma {:induction false} ScaleTen(m: real, e: int)
    ensures Scale(m * 10.0, e) == 10.0 * Scale(m, e)
    ensures Scale(m / 10.0, e) == Scale(m, e) / 10.0
    decreases if e < 0 then -e else e
  {
    if e > 0 {
      ScaleTen(m, e - 1);
    } else if e < 0 {
      ScaleTen(m, e + 1);
    }
  }

  /** Moving one digit between mantissa and exponent keeps the value. */
  lemma ShiftDigit(m: real, e: int)
    ensures Scale(m / 10.0, e + 1) == Scale(m, e)
    ensures Scale(m * 10.0, e - 1) == Scale(m, e)
  {
    ScaleTen(m, e);
    ScaleTen(m, e - 1);
    ScaleStep(m / 10.0, e);
    ScaleStep(m, e - 1);
  }

  lemma ScaleIsProduct(m: real, e: int)
    ensures Scale(m, e) == m * Pow10(e)
  {
    ScaleMul(m, 1.0, e);
  }

  lemma ScaleProduct(x: real, a: int, y: real, b: int)
    ensures Scale(x, a) * Scale(y, b) == Scale(x * y, a + b)
  {
    var sx, sy := Scale(x, a), Scale(y, b);
    ScaleTimesOf(x, a, y, sx);
    ScaleMulOf(sx, y, b, sy);
    ScaleCompose(x * y, a, b);
    ScaleCongruent(sx * y, Scale(x * y, a), b);
  }

  lemma ScaleTimesOf(x: real, a: int, y: real, s: real)
    requires s == Scale(x, a)
    ensures s * y == Scale(x * y, a)
  {
    ScaleTimes(x, a, y);
  }

  lemma ScaleMulOf(c: real, m: real, e: int, s: real)
    requires s == Scale(m, e)
    ensures Scale(c * m, e) == c * s
  {
    ScaleMul(c, m, e);
  }

  lemma Pow10Add(a: int, b: int)
    ensures Pow10(a + b) == Pow10(a) * Pow10(b)
  {
    ScaleProductOf(1.0, a, 1.0, b, Pow10(a), Pow10(b));
    ScaleCongruent(Times(1.0, 1.0), 1.0, a + b);
  }

  lemma Pow10Positive(e: int)
    ensures Pow10(e) > 0.0
  {
    ScaleAbs(1.0, e);
  }

  lemma {:induction false} Pow10Monotone(a: int, b: int)
    requires a <= b
    ensures Pow10(a) <= Pow10(b)
    decreases b - a
  {
    if a < b {
      Pow10Monotone(a, b - 1);
      Pow10Positive(b - 1);
      ScaleStep(1.0, b - 1);
    }
  }

  /** A nonzero normal value lies in [10^e, 10^(e+1)) in magnitude. */
  lemma Magnitude(x: BigDouble)
    requires IsNormal(x) && x.mantissa != 0.0
    ensures Pow10(x.exponent) <= Abs(Value(x)) < Pow10(x.exponent + 1)
  {
    var m, e := Abs(x.mantissa), x.exponent;
    ScaleAbs(x.mantissa, e);
    if m > 1.0 {
      ScaleMonotone(1.0, m, e);
    }
    ScaleMonotone(m, 10.0, e);
    assert Scale(10.0, e) == Pow10(e + 1) by {
      ScaleMul(10.0, 1.0, e);
      ScaleStep(1.0, e);
    }
  }

  /** Two normal pairs with the same value are the same pair. */
  lemma NormalFormUnique(x: BigDouble, y: BigDouble)
    requires IsNormal(x) && IsNormal(y) && Value(x) == Value(y)
    ensures x == y
  {
    if x.mantissa == 0.0 || y.mantissa == 0.0 {
      ZeroOnlyAtZero(x);
      ZeroOnlyAtZero(y);
    } else {
      Magnitude(x);
      Magnitude(y);
      SameExponent(x.exponent, y.exponent, Abs(Value(x)));
      if x.mantissa < y.mantissa {
        ScaleMonotone(x.mantissa, y.mantissa, x.exponent);
      } else if y.mantissa < x.mantissa {
        ScaleMonotone(y.mantissa, x.mantissa, x.exponent);
      }
    }
  }

  /** A normal pair is worth zero exactly when it is the pair (0, 0). */
  lemma ZeroOnlyAtZero(x: BigDouble)
    requires IsNormal(x)
    ensures Value(x) == 0.0 <==> x == BigDouble(0.0, 0)
  {
    ScaleZero(x.exponent);
    ScaleAbs(x.mantissa, x.exponent);
    if x.mantissa != 0.0 {
      ScaleAbs(Abs(x.mantissa), x.exponent);
    }
  }

  /** Decades [10^e, 10^(e+1)) do not overlap. */
  lemma SameExponent(e: int, f: int, v: real)
    requires Pow10(e) <= v < Pow10(e + 1) && Pow10(f) <= v < Pow10(f + 1)
    ensures e == f
  {
    if e < f {
      Pow10Monotone(e + 1, f);
    } else if f < e {
      Pow10Monotone(f + 1, e);
    }
  }

  // ---------------------------------------------------------------------------
  // Normalisation: the two loops of Normalize as recursive functions

  /**
   * new BigDouble(mantissa, exponent), i.e. Normalize: a zero mantissa becomes (0, 0); otherwise
   * the mantissa is divided by ten while |mantissa| >= 10, then multiplied by ten while it is
   * nonzero and |mantissa| < 1, the exponent stepping the other way each time. One digit per call.
   */
  function Create(m: real, e: int): (r: BigDouble)
    decreases NormalMeasure(m).0, NormalMeasure(m).1
  {
    if m == 0.0 then
      BigDouble(0.0, 0)
    else if Abs(m) >= 10.0 then
      Create(m / 10.0, e + 1)
    else if Abs(m) < 1.0 then
      ScaleUpStep(m);
      Create(m * 10.0, e - 1)
    else
      BigDouble(m, e)
  }

  /** Termination of Normalize: the first loop shrinks |m|.Floor, the second shrinks (1/|m|).Floor. */
  function NormalMeasure(m: real): (int, int)
  {
    (if Abs(m) >= 10.0 then Abs(m).Floor else 0,
     if m == 0.0 || Abs(m) >= 1.0 then 0 else (1.0 / Abs(m)).Floor)
  }

  lemma ScaleUpStep(m: real)
    requires m != 0.0 && Abs(m) < 1.0
    ensures Abs(m * 10.0) < 10.0
    ensures Abs(m * 10.0) >= 1.0 || (1.0 / Abs(m * 10.0)).Floor < (1.0 / Abs(m)).Floor
    ensures 1 <= (1.0 / Abs(m)).Floor
  {
    var a := Abs(m);
    var q := 1.0 / a;
    assert q * a == 1.0;
    assert q > 1.0;
    assert Abs(m * 10.0) == 10.0 * a;
    assert 1.0 / (10.0 * a) == q / 10.0;
  }

  /** Normalisation reaches the normal form, and the mantissa is zero only when it was zero. */
  lemma {:induction false} CreateNormal(m: real, e: int)
    ensures IsNormal(Create(m, e))
    ensures m == 0.0 <==> Create(m, e).mantissa == 0.0
    decreases NormalMeasure(m).0, NormalMeasure(m).1
  {
    if m != 0.0 {
      if Abs(m) >= 10.0 {
        CreateNormal(m / 10.0, e + 1);
      } else if Abs(m) < 1.0 {
        ScaleUpStep(m);
        CreateNormal(m * 10.0, e - 1);
      }
    }
  }

  /** Normalisation keeps the value mantissa * 10^exponent. */
  lemma {:induction false} CreateValue(m: real, e: int)
    ensures Value(Create(m, e)) == Scale(m, e)
    decreases NormalMeasure(m).0, NormalMeasure(m).1
  {
    if m == 0.0 {
      ScaleZero(e);
    } else if Abs(m) >= 10.0 {
      CreateValue(m / 10.0, e + 1);
      ShiftDigit(m, e);
    } else if Abs(m) < 1.0 {
      ScaleUpStep(m);
      CreateValue(m * 10.0, e - 1);
      ShiftDigit(m, e);
    }
  }

  /** Normalize as the source writes it: two loops over the mantissa, stepping the exponent. */
  method Normalize(m: real, e: int) returns (r: BigDouble)
    ensures IsNormal(r) && Value(r) == Scale(m, e)
    ensures r == Create(m, e)
  {
    CreateNormal(m, e);
    CreateValue(m, e);
    var mantissa, exponent := m, e;
    if mantissa == 0.0 {
      exponent := 0;
      return BigDouble(mantissa, exponent);
    }
    while Abs(mantissa) >= 10.0
      invariant mantissa != 0.0 && Create(mantissa, exponent) == Create(m, e)
      decreases Abs(mantissa).Floor
    {
      mantissa := mantissa / 10.0;
      exponent := exponent + 1;
    }
    while Abs(mantissa) < 1.0 && mantissa != 0.0
      invariant mantissa != 0.0 && Abs(mantissa) < 10.0
      invariant Create(mantissa, exponent) == Create(m, e)
      decreases (1.0 / Abs(mantissa)).Floor
    {
      ScaleUpStep(mantissa);
      mantissa := mantissa * 10.0;
      exponent := exponent - 1;
    }
    r := BigDouble(mantissa, exponent);
  }

  /** A pair that is already normal is left as it is. */
  lemma CreateOfNormal(x: BigDouble)
    requires IsNormal(x)
    ensures Create(x.mantissa, x.exponent) == x
  {
    CreateNormal(x.mantissa, x.exponent);
    CreateValue(x.mantissa, x.exponent);
    NormalFormUnique(Create(x.mantissa, x.exponent), x);
  }

  /** new BigDouble(double): exact in the model, so the value itself brought to normal form. */
  function FromReal(v: real): (r: BigDouble)
  {
    if v == 0.0 then BigDouble(0.0, 0) else Create(v, 0)
  }

  /** The double constructor gives a normal pair worth exactly v, whose mantissa is zero only for zero. */
  lemma FromRealValue(v: real)
    ensures Value(FromReal(v)) == v
    ensures IsNormal(FromReal(v))
    ensures v == 0.0 <==> FromReal(v).mantissa == 0.0
  {
    if v != 0.0 {
      CreateValue(v, 0);
      CreateNormal(v, 0);
    }
  }

  /**
   * The double constructor first guesses the exponent with Math.Floor(Math.Log10(|v|)),
   * divides by that power (scales by 10^-guess) and normalises.  Whatever integer the guess is, the result is
   * the same, so FromReal does not depend on how Math.Log10 rounds.
   */
  lemma FromRealAnyExponentGuess(v: real, guess: int)
    ensures Create(Scale(v, -guess), guess) == FromReal(v)
  {
    var c := Create(Scale(v, -guess), guess);
    assert Value(c) == v by {
      CreateValue(Scale(v, -guess), guess);
      ScaleCompose(v, -guess, guess);
    }
    FromRealValue(v);
    CreateNormal(Scale(v, -guess), guess);
    NormalFormUnique(c, FromReal(v));
  }

  const Zero: BigDouble := FromReal(0.0)
  const One: BigDouble := FromReal(1.0)
  /** The game's ceiling, not mathematical infinity. */
  const Infinity: BigDouble := Create(1.79, 308)

  lemma Constants()
    ensures Zero == BigDouble(0.0, 0) && One == BigDouble(1.0, 0)
    ensures Infinity == BigDouble(1.79, 308)
    ensures FromReal(2.0) == BigDouble(2.0, 0) && FromReal(10.0) == BigDouble(1.0, 1)
  {
  }

  // ---------------------------------------------------------------------------
  // Arithmetic

  /** The aligned sum and difference that + and - normalise have the exact value. */
  lemma AlignedSum(a: BigDouble, b: BigDouble)
    ensures Value(Create(Scale(a.mantissa, a.exponent - b.exponent) + b.mantissa, b.exponent))
      == Value(a) + Value(b)
    ensures Value(Create(Scale(a.mantissa, a.exponent - b.exponent) - b.mantissa, b.exponent))
      == Value(a) - Value(b)
  {
    var aligned := Scale(a.mantissa, a.exponent - b.exponent);
    CreateValue(aligned + b.mantissa, b.exponent);
    CreateValue(aligned - b.mantissa, b.exponent);
    AlignedScale(a.mantissa, a.exponent, b.mantissa, b.exponent, aligned, Value(a), Value(b));
  }

  lemma AlignedScale(am: real, ea: int, bm: real, eb: int, aligned: real, va: real, vb: real)
    requires aligned == Scale(am, ea - eb) && va == Scale(am, ea) && vb == Scale(bm, eb)
    ensures Scale(aligned + bm, eb) == va + vb && Scale(aligned - bm, eb) == va - vb
  {
    ScaleCompose(am, ea - eb, eb);
    ScaleLinear(aligned, bm, eb);
  }

  /** operator +: adds exactly unless one operand is zero or more than 15 orders below the other. */
  function Add(a: BigDouble, b: BigDouble): (r: BigDouble)
  {
    if a.mantissa == 0.0 then b
    else if b.mantissa == 0.0 then a
    else
      var expDiff := a.exponent - b.exponent;
      if expDiff > 15 then a
      else if expDiff < -15 then b
      else Create(Scale(a.mantissa, expDiff) + b.mantissa, b.exponent)
  }

  /** Zero is a left identity of +, and a right identity on normal values. */
  lemma AddIdentity(x: BigDouble)
    ensures Add(Zero, x) == x
    ensures IsNormal(x) ==> Add(x, Zero) == x
  {
    Constants();
  }

  /** The sum of normal values is normal. */
  lemma AddNormal(a: BigDouble, b: BigDouble)
    requires IsNormal(a) && IsNormal(b)
    ensures IsNormal(Add(a, b))
  {
    if a.mantissa != 0.0 && b.mantissa != 0.0 && -15 <= a.exponent - b.exponent <= 15 {
      AddIsAligned(a, b);
      CreateNormal(Scale(a.mantissa, a.exponent - b.exponent) + b.mantissa, b.exponent);
    }
  }

  /** + is commutative on normal values: the window case normalises the same value either way. */
  lemma AddCommutative(a: BigDouble, b: BigDouble)
    requires IsNormal(a) && IsNormal(b)
    ensures Add(a, b) == Add(b, a)
  {
    if a.mantissa != 0.0 && b.mantissa != 0.0 && -15 <= a.exponent - b.exponent <= 15 {
      AddValue(a, b);
      AddValue(b, a);
      AddNormal(a, b);
      AddNormal(b, a);
      NormalFormUnique(Add(a, b), Add(b, a));
    }
  }

  /** Within the 15-order window, + is exact. */
  lemma AddValue(a: BigDouble, b: BigDouble)
    requires a.mantissa != 0.0 && b.mantissa != 0.0 && -15 <= a.exponent - b.exponent <= 15
    ensures Value(Add(a, b)) == Value(a) + Value(b)
  {
    AddIsAligned(a, b);
    AlignedSum(a, b);
  }

  lemma AddIsAligned(a: BigDouble, b: BigDouble)
    requires a.mantissa != 0.0 && b.mantissa != 0.0 && -15 <= a.exponent - b.exponent <= 15
    ensures Add(a, b) == Create(Scale(a.mantissa, a.exponent - b.exponent) + b.mantissa, b.exponent)
  {
  }

  /** operator -: the mirror of Add, negating b where b is the surviving operand. */
  function Sub(a: BigDouble, b: BigDouble): (r: BigDouble)
  {
    if b.mantissa == 0.0 then a
    else if a.mantissa == 0.0 then Create(-b.mantissa, b.exponent)
    else
      var expDiff := a.exponent - b.exponent;
      if expDiff > 15 then a
      else if expDiff < -15 then Create(-b.mantissa, b.exponent)
      else Create(Scale(a.mantissa, expDiff) - b.mantissa, b.exponent)
  }

  /** Subtracting Zero changes nothing, and a normal value minus itself is Zero. */
  lemma SubIdentity(x: BigDouble)
    ensures Sub(x, Zero) == x
    ensures IsNormal(x) ==> Sub(x, x) == Zero
  {
    Constants();
    if x.mantissa != 0.0 {
      SubIsAligned(x, x);
      SubSelfAligned(x.mantissa, x.exponent);
    }
  }

  lemma SubSelfAligned(m: real, e: int)
    ensures Create(Scale(m, e - e) - m, e) == BigDouble(0.0, 0)
  {
    assert e - e == 0;
    assert Scale(m, 0) - m == 0.0;
  }

  /** The difference of normal values is normal. */
  lemma SubNormal(a: BigDouble, b: BigDouble)
    requires IsNormal(a) && IsNormal(b)
    ensures IsNormal(Sub(a, b))
  {
    if b.mantissa != 0.0 {
      if a.mantissa != 0.0 && -15 <= a.exponent - b.exponent <= 15 {
        SubIsAligned(a, b);
        CreateNormal(Scale(a.mantissa, a.exponent - b.exponent) - b.mantissa, b.exponent);
      } else {
        CreateNormal(-b.mantissa, b.exponent);
      }
    }
  }

  /** Within the 15-order window, - is exact. */
  lemma SubValue(a: BigDouble, b: BigDouble)
    requires a.mantissa != 0.0 && b.mantissa != 0.0 && -15 <= a.exponent - b.exponent <= 15
    ensures Value(Sub(a, b)) == Value(a) - Value(b)
  {
    SubIsAligned(a, b);
    AlignedSum(a, b);
  }

  lemma SubIsAligned(a: BigDouble, b: BigDouble)
    requires a.mantissa != 0.0 && b.mantissa != 0.0 && -15 <= a.exponent - b.exponent <= 15
    ensures Sub(a, b) == Create(Scale(a.mantissa, a.exponent - b.exponent) - b.mantissa, b.exponent)
  {
  }

  /**
   * When a is zero or more than 15 orders below b, operator - returns b negated and
   * normalised: its value is exactly -b, and a normal b just has its mantissa's sign flipped.
   */
  lemma SubNegatesSurvivor(a: BigDouble, b: BigDouble)
    requires b.mantissa != 0.0 && (a.mantissa == 0.0 || a.exponent - b.exponent < -15)
    ensures Sub(a, b) == Create(-b.mantissa, b.exponent)
    ensures Value(Sub(a, b)) == -Value(b)
    ensures IsNormal(b) ==> Sub(a, b) == BigDouble(-b.mantissa, b.exponent)
  {
    CreateValue(-b.mantissa, b.exponent);
    ScaleLinear(b.mantissa, 0.0, b.exponent);
    if IsNormal(b) {
      NormalFormUnique(Create(-b.mantissa, b.exponent), BigDouble(-b.mantissa, b.exponent));
    }
  }

  /**
   * The 15-order cutoff drops only an operand smaller than 10^-15 of the kept one
   * (for normal operands), so the error of Add and Sub is below that bound.
   */
  lemma CutoffIsNegligible(a: BigDouble, b: BigDouble)
    requires IsNormal(a) && IsNormal(b) && a.mantissa != 0.0 && b.mantissa != 0.0
    requires a.exponent - b.exponent > 15
    ensures Add(a, b) == a && Sub(a, b) == a
    ensures Abs(Value(b)) < Scale(Abs(Value(a)), -15)
  {
    Magnitude(a);
    Magnitude(b);
    CutoffBound(Abs(Value(a)), Abs(Value(b)), a.exponent, b.exponent, -15);
  }

  /** Below 10^(eb+1) <= 10^(ea+k) <= va * 10^k. */
  lemma CutoffBound(va: real, vb: real, ea: int, eb: int, k: int)
    requires Pow10(ea) <= va && vb < Pow10(eb + 1) && eb + 1 <= ea + k
    ensures vb < Scale(va, k)
  {
    Pow10Monotone(eb + 1, ea + k);
    var pa := Pow10(ea);
    assert Scale(pa, k) <= Scale(va, k) by {
      if pa < va {
        ScaleMonotone(pa, va, k);
      }
    }
    assert Scale(pa, k) == Pow10(ea + k) by {
      ScaleCompose(1.0, ea, k);
    }
  }

  /** operator *: the product of the mantissas at the sum of the exponents, normalised. */
  function Mul(a: BigDouble, b: BigDouble): (r: BigDouble)
  {
    Create(Times(a.mantissa, b.mantissa), a.exponent + b.exponent)
  }

  /** A product is normal, and it is Zero when either factor has a zero mantissa. */
  lemma MulNormal(a: BigDouble, b: BigDouble)
    ensures IsNormal(Mul(a, b))
    ensures a.mantissa == 0.0 || b.mantissa == 0.0 ==> Mul(a, b) == Zero
  {
    MulIsCreate(a, b);
    CreateNormal(Times(a.mantissa, b.mantissa), a.exponent + b.exponent);
    MulByZero(a, b);
  }

  /** operator * is exact: the value of the product is the product of the values. */
  lemma MulValue(a: BigDouble, b: BigDouble)
    ensures Value(Mul(a, b)) == Times(Value(a), Value(b))
  {
    MulIsCreate(a, b);
    CreateValue(Times(a.mantissa, b.mantissa), a.exponent + b.exponent);
    MulScale(a, b);
  }

  lemma MulIsCreate(a: BigDouble, b: BigDouble)
    ensures Mul(a, b) == Create(Times(a.mantissa, b.mantissa), a.exponent + b.exponent)
  {
  }

  lemma MulScale(a: BigDouble, b: BigDouble)
    ensures Scale(Times(a.mantissa, b.mantissa), a.exponent + b.exponent) == Times(Value(a), Value(b))
  {
    ScaleProductOf(a.mantissa, a.exponent, b.mantissa, b.exponent, Value(a), Value(b));
  }

  lemma ScaleProductOf(x: real, a: int, y: real, b: int, u: real, v: real)
    requires u == Scale(x, a) && v == Scale(y, b)
    ensures Scale(Times(x, y), a + b) == Times(u, v)
  {
    ScaleProduct(x, a, y, b);
  }

  lemma MulByZero(a: BigDouble, b: BigDouble)
    ensures a.mantissa == 0.0 || b.mantissa == 0.0 ==>
      Create(Times(a.mantissa, b.mantissa), a.exponent + b.exponent) == Zero
  {
    if a.mantissa == 0.0 || b.mantissa == 0.0 {
      ZeroProduct(a.mantissa, b.mantissa);
      assert Times(a.mantissa, b.mantissa) == a.mantissa * b.mantissa;
    }
  }

  lemma ZeroProduct(x: real, y: real)
    requires x == 0.0 || y == 0.0
    ensures Times(x, y) == 0.0
  {
  }

  lemma TimesOne(x: real)
    ensures Times(x, 1.0) == x
  {
  }

  /** Multiplying a normal value by One gives it back. */
  lemma MulOne(x: BigDouble)
    requires IsNormal(x)
    ensures Mul(x, One) == x
  {
    MulValue(x, One);
    FromRealValue(1.0);
    TimesOne(Value(x));
    NormalFormUnique(Mul(x, One), x);
  }

  datatype Quotient = Quotient(value: BigDouble) | DivideByZero

  /** The product of the values two pairs stand for. */
  function ValueProduct(x: BigDouble, y: BigDouble): real
  {
    Value(x) * Value(y)
  }

  /** operator /: throws DivideByZeroException on a zero-mantissa divisor. */
  function Div(a: BigDouble, b: BigDouble): (r: Quotient)
  {
    if b.mantissa == 0.0 then DivideByZero
    else Quotient(Create(a.mantissa / b.mantissa, a.exponent - b.exponent))
  }

  /** Division fails exactly on a zero divisor; otherwise the quotient is normal. */
  lemma DivOutcome(a: BigDouble, b: BigDouble)
    ensures Div(a, b).DivideByZero? <==> b.mantissa == 0.0
    ensures Div(a, b).Quotient? ==> IsNormal(Div(a, b).value)
  {
    if b.mantissa != 0.0 {
      CreateNormal(a.mantissa / b.mantissa, a.exponent - b.exponent);
    }
  }

  /** The quotient times the divisor is the dividend: / is exact. */
  lemma DivValue(a: BigDouble, b: BigDouble)
    requires b.mantissa != 0.0
    ensures ValueProduct(Div(a, b).value, b) == Value(a)
  {
    DivCancel(a.mantissa, b.mantissa, a.mantissa / b.mantissa);
    DivScale(a, b, a.mantissa / b.mantissa);
  }

  /** Any q with q * b.mantissa == a.mantissa, at exponent a.exponent - b.exponent, times b is a. */
  lemma DivScale(a: BigDouble, b: BigDouble, q: real)
    requires q * b.mantissa == a.mantissa
    ensures ValueProduct(Create(q, a.exponent - b.exponent), b) == Value(a)
  {
    CreateValue(q, a.exponent - b.exponent);
    ScaleTimesValue(Create(q, a.exponent - b.exponent), q, a.exponent - b.exponent, b);
    ScaleCongruent(q * b.mantissa, a.mantissa, a.exponent);
  }

  lemma DivCancel(x: real, y: real, q: real)
    requires y != 0.0 && q == x / y
    ensures q * y == x
  {
  }

  /** A pair c worth q * 10^d, times b, is worth q * b.mantissa * 10^(d + b.exponent). */
  lemma ScaleTimesValue(c: BigDouble, q: real, d: int, b: BigDouble)
    requires Value(c) == Scale(q, d)
    ensures ValueProduct(c, b) == Scale(q * b.mantissa, d + b.exponent)
  {
    var vc, vb := Value(c), Value(b);
    ScaleProduct(q, d, b.mantissa, b.exponent);
    assert vb == Scale(b.mantissa, b.exponent);
    assert vc * vb == Scale(q, d) * Scale(b.mantissa, b.exponent);
  }

  // ---------------------------------------------------------------------------
  // Comparison

  /** operator >: exponent first, then mantissa. */
  predicate Gt(a: BigDouble, b: BigDouble)
  {
    if a.exponent != b.exponent then a.exponent > b.exponent else a.mantissa > b.mantissa
  }

  /** operator <: exponent first, then mantissa. */
  predicate Lt(a: BigDouble, b: BigDouble)
  {
    if a.exponent != b.exponent then a.exponent < b.exponent else a.mantissa < b.mantissa
  }

  const Epsilon: real := 0.0000000001

  /** operator ==: same exponent and mantissas closer than 1e-10. */
  predicate Eq(a: BigDouble, b: BigDouble)
  {
    a.exponent == b.exponent && Abs(a.mantissa - b.mantissa) < Epsilon
  }

  predicate Ne(a: BigDouble, b: BigDouble)
  {
    !Eq(a, b)
  }

  /** operator >=, defined as > or ==. */
  predicate Ge(a: BigDouble, b: BigDouble)
  {
    Gt(a, b) || Eq(a, b)
  }

  /** operator <=, defined as < or ==. */
  predicate Le(a: BigDouble, b: BigDouble)
  {
    Lt(a, b) || Eq(a, b)
  }

  /** CompareTo: 1 when a > b, -1 when a < b, and 0 only for identical pairs (no epsilon). */
  function CompareTo(a: BigDouble, b: BigDouble): (r: int)
    ensures r == 1 <==> Gt(a, b)
    ensures r == -1 <==> Lt(a, b)
    ensures r == 0 <==> a == b
  {
    if Gt(a, b) then 1 else if Lt(a, b) then -1 else 0
  }

  /** Swapping the operands of CompareTo negates the result; the order is total on pairs. */
  lemma CompareToAntisymmetric(a: BigDouble, b: BigDouble)
    ensures CompareTo(a, b) == -CompareTo(b, a)
    ensures Gt(a, b) <==> Lt(b, a)
  {
  }

  /** Exactly one of <, >= holds unless the operands are epsilon-close with a < b. */
  lemma GeOrLt(a: BigDouble, b: BigDouble)
    ensures Ge(a, b) || Lt(a, b)
    ensures Lt(a, b) && Ge(a, b) ==> Eq(a, b) && a.mantissa < b.mantissa
  {
  }

  /** For positive normal values, > and < agree with the order of the values they stand for. */
  lemma GtMatchesValue(a: BigDouble, b: BigDouble)
    requires IsNormal(a) && IsNormal(b) && a.mantissa > 0.0 && b.mantissa > 0.0
    ensures Gt(a, b) <==> Value(a) > Value(b)
    ensures Lt(a, b) <==> Value(a) < Value(b)
  {
    Magnitude(a);
    Magnitude(b);
    ScaleAbs(a.mantissa, a.exponent);
    ScaleAbs(b.mantissa, b.exponent);
    if a.exponent < b.exponent {
      Pow10Monotone(a.exponent + 1, b.exponent);
    } else if b.exponent < a.exponent {
      Pow10Monotone(b.exponent + 1, a.exponent);
    } else if a.mantissa < b.mantissa {
      ScaleMonotone(a.mantissa, b.mantissa, a.exponent);
    } else if b.mantissa < a.mantissa {
      ScaleMonotone(b.mantissa, a.mantissa, a.exponent);
    }
  }

  /** For positive normal values, >= holds whenever the value is not smaller. */
  lemma GeFromValue(a: BigDouble, b: BigDouble)
    requires IsNormal(a) && IsNormal(b) && a.mantissa > 0.0 && b.mantissa > 0.0
    requires Value(a) >= Value(b)
    ensures Ge(a, b)
  {
    GtMatchesValue(a, b);
    if Value(a) == Value(b) {
      NormalFormUnique(a, b);
    }
  }

  /** Zero compares above a positive value below one, because the exponent is compared first. */
  lemma ZeroComparesAboveSmallPositive()
    ensures Gt(Zero, BigDouble(5.0, -1)) && Value(BigDouble(5.0, -1)) > Value(Zero)
  {
  }

  /** Epsilon equality lets a < b and a >= b hold together. */
  lemma LessAndAtLeastTogether()
    ensures Lt(BigDouble(1.0, 0), BigDouble(1.00000000001, 0))
    ensures Ge(BigDouble(1.0, 0), BigDouble(1.00000000001, 0))
  {
  }

  // ---------------------------------------------------------------------------
  // Conversion and formatting

  datatype Double = Finite(value: real) | PositiveInfinity

  /** ToDouble: saturates to +infinity above exponent 308 and to 0 below -308. */
  function ToDouble(x: BigDouble): (d: Double)
    ensures x.exponent > 308 ==> d == PositiveInfinity
    ensures x.exponent < -308 ==> d == Finite(0.0)
    ensures -308 <= x.exponent <= 308 ==> d == Finite(Value(x))
  {
    if x.exponent > 308 then PositiveInfinity
    else if x.exponent < -308 then Finite(0.0)
    else Finite(Scale(x.mantissa, x.exponent))
  }

  /**
   * ToDouble's cut-offs are the range of a double. A normal nonzero pair above exponent 308 is
   * worth at least 10^309, past double.MaxValue (about 1.8e308), and one below exponent -308 is
   * worth less than 10^-308, the bottom of the normal doubles; exactly the pairs in between are
   * converted to their own value.
   */
  lemma ToDoubleRange(x: BigDouble)
    requires IsNormal(x) && x.mantissa != 0.0
    ensures ToDouble(x) == PositiveInfinity <==> Abs(Value(x)) >= Pow10(309)
    ensures ToDouble(x) == Finite(0.0) <==> Abs(Value(x)) < Pow10(-308)
    ensures ToDouble(x) == Finite(Value(x)) <==> Pow10(-308) <= Abs(Value(x)) < Pow10(309)
  {
    DecadeBounds(x, -308, 308);
  }

  /** Where a normal nonzero pair lies against the decades lo and hi + 1, from its exponent. */
  lemma DecadeBounds(x: BigDouble, lo: int, hi: int)
    requires IsNormal(x) && x.mantissa != 0.0
    ensures x.exponent > hi ==> Abs(Value(x)) >= Pow10(hi + 1)
    ensures x.exponent < lo ==> Abs(Value(x)) < Pow10(lo)
    ensures x.exponent >= lo ==> Abs(Value(x)) >= Pow10(lo)
    ensures x.exponent <= hi ==> Abs(Value(x)) < Pow10(hi + 1)
    ensures Value(x) != 0.0
  {
    Magnitude(x);
    Pow10Positive(x.exponent);
    if x.exponent > hi {
      Pow10Monotone(hi + 1, x.exponent);
    }
    if x.exponent < lo {
      Pow10Monotone(x.exponent + 1, lo);
    }
    if x.exponent >= lo {
      Pow10Monotone(lo, x.exponent);
    }
    if x.exponent <= hi {
      Pow10Monotone(x.exponent + 1, hi + 1);
    }
  }

  /** ToDouble drops the sign on overflow: a negative pair above exponent 308 becomes +infinity. */
  lemma ToDoubleLosesSign(x: BigDouble)
    requires x.mantissa < 0.0 && x.exponent > 308
    ensures Value(x) < 0.0 && ToDouble(x) == PositiveInfinity
  {
    ScaleZero(x.exponent);
    ScaleMonotone(x.mantissa, 0.0, x.exponent);
  }

  /** Math.Round: nearest integer, ties to even. */
  function RoundHalfEven(v: real): (n: int)
    ensures Abs(v - n as real) <= 0.5
    ensures Abs(v - n as real) == 0.5 ==> n % 2 == 0
  {
    var f := v.Floor;
    var frac := v - f as real;
    if frac < 0.5 then f
    else if frac > 0.5 then f + 1
    else if f % 2 == 0 then f else f + 1
  }

  /** Which of ToString's outputs is produced; the digits themselves (F0 / F2 formatting) are not modelled. */
  datatype Rendering =
    | Literal(text: string)
    | FixedNoDecimals(value: real)
    | FixedTwoDecimals(value: real)
    | Scientific(mantissa: real, exponent: int)

  /** ToString: "0", plain form for -3 < exponent < 6 (no decimals when within 0.001 of a whole), else "m.mme<e>". */
  function ToString(x: BigDouble): (s: Rendering)
    ensures x.mantissa == 0.0 <==> s == Literal("0")
    ensures x.mantissa != 0.0 && -3 < x.exponent < 6 ==>
      s == (if Abs(Value(x) - RoundHalfEven(Value(x)) as real) < 0.001
            then FixedNoDecimals(Value(x)) else FixedTwoDecimals(Value(x)))
    ensures x.mantissa != 0.0 && !(-3 < x.exponent < 6) ==> s == Scientific(x.mantissa, x.exponent)
  {
    if x.mantissa == 0.0 then Literal("0")
    else if x.exponent < 6 && x.exponent > -3 then
      var value := ToDouble(x).value;
      if Abs(value - RoundHalfEven(value) as real) < 0.001 then FixedNoDecimals(value)
      else FixedTwoDecimals(value)
    else Scientific(x.mantissa, x.exponent)
  }

  /** The two fixed-point renderings. */
  predicate IsPlain(s: Rendering)
  {
    s.FixedNoDecimals? || s.FixedTwoDecimals?
  }

  /**
   * The window -3 < exponent < 6 of ToString is a range of magnitudes: a normal nonzero pair is
   * shown in fixed point exactly when 0.01 <= |value| < 1000000, and then with its own value;
   * otherwise it is shown in scientific form with a mantissa 1 <= |m| < 10 that, scaled by the
   * exponent shown, is the value.
   */
  lemma ToStringForm(x: BigDouble)
    requires IsNormal(x) && x.mantissa != 0.0
    ensures IsPlain(ToString(x)) <==> Pow10(-2) <= Abs(Value(x)) < Pow10(6)
    ensures IsPlain(ToString(x)) ==> ToString(x).value == Value(x)
    ensures !IsPlain(ToString(x)) ==> ToString(x).Scientific?
    ensures ToString(x).Scientific? ==>
      1.0 <= Abs(ToString(x).mantissa) < 10.0 && Scale(ToString(x).mantissa, ToString(x).exponent) == Value(x)
  {
    DecadeBounds(x, -2, 5);
  }

  // ---------------------------------------------------------------------------
  // Pow

  /** Raising a scaled mantissa to n scales the power by n times the exponent. */
  lemma {:induction false} ScalePower(m: real, e: int, n: nat)
    ensures RealPow(Scale(m, e), n) == Scale(RealPow(m, n), e * n)
  {
    if n > 0 {
      ScalePower(m, e, n - 1);
      ScalePowerStep(m, e, n, Scale(RealPow(m, n - 1), e * (n - 1)));
    }
  }

  lemma ScalePowerStep(m: real, e: int, n: nat, t: real)
    requires n > 0 && RealPow(Scale(m, e), n - 1) == t
    requires t == Scale(RealPow(m, n - 1), e * (n - 1))
    ensures RealPow(Scale(m, e), n) == Scale(RealPow(m, n), e * n)
  {
    var s, r, k := Scale(m, e), RealPow(m, n - 1), e * (n - 1);
    assert RealPow(s, n) == Times(s, RealPow(s, n - 1));
    assert Times(s, RealPow(s, n - 1)) == Times(s, Scale(r, k));
    ScaleProductTimes(m, e, r, k);
    assert e + k == e * n;
    assert RealPow(m, n) == Times(m, r);
  }

  /** ScaleProduct with the products named, so that a caller's products match by operand. */
  lemma ScaleProductTimes(x: real, a: int, y: real, b: int)
    ensures Times(Scale(x, a), Scale(y, b)) == Scale(Times(x, y), a + b)
  {
    ScaleProduct(x, a, y, b);
  }

  lemma {:induction false} RealPowOne(n: nat)
    ensures RealPow(1.0, n) == 1.0
  {
    if n > 0 {
      RealPowOne(n - 1);
    }
  }

  /**
   * BigDouble.Pow for an integral power n: the mantissa is raised to n and the exponent
   * multiplied by n; the fractional part of exponent * n is zero, so 10^frac is 1.
   */
  function Pow(b: BigDouble, n: nat): (r: BigDouble)
  {
    Create(RealPow(b.mantissa, n), b.exponent * n)
  }

  /** Pow is exact for integral powers: the result is normal and worth the n-th power of the value. */
  lemma PowValue(b: BigDouble, n: nat)
    ensures Value(Pow(b, n)) == RealPow(Value(b), n)
    ensures IsNormal(Pow(b, n))
  {
    CreateNormal(RealPow(b.mantissa, n), b.exponent * n);
    ScalePower(b.mantissa, b.exponent, n);
    CreateValue(RealPow(b.mantissa, n), b.exponent * n);
  }

  /** Pow(x, 0) is One, whatever x is. */
  lemma PowZero(x: BigDouble)
    ensures Pow(x, 0) == One
  {
  }

  /** Pow(10, k) is exactly (1, k). */
  lemma PowOfTen(k: nat)
    ensures Pow(FromReal(10.0), k) == BigDouble(1.0, k)
  {
    Constants();
    RealPowOne(k);
    CreateOfNormal(BigDouble(1.0, k));
  }

  /** (1, 40) + (1, 40) == (2, 40). */
  lemma AddExample()
    ensures Add(BigDouble(1.0, 40), BigDouble(1.0, 40)) == BigDouble(2.0, 40)
  {
  }
}
