/**
 * Python numbers as the source uses them: coordinates and distances are
 * `int` or `float`, printed with `str`, read back with `float()`/`int()`,
 * rounded with `round`. A number is kept as an exact decimal; a float is
 * identified with the shortest decimal that Python prints for it.
 */
module Numbers {
  import opened Wrappers
  import Text

  /**
   * `mantissa / 10^scale`. Scale 0 stands for an `int`; scale >= 1 for a
   * `float` whose `str` shows exactly `scale` fraction digits.
   */
  datatype Num = Num(mantissa: int, scale: nat)

  function Pow10(n: nat): (r: nat)
    ensures r >= 1
  {
    if n == 0 then 1 else 10 * Pow10(n - 1)
  }

  lemma {:induction false} Pow10Add(a: nat, b: nat)
    ensures Pow10(a + b) == Pow10(a) * Pow10(b)
    decreases a
  {
    if a > 0 {
      Pow10Add(a - 1, b);
    }
  }

  /** A Python `int`. */
  function Int(n: int): Num
  {
    Num(n, 0)
  }

  predicate IsFloat(x: Num)
  {
    x.scale >= 1
  }

  /** The number denoted. */
  function Value(x: Num): real
  {
    x.mantissa as real / Pow10(x.scale) as real
  }

  /** The form Python's `repr` gives a float: no trailing zero after the first fraction digit. */
  predicate Canonical(x: Num)
  {
    x.scale <= 1 || x.mantissa % 10 != 0
  }

  // ---------------------------------------------------------------------
  // Digits

  predicate IsDigit(ch: char)
  {
    '0' <= ch <= '9'
  }

  predicate AllDigits(s: string)
  {
    forall i | 0 <= i < |s| :: IsDigit(s[i])
  }

  function DigitChar(d: nat): (ch: char)
    requires d < 10
    ensures IsDigit(ch)
  {
    (d + '0' as int) as char
  }

  /** Decimal digits of `n`, most significant first, without leading zeros. */
  function NatStr(n: nat): (s: string)
    ensures |s| >= 1
    ensures AllDigits(s)
    decreases n
  {
    if n < 10 then [DigitChar(n)] else NatStr(n / 10) + [DigitChar(n % 10)]
  }

  /** The number a string of decimal digits denotes. */
  function DigitsValue(s: string): nat
    requires AllDigits(s)
  {
    if |s| == 0 then 0 else DigitsValue(s[..|s| - 1]) * 10 + (s[|s| - 1] as int - '0' as int)
  }

  lemma {:induction false} NatStrValue(n: nat)
    ensures DigitsValue(NatStr(n)) == n
    decreases n
  {
    if n >= 10 {
      NatStrValue(n / 10);
      var s := NatStr(n);
      assert s[..|s| - 1] == NatStr(n / 10);
    }
  }

  /** `m` with its last `k` decimal digits dropped, that is `m / 10^k`. */
  function Shift(m: nat, k: nat): nat
  {
    if k == 0 then m else Shift(m / 10, k - 1)
  }

  /** The last `k` decimal digits of `m`, zero-padded to exactly `k` characters. */
  function LowDigits(m: nat, k: nat): (s: string)
    ensures |s| == k && AllDigits(s)
  {
    if k == 0 then "" else LowDigits(m / 10, k - 1) + [DigitChar(m % 10)]
  }

  /** The integer part and the fraction digits together give back `m`. */
  lemma {:induction false} ShiftLowDigits(m: nat, k: nat)
    ensures Shift(m, k) * Pow10(k) + DigitsValue(LowDigits(m, k)) == m
    decreases k
  {
    if k > 0 {
      ShiftLowDigits(m / 10, k - 1);
      var s := LowDigits(m, k);
      assert s[..|s| - 1] == LowDigits(m / 10, k - 1);
      var q := Shift(m / 10, k - 1);
      var p := Pow10(k - 1);
      assert q * Pow10(k) == 10 * (q * p);
    }
  }

  // ---------------------------------------------------------------------
  // str() and float()/int()

  function Abs(n: int): nat
  {
    if n < 0 then -n else n
  }

  /** Python's `str` of an `int`, or of a `float` in positional notation. */
  function Show(x: Num): string
  {
    var sign := if x.mantissa < 0 then "-" else "";
    var m := Abs(x.mantissa);
    sign + ShowUnsigned(m, x.scale)
  }

  /**
   * A decimal literal: an optional sign, digits, and an optional `.` with
   * more digits, at least one digit in all. Gives the exact value, with the
   * number of fraction digits written as the scale.
   */
  function ParseLiteral(s: string): Option<Num>
  {
    if |s| > 0 && (s[0] == '-' || s[0] == '+') then
      match ParseUnsigned(s[1..])
      case None => None
      case Some(u) => Some(if s[0] == '-' then Num(-u.mantissa, u.scale) else u)
    else ParseUnsigned(s)
  }

  function ParseUnsigned(s: string): Option<Num>
  {
    var parts := Text.Split(s, '.');
    if |parts| == 1 then
      if |s| > 0 && AllDigits(s) then Some(Num(DigitsValue(s), 0)) else None
    else if |parts| == 2 && AllDigits(parts[0]) && AllDigits(parts[1]) && |parts[0]| + |parts[1]| > 0 then
      Some(Num(DigitsValue(parts[0]) * Pow10(|parts[1]|) + DigitsValue(parts[1]), |parts[1]|))
    else None
  }

  /** Python's `float(s)`: a literal parsed and made a float. */
  function ParseFloat(s: string): (r: Option<Num>)
    ensures r.Some? ==> IsFloat(r.value) && Canonical(r.value)
    ensures r.Some? <==> ParseLiteral(s).Some?
    ensures r.Some? ==> Value(r.value) == Value(ParseLiteral(s).value)
  {
    match ParseLiteral(s)
    case None => None
    case Some(x) => Some(AsFloat(x))
  }

  /** Python's `int(s)`: a literal without a fraction part. */
  function ParseInt(s: string): Option<int>
  {
    if '.' in s then None
    else match ParseLiteral(s)
      case None => None
      case Some(x) => Some(x.mantissa)
  }

  /** `str` and the literal parser are inverse: every number reads back exactly. */
  lemma ParseShow(x: Num)
    ensures ParseLiteral(Show(x)) == Some(x)
  {
    var m := Abs(x.mantissa);
    var body := ShowUnsigned(m, x.scale);
    ParseShowUnsigned(m, x.scale);
    if x.mantissa < 0 {
      assert Show(x) == "-" + body;
      assert Show(x)[1..] == body;
      assert x.mantissa == -(m as int);
    } else {
      assert Show(x) == body;
      assert !(Show(x)[0] == '-' || Show(x)[0] == '+');
      assert Num(m, x.scale) == x;
    }
  }

  function ShowUnsigned(m: nat, scale: nat): string
  {
    if scale == 0 then NatStr(m)
    else NatStr(Shift(m, scale)) + "." + LowDigits(m, scale)
  }

  lemma ParseShowUnsigned(m: nat, scale: nat)
    ensures |ShowUnsigned(m, scale)| > 0 && IsDigit(ShowUnsigned(m, scale)[0])
    ensures ParseUnsigned(ShowUnsigned(m, scale)) == Some(Num(m, scale))
  {
    var s := ShowUnsigned(m, scale);
    if scale == 0 {
      Text.SplitNoSep(s, '.');
      NatStrValue(m);
    } else {
      var a := NatStr(Shift(m, scale));
      var b := LowDigits(m, scale);
      assert '.' !in a && '.' !in b by {
        assert AllDigits(a) && AllDigits(b);
      }
      Text.SplitPair(a, b, '.');
      assert s == a + "." + b;
      NatStrValue(Shift(m, scale));
      ShiftLowDigits(m, scale);
    }
  }

  /** Distinct numbers print differently. */
  lemma ShowInjective(x: Num, y: Num)
    ensures Show(x) == Show(y) <==> x == y
  {
    ParseShow(x);
    ParseShow(y);
  }

  /** Printed numbers hold neither of the separators the cache formats use. */
  lemma ShowHasNoSeparator(x: Num)
    ensures ',' !in Show(x) && ';' !in Show(x)
    ensures Show(x) != ""
  {
    var m := Abs(x.mantissa);
    assert AllDigits(NatStr(m));
    if x.scale > 0 {
      assert AllDigits(NatStr(Shift(m, x.scale)));
      assert AllDigits(LowDigits(m, x.scale));
    }
  }

  /** `int(str(n)) == n`. */
  lemma ParseIntShow(n: int)
    ensures ParseInt(Show(Int(n))) == Some(n)
  {
    ParseShow(Int(n));
    var m := Abs(n);
    assert AllDigits(NatStr(m));
    assert '.' !in Show(Int(n));
  }

  // ---------------------------------------------------------------------
  // float() conversion, rounding and arithmetic

  // Real-arithmetic steps, stated once so that the proofs below stay linear.

  /** Helper: a common positive factor cancels in a quotient. */
  lemma RealCancel(a: real, x: real, k: real)
    requires x > 0.0 && k > 0.0
    ensures (a * k) / (x * k) == a / x
  {
  }

  /** Helper: the cast to `real` commutes with multiplication. */
  lemma CastMul(a: int, b: int)
    ensures (a * b) as real == a as real * b as real
  {
  }

  /** Helper: quotients over one positive divisor add. */
  lemma DivSum(a: real, b: real, x: real)
    requires x > 0.0
    ensures a / x + b / x == (a + b) / x
  {
  }

  /** Helper: the product of two quotients is the quotient of the products. */
  lemma DivProduct(a: real, x: real, b: real, y: real)
    requires x > 0.0 && y > 0.0
    ensures (a / x) * (b / y) == (a * b) / (x * y)
  {
  }

  /** Helper: dividing by one positive number is injective. */
  lemma DivInjective(a: real, b: real, x: real)
    requires x > 0.0 && a / x == b / x
    ensures a == b
  {
  }

  /** Appending `k` zero digits and as many fraction digits keeps the value. */
  lemma ValueScaled(m: int, s: nat, k: nat)
    ensures Value(Num(m * Pow10(k), s + k)) == Value(Num(m, s))
  {
    Pow10Add(s, k);
    var p := Pow10(s);
    var q := Pow10(k);
    CastMul(m, q);
    CastMul(p, q);
    RealCancel(m as real, p as real, q as real);
  }

  /** A number is zero exactly when its mantissa is. */
  lemma ZeroValue(x: Num)
    ensures Value(x) == 0.0 <==> x.mantissa == 0
  {
    if Value(x) == 0.0 {
      DivInjective(x.mantissa as real, 0.0, Pow10(x.scale) as real);
    }
  }

  /** Two numbers of the same scale are equal exactly when their values are. */
  lemma SameScaleSameValue(x: Num, y: Num)
    requires x.scale == y.scale
    ensures x == y <==> Value(x) == Value(y)
  {
    if Value(x) == Value(y) {
      DivInjective(x.mantissa as real, y.mantissa as real, Pow10(x.scale) as real);
    }
  }

  /** Drops trailing fraction zeros, keeping at least one fraction digit. */
  function Canon(x: Num): (r: Num)
    requires IsFloat(x)
    ensures IsFloat(r) && Canonical(r) && r.scale <= x.scale
    ensures Value(r) == Value(x)
    decreases x.scale
  {
    if x.scale > 1 && x.mantissa % 10 == 0 then
      var y := Num(x.mantissa / 10, x.scale - 1);
      assert Value(y) == Value(x) by {
        assert Pow10(1) == 10;
        assert x == Num(y.mantissa * Pow10(1), y.scale + 1);
        ValueScaled(y.mantissa, y.scale, 1);
      }
      Canon(y)
    else x
  }

  /** Python's `float(x)`. */
  function AsFloat(x: Num): (r: Num)
    ensures IsFloat(r) && Canonical(r)
    ensures Value(r) == Value(x)
    ensures IsFloat(x) && Canonical(x) ==> r == x
  {
    if x.scale == 0 then
      assert Value(Num(x.mantissa * 10, 1)) == Value(x) by {
        assert Pow10(1) == 10;
        ValueScaled(x.mantissa, 0, 1);
      }
      Num(x.mantissa * 10, 1)
    else Canon(x)
  }

  /** A canonical float is the only canonical float with its value. */
  lemma CanonicalUnique(x: Num, y: Num)
    requires IsFloat(x) && IsFloat(y) && Canonical(x) && Canonical(y)
    requires Value(x) == Value(y)
    ensures x == y
  {
    if x.scale < y.scale {
      CanonicalScaleDown(x, y);
    } else if y.scale < x.scale {
      CanonicalScaleDown(y, x);
    } else {
      SameScaleSameValue(x, y);
    }
  }

  /** A canonical float never equals one with fewer fraction digits. */
  lemma CanonicalScaleDown(x: Num, y: Num)
    requires IsFloat(x) && IsFloat(y) && Canonical(y)
    requires x.scale < y.scale
    ensures Value(x) != Value(y)
  {
    var k := y.scale - x.scale;
    var z := Num(x.mantissa * Pow10(k), y.scale);
    ValueScaled(x.mantissa, x.scale, k);
    ScaledEndsInZero(x.mantissa, k);
    SameScaleSameValue(z, y);
  }

  /** A number times a positive power of ten ends in the digit 0. */
  lemma ScaledEndsInZero(m: int, k: nat)
    requires k >= 1
    ensures (m * Pow10(k)) % 10 == 0
  {
    var q := Pow10(k - 1);
    assert Pow10(k) == 10 * q;
    assert m * Pow10(k) == 10 * (m * q);
  }

  /**
   * Rounds the quotient `m / d` to the nearest integer, ties to even: the
   * integer rounding that `round(x, n)` performs on the decimal digits.
   */
  function RoundHalfEven(m: int, d: nat): (q: int)
    requires d >= 1
    ensures 2 * (m - q * d) <= d && 2 * (q * d - m) <= d
    ensures (2 * (m - q * d) == d || 2 * (q * d - m) == d) ==> q % 2 == 0
  {
    var q := m / d;
    var r := m % d;
    assert m == q * d + r && 0 <= r < d;
    if 2 * r < d then q
    else if 2 * r > d then
      assert (q + 1) * d == q * d + d;
      q + 1
    else if q % 2 == 0 then q
    else
      assert (q + 1) * d == q * d + d;
      q + 1
  }

  /** Python's `round(x, n)`: an `int` stays as it is; a float is rounded half-to-even to `n` fraction digits. */
  function Round(x: Num, n: nat): (r: Num)
    ensures !IsFloat(x) ==> r == x
    ensures IsFloat(x) ==> IsFloat(r) && Canonical(r)
    ensures IsFloat(x) && x.scale <= n ==> Value(r) == Value(x)
  {
    if x.scale == 0 then x
    else if x.scale <= n then AsFloat(x)
    else AsFloat(Num(RoundHalfEven(x.mantissa, Pow10(x.scale - n)), n))
  }

  /** Rounding twice to the same digits changes nothing more. */
  lemma RoundIdempotent(x: Num, n: nat)
    ensures Round(Round(x, n), n) == Round(x, n)
  {
    if IsFloat(x) {
      var r := Round(x, n);
      if r.scale > n {
        assert n == 0 && r.scale == 1;
        var q := RoundHalfEven(r.mantissa, 1);
        assert Pow10(1) == 10 && Pow10(0) == 1;
        assert x.scale > 0;
        RoundIntegralFloat(x, r);
      }
    }
  }

  /** A float already rounded to no fraction digits has a zero last digit. */
  lemma RoundIntegralFloat(x: Num, r: Num)
    requires IsFloat(x) && r == Round(x, 0)
    ensures Round(r, 0) == r
  {
    var q := RoundHalfEven(x.mantissa, Pow10(x.scale));
    assert r == Num(q * 10, 1);
    assert Pow10(1) == 10;
    var q2 := RoundHalfEven(q * 10, 10);
    assert q2 == q;
  }

  /** Python's `round(v)` of a float: the nearest integer, ties to even. */
  function RoundReal(v: real): (k: int)
    ensures 2.0 * (v - k as real) <= 1.0 && 2.0 * (k as real - v) <= 1.0
    ensures (2.0 * (v - k as real) == 1.0 || 2.0 * (k as real - v) == 1.0) ==> k % 2 == 0
  {
    var f := v.Floor;
    var frac := v - f as real;
    if frac < 0.5 then f
    else if frac > 0.5 then f + 1
    else if f % 2 == 0 then f
    else f + 1
  }

  function Max(a: nat, b: nat): nat
  {
    if a < b then b else a
  }

  /** Python's `a + b`: an `int` when both are, otherwise a float. */
  function Add(a: Num, b: Num): (r: Num)
    ensures Value(r) == Value(a) + Value(b)
    ensures IsFloat(r) <==> IsFloat(a) || IsFloat(b)
    ensures IsFloat(r) ==> Canonical(r)
  {
    var s := Max(a.scale, b.scale);
    var ma := a.mantissa * Pow10(s - a.scale);
    var mb := b.mantissa * Pow10(s - b.scale);
    var exact := Num(ma + mb, s);
    assert Value(exact) == Value(a) + Value(b) by {
      ValueScaled(a.mantissa, a.scale, s - a.scale);
      ValueScaled(b.mantissa, b.scale, s - b.scale);
      DivSum(ma as real, mb as real, Pow10(s) as real);
    }
    if IsFloat(a) || IsFloat(b) then AsFloat(exact) else exact
  }

  /** Python's `a * b`: an `int` when both are, otherwise a float. */
  function Mul(a: Num, b: Num): (r: Num)
    ensures Value(r) == Value(a) * Value(b)
    ensures IsFloat(r) <==> IsFloat(a) || IsFloat(b)
    ensures IsFloat(r) ==> Canonical(r)
  {
    var exact := Num(a.mantissa * b.mantissa, a.scale + b.scale);
    MulValue(a, b);
    if IsFloat(a) || IsFloat(b) then AsFloat(exact) else exact
  }

  lemma MulValue(a: Num, b: Num)
    ensures Value(Num(a.mantissa * b.mantissa, a.scale + b.scale)) == Value(a) * Value(b)
  {
    var pa := Pow10(a.scale);
    var pb := Pow10(b.scale);
    Pow10Add(a.scale, b.scale);
    CastMul(a.mantissa, b.mantissa);
    CastMul(pa, pb);
    DivProduct(a.mantissa as real, pa as real, b.mantissa as real, pb as real);
  }
}
