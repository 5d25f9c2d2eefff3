/**
 Exact rational arithmetic on `i128` numerators and denominators
 (`crates/ferrl/src/countdown.rs`, `gcd` and `Ratio`).

 Every operation is checked: it either produces the exact rational in lowest terms with a positive
 denominator, or it produces nothing, and the lemmas say precisely when.
 */
module Ratios {
  import opened Common

  // ---------------------------------------------------------------------------
  // Greatest common divisor
  // ---------------------------------------------------------------------------

  /** Euclid's recursion on magnitudes; what the loop in `GcdLoop` computes. */
  function Gcd(a: nat, b: nat): nat
    decreases b
  {
    if b == 0 then a else Gcd(b, a % b)
  }

  ghost predicate Divides(d: nat, n: int) {
    exists k: int :: n == d * k
  }

  /** `x as i128` for a `u128` value: two's-complement reinterpretation. */
  function WrapToI128(x: nat): (r: I128)
    requires x <= -I128_MIN
  {
    if x <= I128_MAX then x else x - 0x1_0000_0000_0000_0000_0000_0000_0000_0000
  }

  lemma GcdBound(a: nat, b: nat, m: nat)
    requires a <= m && b <= m
    ensures Gcd(a, b) <= m
    decreases b
  {
    if b != 0 {
      GcdBound(b, a % b, m);
    }
  }

  /** The source's `gcd`, loop and final cast included. */
  method GcdLoop(a: I128, b: I128) returns (g: I128)
    ensures Gcd(Abs(a), Abs(b)) <= -I128_MIN
    ensures g == WrapToI128(Gcd(Abs(a), Abs(b)))
  {
    var x, y := Abs(a), Abs(b);
    while y != 0
      invariant 0 <= x <= -I128_MIN && 0 <= y <= -I128_MIN
      invariant Gcd(x, y) == Gcd(Abs(a), Abs(b))
      decreases y
    {
      x, y := y, x % y;
    }
    g := WrapToI128(x);
  }

  lemma {:induction false} GcdDivides(a: nat, b: nat)
    ensures Divides(Gcd(a, b), a) && Divides(Gcd(a, b), b)
    decreases b
  {
    if b == 0 {
      assert a == a * 1;
      assert b == a * 0;
    } else {
      GcdDivides(b, a % b);
      var g := Gcd(a, b);
      var k: int :| b == g * k;
      var j: int :| a % b == g * j;
      assert a == b * (a / b) + a % b;
      calc {
        a;
        g * k * (a / b) + g * j;
        g * (k * (a / b) + j);
      }
    }
  }

  lemma {:induction false} Bezout(a: nat, b: nat) returns (x: int, y: int)
    ensures a * x + b * y == Gcd(a, b)
    decreases b
  {
    if b == 0 {
      x, y := 1, 0;
    } else {
      var u, v := Bezout(b, a % b);
      x, y := v, u - a / b * v;
      calc {
        a * x + b * y;
        a * v + b * (u - a / b * v);
        { assert b * (u - a / b * v) == b * u - b * (a / b) * v; }
        b * u + (a - b * (a / b)) * v;
        { assert a - b * (a / b) == a % b; }
        b * u + a % b * v;
      }
    }
  }

  /** Every common divisor divides the greatest one. */
  lemma CommonDivisorDividesGcd(d: nat, a: nat, b: nat)
    requires Divides(d, a) && Divides(d, b)
    ensures Divides(d, Gcd(a, b))
  {
    var x, y := Bezout(a, b);
    var k: int :| a == d * k;
    var j: int :| b == d * j;
    calc {
      Gcd(a, b);
      d * k * x + d * j * y;
      d * (k * x + j * y);
    }
  }

  /** Multiplication by a positive number is strictly increasing. */
  lemma MulOrder(g: int, a: int, b: int)
    requires g > 0
    ensures g * a < g * b <==> a < b
    ensures g * a == g * b <==> a == b
  {
    MulPositive(g, b - a);
    MulPositive(g, a - b);
  }

  lemma MulPositive(a: int, b: int)
    requires a > 0
    ensures a * b > 0 <==> b > 0
  {
  }

  lemma MulIsOne(d: nat, k: int)
    requires d * k == 1
    ensures d == 1
  {
    assert d > 0;
    MulPositive(d, k);
    MulOrder(k, 1, d);
  }

  lemma Distribute(g: int, p: int, x: int, q: int, y: int)
    ensures g * p * x + g * q * y == g * (p * x + q * y)
  {
    assert g * p * x == g * (p * x);
    assert g * q * y == g * (q * y);
  }

  /** Dividing both arguments by their greatest common divisor leaves coprime numbers. */
  lemma QuotientsAreCoprime(a: nat, b: nat, p: nat, q: nat)
    requires Gcd(a, b) != 0 && a == Gcd(a, b) * p && b == Gcd(a, b) * q
    ensures Gcd(p, q) == 1
  {
    var g := Gcd(a, b);
    var x, y := Bezout(a, b);
    Distribute(g, p, x, q, y);
    MulOrder(g, p * x + q * y, 1);
    GcdDivides(p, q);
    var d := Gcd(p, q);
    var i: int :| p == d * i;
    var j: int :| q == d * j;
    Distribute(d, i, x, j, y);
    MulIsOne(d, i * x + j * y);
  }

  /** Euclid's lemma: a divisor of `b * c` coprime to `b` divides `c`. */
  lemma EuclidsLemma(a: nat, b: nat, c: int)
    requires Gcd(a, b) == 1 && Divides(a, b * c)
    ensures Divides(a, c)
  {
    var x, y := Bezout(a, b);
    var k: int :| b * c == a * k;
    Regroup(a, x, b, y, c, k);
    assert c == a * (x * c + k * y);
  }

  lemma Regroup(a: int, x: int, b: int, y: int, c: int, k: int)
    requires b * c == a * k && a * x + b * y == 1
    ensures c == a * (x * c + k * y)
  {
    calc {
      c;
      (a * x + b * y) * c;
      a * x * c + b * y * c;
      { assert b * y * c == b * c * y; }
      a * x * c + a * k * y;
      { Distribute(a, x, c, k, y); }
      a * (x * c + k * y);
    }
  }

  // ---------------------------------------------------------------------------
  // Ratios
  // ---------------------------------------------------------------------------

  datatype Ratio = Ratio(num: I128, den: I128)

  /** Lowest terms with a positive denominator. */
  ghost predicate Canonical(r: Ratio) {
    r.den > 0 && Gcd(Abs(r.num), r.den) == 1
  }

  /** The rational number a ratio stands for. */
  ghost function Value(r: Ratio): real
    requires r.den != 0
  {
    r.num as real / r.den as real
  }

  // Products and quotients of reals, named so that proofs can match them as terms.

  ghost function RealProduct(x: real, y: real): real {
    x * y
  }

  ghost function RealQuotient(x: real, y: real): real
    requires y != 0.0
  {
    x / y
  }

  /** Rust's `/` on `i128`: truncation toward zero. */
  function TruncDiv(n: int, d: int): int
    requires d > 0
  {
    if n < 0 then -(-n / d) else n / d
  }

  function FromInt(n: int): (r: Ratio)
    requires FitsI128(n)
  {
    Ratio(n, 1)
  }

  lemma TruncDivExact(n: int, d: int, k: int)
    requires d > 0 && n == d * k
    ensures TruncDiv(n, d) == k
  {
    if n < 0 {
      assert -n == d * (-k);
      DivExact(-n, d, -k);
    } else {
      DivExact(n, d, k);
    }
  }

  lemma DivExact(n: int, d: int, k: int)
    requires d > 0 && n == d * k
    ensures n / d == k
  {
    var q := n / d;
    assert d * q + n % d == n;
    MulOrder(d, k, q + 1);
    MulOrder(d, q - 1, k);
    MulOrder(d, q, k);
  }

  lemma TruncDivBound(n: int, d: int)
    requires d > 0
    ensures Abs(TruncDiv(n, d)) <= Abs(n)
    ensures n > 0 ==> TruncDiv(n, d) >= 0
  {
    QuotientAtMost(Abs(n), d);
  }

  lemma QuotientAtMost(m: nat, d: int)
    requires d > 0
    ensures 0 <= m / d <= m
  {
    var q := m / d;
    assert d * q + m % d == m;
    MulOrder(d, -1, q);
    if q > 0 {
      MulOrder(q, 1, d);
    }
  }

  /** The greatest common divisor `Ratio::new` uses; `max(1)` guards the all-zero case. */
  function ReducingDivisor(num: I128, den: I128): (g: int)
    requires den > 0
    ensures 0 < g <= den
  {
    GcdBound(Abs(num), den, -I128_MIN);
    DivisorAtMost(num, den);
    var g := WrapToI128(Gcd(Abs(num), Abs(den)));
    if g < 1 then 1 else g
  }

  /** A divisor of a positive denominator fits in `i128`, so the cast in `gcd` cannot wrap here. */
  lemma DivisorAtMost(num: I128, den: I128)
    requires den > 0
    ensures 0 < Gcd(Abs(num), den) <= den
  {
    GcdDivides(Abs(num), den);
    var g := Gcd(Abs(num), den);
    var k: int :| den == g * k;
    assert g > 0;
    MulOrder(g, 0, k);
    MulOrder(g, 1, k);
  }

  /** `Ratio::new`: sign onto the numerator, then divide out the greatest common divisor. */
  function New(num: I128, den: I128): Option<Ratio> {
    if den == 0 then None
    else
      var sign := if den < 0 then -1 else 1;
      var n := CheckedI128(num * sign);
      var d := CheckedI128(den * sign);
      if n.None? || d.None? then None
      else
        var g := ReducingDivisor(n.value, d.value);
        TruncDivBound(n.value, g);
        TruncDivBound(d.value, g);
        Some(Ratio(TruncDiv(n.value, g), TruncDiv(d.value, g)))
  }

  function Add(a: Ratio, b: Ratio): Option<Ratio> {
    var p := CheckedI128(a.num * b.den);
    var q := CheckedI128(b.num * a.den);
    if p.None? || q.None? then None
    else
      var num := CheckedI128(p.value + q.value);
      var den := CheckedI128(a.den * b.den);
      if num.None? || den.None? then None else New(num.value, den.value)
  }

  function Sub(a: Ratio, b: Ratio): Option<Ratio> {
    var p := CheckedI128(a.num * b.den);
    var q := CheckedI128(b.num * a.den);
    if p.None? || q.None? then None
    else
      var num := CheckedI128(p.value - q.value);
      var den := CheckedI128(a.den * b.den);
      if num.None? || den.None? then None else New(num.value, den.value)
  }

  function Mul(a: Ratio, b: Ratio): Option<Ratio> {
    var num := CheckedI128(a.num * b.num);
    var den := CheckedI128(a.den * b.den);
    if num.None? || den.None? then None else New(num.value, den.value)
  }

  function Div(a: Ratio, b: Ratio): Option<Ratio> {
    var num := CheckedI128(a.num * b.den);
    var den := CheckedI128(a.den * b.num);
    if num.None? || den.None? then None else New(num.value, den.value)
  }

  predicate EqualsInt(r: Ratio, n: int) {
    r.den == 1 && r.num == n
  }

  // ---------------------------------------------------------------------------
  // What the operations mean
  // ---------------------------------------------------------------------------

  lemma SameFraction(n: int, d: int, p: int, q: int)
    requires d != 0 && q != 0 && n * q == p * d
    ensures n as real / d as real == p as real / q as real
  {
    var dn, dd, dp, dq := n as real, d as real, p as real, q as real;
    assert dn * dq == (n * q) as real;
    assert dp * dd == (p * d) as real;
    assert dn / dd == dn * dq / (dd * dq);
    assert dp / dq == dp * dd / (dq * dd);
  }

  lemma LowestTerms(m: nat, d: nat) returns (p: nat, q: nat)
    requires d > 0
    ensures 0 < Gcd(m, d)
    ensures m == Gcd(m, d) * p && d == Gcd(m, d) * q && q > 0 && Gcd(p, q) == 1
  {
    GcdDivides(m, d);
    var g := Gcd(m, d);
    var i: int :| m == g * i;
    var j: int :| d == g * j;
    PositiveDivisor(g, j, d);
    PositiveQuotient(g, i, m);
    PositiveQuotient(g, j, d);
    QuotientsAreCoprime(m, d, i, j);
    p, q := i, j;
  }

  lemma PositiveDivisor(g: nat, k: int, n: nat)
    requires n > 0 && n == g * k
    ensures g > 0
  {
  }

  lemma CrossMultiply(g: int, p: int, q: int)
    ensures p * (g * q) == g * p * q
  {
  }

  /** Dividing out the greatest common divisor keeps the fraction and makes it canonical. */
  lemma ReducingIsExact(n: I128, d: I128, g: int, r: Ratio)
    requires d > 0 && g == Gcd(Abs(n), d) && 0 < g
    requires r.num == TruncDiv(n, g) && r.den == TruncDiv(d, g)
    ensures Canonical(r) && r.num * d == n * r.den
  {
    var p, q := LowestTerms(Abs(n), d);
    var sp: int := p;
    if n < 0 { sp := -sp; }
    assert n == g * sp;
    TruncDivExact(n, g, sp);
    TruncDivExact(d, g, q);
    assert Abs(sp) == p;
    CrossMultiply(g, sp, q);
  }

  lemma NewPositive(num: I128, den: I128)
    requires den > 0
    ensures New(num, den).Some?
    ensures var r := New(num, den).value; Canonical(r) && r.num * den == num * r.den
  {
    DivisorAtMost(num, den);
    var g := ReducingDivisor(num, den);
    assert num * 1 == num && den * 1 == den;
    ReducingIsExact(num, den, g, New(num, den).value);
  }

  lemma NegateBoth(a: int, b: int, c: int, d: int)
    requires a * -b == -c * d
    ensures a * b == c * d
  {
  }

  /** `Ratio::new` is total except on a zero denominator or a sign flip of `i128::MIN`. */
  lemma NewIsExact(num: I128, den: I128)
    ensures New(num, den).None? <==> den == 0 || (den < 0 && (num == I128_MIN || den == I128_MIN))
    ensures New(num, den).Some? ==>
              var r := New(num, den).value;
              Canonical(r) && Value(r) == num as real / den as real
  {
    if den > 0 {
      NewPositive(num, den);
      var r := New(num, den).value;
      SameFraction(r.num, r.den, num, den);
    } else if den < 0 && num != I128_MIN && den != I128_MIN {
      var n: I128, d: I128 := 0 - num, 0 - den;
      assert num * -1 == n && den * -1 == d && n * 1 == n && d * 1 == d;
      assert New(num, den) == New(n, d);
      NewPositive(n, d);
      var r := New(num, den).value;
      NegateBoth(r.num, den, num, r.den);
      SameFraction(r.num, r.den, num, den);
    }
  }

  lemma PositiveQuotient(g: nat, k: int, n: nat)
    requires g > 0 && n == g * k
    ensures k >= 0 && (n > 0 ==> k > 0)
  {
    MulOrder(g, 0, k);
    MulOrder(g, -1, k);
  }

  lemma RealFractions(a: Ratio, b: Ratio)
    requires a.den != 0 && b.den != 0
    ensures a.den * b.den != 0
    ensures Value(a) + Value(b) == (a.num * b.den + b.num * a.den) as real / (a.den * b.den) as real
    ensures Value(a) - Value(b) == (a.num * b.den - b.num * a.den) as real / (a.den * b.den) as real
    ensures RealProduct(Value(a), Value(b)) == (a.num * b.num) as real / (a.den * b.den) as real
  {
    var an, ad, bn, bd := a.num as real, a.den as real, b.num as real, b.den as real;
    assert a.den * b.den != 0;
    assert (a.den * b.den) as real == ad * bd;
    assert (a.num * b.den) as real == an * bd;
    assert (b.num * a.den) as real == bn * ad;
    assert (a.num * b.num) as real == an * bn;
    RealSum(an, ad, bn, bd);
  }

  lemma RealSum(an: real, ad: real, bn: real, bd: real)
    requires ad != 0.0 && bd != 0.0
    ensures ad * bd != 0.0
    ensures an / ad + bn / bd == (an * bd + bn * ad) / (ad * bd)
    ensures an / ad - bn / bd == (an * bd - bn * ad) / (ad * bd)
    ensures an / ad * (bn / bd) == an * bn / (ad * bd)
  {
    var x, y := an / ad, bn / bd;
    assert an == x * ad && bn == y * bd;
    var m := ad * bd;
    assert an * bd == x * m;
    assert bn * ad == y * m;
    assert an * bn == x * y * m;
  }

  lemma RealQuotients(a: Ratio, b: Ratio)
    requires a.den != 0 && b.den != 0 && b.num != 0
    ensures a.den * b.num != 0
    ensures Value(b) != 0.0
    ensures RealQuotient(Value(a), Value(b)) == (a.num * b.den) as real / (a.den * b.num) as real
  {
    var an, ad, bn, bd := a.num as real, a.den as real, b.num as real, b.den as real;
    assert a.den * b.num != 0;
    assert (a.den * b.num) as real == ad * bn;
    assert (a.num * b.den) as real == an * bd;
    var x, y := an / ad, bn / bd;
    assert an == x * ad && bn == y * bd;
    assert y != 0.0;
    var z := x / y;
    assert x == z * y;
    assert an * bd == z * (ad * bn);
  }

  /** No intermediate of an addition or subtraction leaves `i128`. */
  predicate SumFits(a: Ratio, b: Ratio, sign: int) {
    && FitsI128(a.num * b.den) && FitsI128(b.num * a.den)
    && FitsI128(a.num * b.den + sign * (b.num * a.den))
    && FitsI128(a.den * b.den)
  }

  predicate ProductFits(a: Ratio, b: Ratio) {
    FitsI128(a.num * b.num) && FitsI128(a.den * b.den)
  }

  /** A negative divisor also negates both products, which `i128::MIN` does not survive. */
  predicate QuotientFits(a: Ratio, b: Ratio) {
    && FitsI128(a.num * b.den) && FitsI128(a.den * b.num)
    && (b.num < 0 ==> a.num * b.den != I128_MIN && a.den * b.num != I128_MIN)
  }

  lemma AddIsExact(a: Ratio, b: Ratio)
    requires Canonical(a) && Canonical(b)
    ensures Add(a, b).Some? <==> SumFits(a, b, 1)
    ensures Add(a, b).Some? ==>
              Canonical(Add(a, b).value) && Value(Add(a, b).value) == Value(a) + Value(b)
  {
    assert a.den * b.den > 0;
    if SumFits(a, b, 1) {
      NewIsExact(a.num * b.den + b.num * a.den, a.den * b.den);
      RealFractions(a, b);
    }
  }

  lemma SubIsExact(a: Ratio, b: Ratio)
    requires Canonical(a) && Canonical(b)
    ensures Sub(a, b).Some? <==> SumFits(a, b, -1)
    ensures Sub(a, b).Some? ==>
              Canonical(Sub(a, b).value) && Value(Sub(a, b).value) == Value(a) - Value(b)
  {
    assert a.den * b.den > 0;
    if SumFits(a, b, -1) {
      NewIsExact(a.num * b.den - b.num * a.den, a.den * b.den);
      RealFractions(a, b);
    }
  }

  lemma MulIsExact(a: Ratio, b: Ratio)
    requires Canonical(a) && Canonical(b)
    ensures Mul(a, b).Some? <==> ProductFits(a, b)
    ensures Mul(a, b).Some? ==>
              Canonical(Mul(a, b).value) && Value(Mul(a, b).value) == RealProduct(Value(a), Value(b))
  {
    assert a.den * b.den > 0;
    if ProductFits(a, b) {
      NewIsExact(a.num * b.num, a.den * b.den);
      RealFractions(a, b);
    }
  }

  lemma DivIsExact(a: Ratio, b: Ratio)
    requires Canonical(a) && Canonical(b)
    ensures Div(a, b).Some? <==> b.num != 0 && QuotientFits(a, b)
    ensures Div(a, b).Some? ==>
              && Canonical(Div(a, b).value)
              && Value(b) != 0.0
              && Value(Div(a, b).value) == RealQuotient(Value(a), Value(b))
  {
    assert b.num == 0 ==> a.den * b.num == 0;
    if b.num > 0 {
      assert a.den * b.num > 0;
    } else if b.num < 0 {
      MulOrder(a.den, b.num, 0);
    }
    if FitsI128(a.num * b.den) && FitsI128(a.den * b.num) {
      NewIsExact(a.num * b.den, a.den * b.num);
      if b.num != 0 {
        RealQuotients(a, b);
      }
    }
  }

  /** Derived equality on `Ratio` is equality of rationals. */
  lemma CanonicalFormsAreUnique(a: Ratio, b: Ratio)
    requires Canonical(a) && Canonical(b)
    ensures a == b <==> Value(a) == Value(b)
  {
    if Value(a) == Value(b) {
      var an, ad, bn, bd := a.num as real, a.den as real, b.num as real, b.den as real;
      var v := Value(a);
      assert an == v * ad && bn == v * bd;
      assert (a.num * b.den) as real == an * bd;
      assert (b.num * a.den) as real == bn * ad;
      assert a.num * b.den == b.num * a.den;
      DenominatorDivides(a, b);
      DenominatorDivides(b, a);
      DividesEachOther(a.den, b.den);
      MulOrder(a.den, a.num, b.num);
    }
  }

  lemma DenominatorDivides(a: Ratio, b: Ratio)
    requires Canonical(a) && Canonical(b) && a.num * b.den == b.num * a.den
    ensures Divides(a.den, b.den)
  {
    var m := Abs(a.num);
    var k: int := if a.num < 0 then 0 - b.num else b.num;
    assert m * b.den == a.den * k;
    GcdSymmetric(m, a.den);
    EuclidsLemma(a.den, m, b.den);
  }

  lemma GcdSymmetric(a: nat, b: nat)
    requires Gcd(a, b) == 1
    ensures Gcd(b, a) == 1
  {
    GcdDivides(b, a);
    CommonDivisorDividesGcd(Gcd(b, a), a, b);
    var k: int :| 1 == Gcd(b, a) * k;
    MulIsOne(Gcd(b, a), k);
  }

  lemma DividesEachOther(a: int, b: int)
    requires a > 0 && b > 0 && Divides(a, b) && Divides(b, a)
    ensures a == b
  {
    var k: int :| b == a * k;
    var j: int :| a == b * j;
    PositiveQuotient(a, k, b);
    PositiveQuotient(b, j, a);
    assert a * (k - 1) >= 0;
    assert b * (j - 1) >= 0;
  }

  lemma EqualsIntIsExact(r: Ratio, n: int)
    requires Canonical(r) && FitsI128(n)
    ensures EqualsInt(r, n) <==> Value(r) == n as real
  {
    GcdWithOne(Abs(n));
    assert Canonical(FromInt(n));
    assert Value(FromInt(n)) == n as real;
    CanonicalFormsAreUnique(r, FromInt(n));
  }

  lemma GcdWithOne(m: nat)
    ensures Gcd(m, 1) == 1
  {
    assert Gcd(1, m % 1) == 1;
  }

  /** Called on its own, the cast in `gcd` does wrap: exactly on the magnitude `2^127`. */
  lemma GcdCastWrapsExactlyAtTwoTo127(a: I128, b: I128)
    ensures Gcd(Abs(a), Abs(b)) <= -I128_MIN
    ensures WrapToI128(Gcd(Abs(a), Abs(b))) != Gcd(Abs(a), Abs(b))
            <==> (a == I128_MIN || a == 0) && (b == I128_MIN || b == 0) && (a != 0 || b != 0)
  {
    GcdBound(Abs(a), Abs(b), -I128_MIN);
    var g := Gcd(Abs(a), Abs(b));
    GcdDivides(Abs(a), Abs(b));
    var k: int :| Abs(a) == g * k;
    var j: int :| Abs(b) == g * j;
    if g == -I128_MIN {
      PositiveQuotient(g, k, Abs(a));
      PositiveQuotient(g, j, Abs(b));
      assert k <= 1 && j <= 1;
    }
    assert Gcd(-I128_MIN, -I128_MIN) == -I128_MIN by {
      assert -I128_MIN % -I128_MIN == 0;
      assert Gcd(-I128_MIN, 0) == -I128_MIN;
    }
    assert Gcd(0, -I128_MIN) == -I128_MIN by {
      assert 0 % -I128_MIN == 0;
      assert Gcd(-I128_MIN, 0) == -I128_MIN;
    }
  }
}
