/** Exact rational arithmetic on JSON number literals, as math/big computes it. */
module Rational {
  import opened Decimal

  /** A JSON number: sign, integer digits, fraction digits and decimal exponent (section 6 of RFC 8259). */
  datatype Literal = Literal(negative: bool, whole: string, fraction: string, exponent: int)

  predicate WellFormed(l: Literal) {
    l.whole != [] && AllDigits(l.whole) && AllDigits(l.fraction)
  }

  type Number = l: Literal | WellFormed(l) witness Literal(false, "0", "", 0)

  datatype Ratio = Ratio(num: int, den: nat)

  ghost predicate SameValue(a: Ratio, b: Ratio) {
    a.num * b.den == b.num * a.den
  }

  function Pow10(e: nat): (p: nat)
    ensures p > 0
  {
    if e == 0 then 1 else 10 * Pow10(e - 1)
  }

  /** The literal's value as an unreduced fraction: mantissa digits times a power of ten. */
  function Value(l: Number): (r: Ratio)
    ensures r.den > 0
  {
    var mantissa := NatValue(l.whole + l.fraction);
    var signed: int := if l.negative then 0 - mantissa else mantissa;
    var shift := l.exponent - |l.fraction|;
    if shift >= 0 then Ratio(signed * Pow10(shift), 1) else Ratio(signed, Pow10(-shift))
  }

  function Gcd(a: nat, b: nat): (g: nat)
    requires a > 0 || b > 0
    ensures g > 0
    decreases b
  {
    if b == 0 then a else Gcd(b, a % b)
  }

  /** Lowest terms, as big.Rat keeps every value. */
  function Reduce(r: Ratio): Ratio
    requires r.den > 0
  {
    var g := Gcd(r.den, if r.num < 0 then -r.num else r.num);
    Ratio(if r.num < 0 then -((-r.num) / g) else r.num / g, r.den / g)
  }

  /** big.Rat.RatString: the bare numerator when the denominator is one. */
  function RatString(r: Ratio): string {
    if r.den == 1 then Print(r.num) else Print(r.num) + "/" + Print(r.den)
  }

  lemma Distribute(a: int, b: int, c: int)
    ensures (a + b) * c == a * c + b * c == c * (a + b)
  {
  }

  lemma Associate(a: int, b: int, c: int)
    ensures a * b * c == a * (b * c) == b * (a * c)
  {
  }

  /** One step of Euclid's algorithm: from witnesses for (b, a mod b) to witnesses for (a, b). */
  lemma EuclidStep(q: int, b: int, r: int, g: int, pb: int, pr: int, u: int, v: int)
    requires b == pb * g && r == pr * g && b * u + r * v == g
    ensures q * b + r == (q * pb + pr) * g
    ensures (q * b + r) * v + b * (u - q * v) == g
  {
    Distribute(q * pb, pr, g);
    Associate(q, pb, g);
    Distribute(q * b, r, v);
    Distribute(u, -(q * v), b);
    Associate(q, b, v);
    assert b * (-(q * v)) == -(b * (q * v));
  }

  /** Euclid's algorithm with its witnesses: the gcd divides both numbers and is a combination of them. */
  lemma {:induction false} GcdWitnesses(a: nat, b: nat) returns (qa: int, qb: int, x: int, y: int)
    requires a > 0 || b > 0
    ensures a == qa * Gcd(a, b) && b == qb * Gcd(a, b)
    ensures a * x + b * y == Gcd(a, b)
    decreases b
  {
    if b == 0 {
      qa, qb, x, y := 1, 0, 1, 0;
    } else {
      var q, r := a / b, a % b;
      assert a == q * b + r;
      var pb, pr, u, v := GcdWitnesses(b, r);
      EuclidStep(q, b, r, Gcd(b, r), pb, pr, u, v);
      qa, qb, x, y := q * pb + pr, pb, v, u - q * v;
    }
  }

  /** Coprimality, by its Bezout witnesses. */
  ghost predicate Coprime(a: int, b: int, x: int, y: int) {
    a * x + b * y == 1
  }

  lemma PositiveFactor(a: int, k: int)
    requires a > 0 && a * k > 0
    ensures k >= 1 && a * k >= a
  {
  }

  lemma CancelFactor(g: int, a: int, b: int)
    requires g != 0 && g * a == g * b
    ensures a == b
  {
    assert g * (a - b) == 0;
  }

  lemma QuotientIsUnique(q: int, d: int, g: int, r: int)
    requires g > 0 && q * g == d * g + r && 0 <= r < g
    ensures q == d
  {
    Distribute(q, -d, g);
    assert (q - d) * g == r;
    assert q - d >= 1 ==> (q - d) * g >= g;
    assert q - d <= -1 ==> (q - d) * g <= -g;
  }

  lemma DivideExact(n: int, q: int, g: int)
    requires g > 0 && n == q * g
    ensures n / g == q
  {
    QuotientIsUnique(q, n / g, g, n % g);
  }

  /** Dividing numerator and denominator by their gcd keeps the value and leaves them coprime. */
  lemma ReduceFacts(sign: int, n: int, d: int, g: int, qn: int, qd: int, u: int, v: int)
    requires g > 0 && n == qn * g && d == qd * g && d * u + n * v == g && sign * sign == 1
    ensures (sign * n) * qd == (sign * qn) * d
    ensures Coprime(sign * qn, qd, sign * v, u)
  {
    Associate(sign, n, qd);
    Associate(qn, g, qd);
    Associate(sign, qn, d);
    assert n * qd == qn * d;
    Associate(qd, g, u);
    Associate(qn, g, v);
    Distribute(qd * u, qn * v, g);
    assert g * (qd * u + qn * v) == g * 1;
    CancelFactor(g, qd * u + qn * v, 1);
    Associate(sign, qn, sign * v);
    Associate(sign, sign, v);
    assert qn * (sign * (sign * v)) == qn * v;
  }

  /** Reduction keeps the value and reaches coprime numerator and denominator. */
  lemma ReduceSound(r: Ratio) returns (x: int, y: int)
    requires r.den > 0
    ensures Reduce(r).den > 0 && SameValue(r, Reduce(r))
    ensures Coprime(Reduce(r).num, Reduce(r).den, x, y)
  {
    var sign := if r.num < 0 then -1 else 1;
    var n := if r.num < 0 then -r.num else r.num;
    var g := Gcd(r.den, n);
    var qd, qn, u, v := GcdWitnesses(r.den, n);
    DivideExact(r.den, qd, g);
    DivideExact(n, qn, g);
    PositiveFactor(g, qd);
    ReduceFacts(sign, n, r.den, g, qn, qd, u, v);
    x, y := sign * v, u;
  }

  lemma DenominatorDivides(a: Ratio, b: Ratio, x: int, y: int) returns (k: int)
    requires a.den > 0 && b.den > 0 && SameValue(a, b) && Coprime(a.num, a.den, x, y)
    ensures b.den == a.den * k && k >= 1
  {
    k := b.num * x + b.den * y;
    calc {
      a.den * k;
      { Distribute(b.num * x, b.den * y, a.den); }
      (b.num * x) * a.den + (b.den * y) * a.den;
      { Associate(b.num, x, a.den); Associate(x, b.num, a.den); Associate(b.den, y, a.den); }
      x * (b.num * a.den) + b.den * (y * a.den);
      x * (a.num * b.den) + b.den * (y * a.den);
      { Associate(x, a.num, b.den); }
      (a.num * x) * b.den + (a.den * y) * b.den;
      { Distribute(a.num * x, a.den * y, b.den); }
      b.den;
    }
    PositiveFactor(a.den, k);
  }

  /** Equal fractions in lowest terms are the same fraction. */
  lemma LowestTermsUnique(a: Ratio, b: Ratio, ax: int, ay: int, bx: int, by_: int)
    requires a.den > 0 && b.den > 0 && SameValue(a, b)
    requires Coprime(a.num, a.den, ax, ay) && Coprime(b.num, b.den, bx, by_)
    ensures a == b
  {
    var k := DenominatorDivides(a, b, ax, ay);
    var j := DenominatorDivides(b, a, bx, by_);
    PositiveFactor(a.den, k);
    PositiveFactor(b.den, j);
    CancelFactor(a.den, a.num, b.num);
  }

  lemma SameValueTransitive(a: Ratio, b: Ratio, c: Ratio)
    requires a.den > 0 && b.den > 0 && c.den > 0
    requires SameValue(a, b) && SameValue(b, c)
    ensures SameValue(a, c)
  {
    calc {
      b.den * (a.num * c.den);
      { Associate(b.den, a.num, c.den); Associate(a.num, b.den, c.den); }
      (a.num * b.den) * c.den;
      { Associate(b.num, a.den, c.den); }
      a.den * (c.num * b.den);
      { Associate(a.den, c.num, b.den); Associate(c.num, a.den, b.den); }
      b.den * (c.num * a.den);
    }
    CancelFactor(b.den, a.num * c.den, c.num * a.den);
  }

  /** Reduction is a normal form: equal results exactly for equal values. */
  lemma ReduceIsNormalForm(a: Ratio, b: Ratio)
    requires a.den > 0 && b.den > 0
    ensures Reduce(a) == Reduce(b) <==> SameValue(a, b)
  {
    var ax, ay := ReduceSound(a);
    var bx, by_ := ReduceSound(b);
    if Reduce(a) == Reduce(b) {
      SameValueTransitive(a, Reduce(a), b);
    }
    if SameValue(a, b) {
      SameValueTransitive(Reduce(a), a, b);
      SameValueTransitive(Reduce(a), b, Reduce(b));
      LowestTermsUnique(Reduce(a), Reduce(b), ax, ay, bx, by_);
    }
  }

  /** Printing a fraction loses nothing. */
  lemma RatStringIsInjective(a: Ratio, b: Ratio)
    requires a.den > 0 && b.den > 0 && RatString(a) == RatString(b)
    ensures a == b
  {
    var pa, pb := Print(a.num), Print(b.num);
    NoSlash(a.num);
    NoSlash(b.num);
    var s := RatString(a);
    assert a.den != 1 ==> s[|pa|] == '/';
    assert b.den != 1 ==> s[|pb|] == '/';
    assert forall i :: 0 <= i < |pa| ==> s[i] == pa[i];
    assert forall i :: 0 <= i < |pb| ==> s[i] == pb[i];
    assert |pa| == |pb|;
    assert pa == s[..|pa|] == pb;
    if a.den != 1 {
      assert s[|pa| + 1..] == Print(a.den) == Print(b.den);
      PrintIsInjective(a.den, b.den);
    }
    PrintIsInjective(a.num, b.num);
  }

  lemma NoSlash(n: int)
    ensures forall i :: 0 <= i < |Print(n)| ==> Print(n)[i] != '/'
  {
    var body := PrintNat(if n < 0 then -n else n);
    assert forall i :: 0 <= i < |body| ==> IsDigit(body[i]);
  }

  // ----- what a literal is worth -----

  /** Digits alone are the natural number they denote. */
  lemma DigitsAreNumbers(n: nat, negative: bool)
    ensures Value(Literal(negative, PrintNat(n), "", 0)) == Ratio(if negative then 0 - n else n, 1)
  {
    PrintNatRoundTrip(n);
    assert PrintNat(n) + "" == PrintNat(n);
  }

  /** One more in the exponent is a factor of ten. */
  lemma ExponentScales(l: Number)
    ensures var r := Value(l); SameValue(Value(l.(exponent := l.exponent + 1)), Ratio(10 * r.num, r.den))
  {
    var shift := l.exponent - |l.fraction|;
    var mantissa: int := NatValue(l.whole + l.fraction);
    var signed := if l.negative then 0 - mantissa else mantissa;
    if shift >= 0 {
      assert Pow10(shift + 1) == 10 * Pow10(shift);
      Associate(10, signed, Pow10(shift));
    } else {
      assert Pow10(-shift) == 10 * Pow10(-shift - 1);
      Associate(10, signed, Pow10(-shift - 1));
    }
  }

  /** Moving the decimal point one digit to the right takes one off the exponent. */
  lemma PointMoves(l: Number, d: char)
    requires IsDigit(d)
    ensures WellFormed(Literal(l.negative, l.whole + [d], l.fraction, l.exponent))
    ensures Value(Literal(l.negative, l.whole, [d] + l.fraction, l.exponent + 1)) ==
            Value(Literal(l.negative, l.whole + [d], l.fraction, l.exponent))
  {
    assert l.whole + ([d] + l.fraction) == l.whole + [d] + l.fraction;
  }
}
