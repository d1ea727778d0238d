/** Exact complex arithmetic: numpy's complex128 values without rounding. */
module ComplexNumbers {

  /** A complex number as a pair of exact reals. */
  datatype Complex = Complex(re: real, im: real)

  const Zero := Complex(0.0, 0.0)
  const One := Complex(1.0, 0.0)

  /** A real number viewed as a complex one (numpy's upcast of a float). */
  function FromReal(x: real): Complex
  {
    Complex(x, 0.0)
  }

  function Add(a: Complex, b: Complex): Complex
  {
    Complex(a.re + b.re, a.im + b.im)
  }

  function Mul(a: Complex, b: Complex): Complex
  {
    Complex(a.re * b.re - a.im * b.im, a.re * b.im + a.im * b.re)
  }

  function Conj(a: Complex): Complex
  {
    Complex(a.re, -a.im)
  }

  /** Multiplication by a real scalar, as in `2. * array`. */
  function Scale(r: real, a: Complex): Complex
  {
    Complex(r * a.re, r * a.im)
  }

  /** |a|^2 */
  function NormSquared(a: Complex): real
  {
    a.re * a.re + a.im * a.im
  }

  lemma MulComm(a: Complex, b: Complex)
    ensures Mul(a, b) == Mul(b, a)
  {
  }

  lemma MulAssoc(a: Complex, b: Complex, c: Complex)
    ensures Mul(Mul(a, b), c) == Mul(a, Mul(b, c))
  {
    MulAssocRe(a.re, a.im, b.re, b.im, c.re, c.im);
    MulAssocIm(a.re, a.im, b.re, b.im, c.re, c.im);
  }

  /** The real part of (a b) c and of a (b c), expanded. */
  lemma MulAssocRe(ar: real, ai: real, br: real, bi: real, cr: real, ci: real)
    ensures (ar * br - ai * bi) * cr - (ar * bi + ai * br) * ci == ar * (br * cr - bi * ci) - ai * (br * ci + bi * cr)
  {
  }

  /** The imaginary part of (a b) c and of a (b c), expanded. */
  lemma MulAssocIm(ar: real, ai: real, br: real, bi: real, cr: real, ci: real)
    ensures (ar * br - ai * bi) * ci + (ar * bi + ai * br) * cr == ar * (br * ci + bi * cr) + ai * (br * cr - bi * ci)
  {
  }

  lemma MulAddRight(a: Complex, b: Complex, c: Complex)
    ensures Mul(Add(a, b), c) == Add(Mul(a, c), Mul(b, c))
  {
  }

  lemma ConjMul(a: Complex, b: Complex)
    ensures Conj(Mul(a, b)) == Mul(Conj(a), Conj(b))
  {
  }

  lemma MulZero(a: Complex)
    ensures Mul(a, Zero) == Zero && Mul(Zero, a) == Zero
  {
  }

  lemma MulOne(a: Complex)
    ensures Mul(a, One) == a && Mul(One, a) == a
  {
  }

  /** a * conj(a) is the real number |a|^2. */
  lemma MulConjSelf(a: Complex)
    ensures Mul(a, Conj(a)) == FromReal(NormSquared(a))
  {
  }

  /** conj(conj(a) * x * b) == conj(b) * conj(x) * a */
  lemma ConjTriple(a: Complex, x: Complex, b: Complex)
    ensures Conj(Mul(Mul(Conj(a), x), b)) == Mul(Mul(Conj(b), Conj(x)), a)
  {
    calc {
      Conj(Mul(Mul(Conj(a), x), b));
      { ConjMul(Mul(Conj(a), x), b); ConjMul(Conj(a), x); }
      Mul(Mul(a, Conj(x)), Conj(b));
      { MulComm(Mul(a, Conj(x)), Conj(b)); }
      Mul(Conj(b), Mul(a, Conj(x)));
      { MulComm(a, Conj(x)); }
      Mul(Conj(b), Mul(Conj(x), a));
      { MulAssoc(Conj(b), Conj(x), a); }
      Mul(Mul(Conj(b), Conj(x)), a);
    }
  }

  /** Sandwiching between a number and its conjugate scales by |p|^2. */
  lemma SandwichUnit(p: Complex, d: Complex)
    requires NormSquared(p) == 1.0
    ensures Mul(Mul(p, d), Conj(p)) == d
  {
    calc {
      Mul(Mul(p, d), Conj(p));
      { MulComm(p, d); MulAssoc(d, p, Conj(p)); }
      Mul(d, Mul(p, Conj(p)));
      { MulConjSelf(p); }
      Mul(d, One);
      { MulOne(d); }
      d;
    }
  }
}
