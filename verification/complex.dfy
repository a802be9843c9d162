/** Exact complex arithmetic over Dafny's `real`, standing in for Python's
    double-precision `complex`. Only the operations the escape-time evaluator
    and the coordinate grid use are defined. */
module ComplexNumbers {

  datatype Complex = Complex(re: real, im: real)

  const Zero: Complex := Complex(0.0, 0.0)

  /** The imaginary unit `1j`. */
  const ImagUnit: Complex := Complex(0.0, 1.0)

  /** A real number seen as a complex number with zero imaginary part. */
  function FromReal(x: real): Complex
  {
    Complex(x, 0.0)
  }

  function Add(z: Complex, w: Complex): Complex
  {
    Complex(z.re + w.re, z.im + w.im)
  }

  /** Complex product: (a+bi)(c+di) = (ac-bd) + (ad+bc)i. */
  function Mul(z: Complex, w: Complex): Complex
  {
    Complex(z.re * w.re - z.im * w.im, z.re * w.im + z.im * w.re)
  }

  /** `z ** 2`, which Python evaluates as the product of `z` with itself. */
  function Square(z: Complex): Complex
  {
    Mul(z, z)
  }

  function Conj(z: Complex): Complex
  {
    Complex(z.re, -z.im)
  }

  /** The squared modulus |z|^2. */
  function NormSq(z: Complex): (r: real)
    ensures r >= 0.0
  {
    z.re * z.re + z.im * z.im
  }

  /** The escape test `abs(z) > 2`, stated without a square root. */
  predicate Escapes(z: Complex)
  {
    NormSq(z) > 4.0
  }

  /** For the modulus m = |z| (the non-negative root of |z|^2), `m > 2`
      holds exactly when `Escapes(z)`: comparing squares is the same test. */
  lemma AbsExceedsTwoIff(z: Complex, m: real)
    requires m >= 0.0 && m * m == NormSq(z)
    ensures m > 2.0 <==> Escapes(z)
  {
    if m > 2.0 {
      assert m * m > 2.0 * m by { assert (m - 2.0) * m > 0.0; }
    } else {
      assert m * m <= 2.0 * m by { assert (2.0 - m) * m >= 0.0; }
    }
  }

  /** Conjugation preserves the modulus. */
  lemma ConjNormSq(z: Complex)
    ensures NormSq(Conj(z)) == NormSq(z)
    ensures Escapes(Conj(z)) <==> Escapes(z)
  {
  }
}
