/**
 * One time step: evolve the density matrix, rotate it into the Majorana basis, discard the
 * real off-diagonal part and rescale by 2.
 */
module Evolution {
  import opened ComplexNumbers
  import opened Matrices

  /** The exponent -1j * e * t of one phase factor. */
  function PhaseExponent(e: real, t: real): Complex
  {
    Complex(0.0, -(e * t))
  }

  /** exp(-1j * spectrum * t), with the complex exponential given as a parameter. */
  function Phases(n: nat, cexp: Complex -> Complex, spectrum: seq<real>, t: real): (p: seq<Complex>)
    requires |spectrum| == n
    ensures |p| == n && forall j :: 0 <= j < n ==> p[j] == cexp(PhaseExponent(spectrum[j], t))
  {
    seq(n, j requires 0 <= j < n => cexp(PhaseExponent(spectrum[j], t)))
  }

  /** U(t) = diag(exp(-1j * spectrum * t)). */
  function EvolutionOperator(n: nat, cexp: Complex -> Complex, spectrum: seq<real>, t: real): (u: Matrix)
    requires |spectrum| == n
    ensures IsMatrix(u, n)
    ensures forall j, k :: 0 <= j < n && 0 <= k < n ==>
      u[j][k] == if j == k then cexp(PhaseExponent(spectrum[j], t)) else Zero
  {
    Diag(n, Phases(n, cexp, spectrum, t))
  }

  /** U(t) . dens . U(t)^H: the density matrix at time t. */
  function Evolve(n: nat, cexp: Complex -> Complex, spectrum: seq<real>, dens: Matrix, t: real): (d: Matrix)
    requires |spectrum| == n && IsMatrix(dens, n)
    ensures IsMatrix(d, n)
  {
    Sandwich(n, EvolutionOperator(n, cexp, spectrum, t), dens)
  }

  /**
   * `1j * imag(c) + diag(diag(c))`: off the diagonal the real part is discarded and the imaginary
   * part kept; on the diagonal the real part is kept and the imaginary part counted twice.
   */
  function Correct(n: nat, c: Matrix): (r: Matrix)
    requires IsMatrix(c, n)
    ensures IsMatrix(r, n)
    ensures forall i, j :: 0 <= i < n && 0 <= j < n && i != j ==> r[i][j] == Complex(0.0, c[i][j].im)
    ensures forall i :: 0 <= i < n ==> r[i][i] == Complex(c[i][i].re, 2.0 * c[i][i].im)
  {
    MatAdd(n, ImagTimesI(n, c), Diag(n, DiagOf(n, c)))
  }

  /** The factor of two relating the composite fermions to the Majorana correlators. */
  function Rescale(n: nat, c: Matrix): (r: Matrix)
    requires IsMatrix(c, n)
    ensures IsMatrix(r, n)
    ensures forall i, j :: 0 <= i < n && 0 <= j < n ==> r[i][j] == Complex(2.0 * c[i][j].re, 2.0 * c[i][j].im)
  {
    MatScale(n, 2.0, c)
  }

  /** eigvecs . dens(t) . eigvecs^H: the correlation matrix at time t in the Majorana basis, before the correction. */
  function RotatedAt(n: nat, cexp: Complex -> Complex, spectrum: seq<real>, eigvecs: Matrix, dens: Matrix, t: real): (c: Matrix)
    requires |spectrum| == n && IsMatrix(eigvecs, n) && IsMatrix(dens, n)
    ensures IsMatrix(c, n)
  {
    Sandwich(n, eigvecs, Evolve(n, cexp, spectrum, dens, t))
  }

  /** The corrected and rescaled correlation matrix handed to the current computation at time t. */
  function CorrelationAt(n: nat, cexp: Complex -> Complex, spectrum: seq<real>, eigvecs: Matrix, dens: Matrix, t: real): (c: Matrix)
    requires |spectrum| == n && IsMatrix(eigvecs, n) && IsMatrix(dens, n)
    ensures IsMatrix(c, n)
  {
    Rescale(n, Correct(n, RotatedAt(n, cexp, spectrum, eigvecs, dens, t)))
  }

  // ---------------------------------------------------------------------
  // Evolution

  /** Entry (j, k) evolves to p[j] * dens[j][k] * conj(p[k]). */
  lemma EvolveEntry(n: nat, p: seq<Complex>, dens: Matrix, j: nat, k: nat)
    requires |p| == n && IsMatrix(dens, n) && j < n && k < n
    ensures Sandwich(n, Diag(n, p), dens)[j][k] == Mul(Mul(p[j], dens[j][k]), Conj(p[k]))
  {
    var u := Diag(n, p);
    ConjTransposeDiag(n, p);
    MulDiagRight(n, MatMul(n, u, dens), ConjAll(p), j, k);
    MulDiagLeft(n, p, dens, j, k);
  }

  /** Entry (j, k) of the density matrix at time t is exp(-1j e_j t) * dens[j][k] * conj(exp(-1j e_k t)). */
  lemma EvolveEntryAt(n: nat, cexp: Complex -> Complex, spectrum: seq<real>, dens: Matrix, t: real, j: nat, k: nat)
    requires |spectrum| == n && IsMatrix(dens, n) && j < n && k < n
    ensures Evolve(n, cexp, spectrum, dens, t)[j][k]
         == Mul(Mul(cexp(PhaseExponent(spectrum[j], t)), dens[j][k]), Conj(cexp(PhaseExponent(spectrum[k], t))))
  {
    EvolveEntry(n, Phases(n, cexp, spectrum, t), dens, j, k);
  }

  /** At t = 0 every phase is exp(0) = 1, so evolution leaves the density matrix unchanged. */
  lemma EvolveAtTimeZero(n: nat, cexp: Complex -> Complex, spectrum: seq<real>, dens: Matrix)
    requires |spectrum| == n && IsMatrix(dens, n)
    requires cexp(Zero) == One
    ensures Evolve(n, cexp, spectrum, dens, 0.0) == dens
  {
    var p := Phases(n, cexp, spectrum, 0.0);
    var d := Evolve(n, cexp, spectrum, dens, 0.0);
    forall j, k | 0 <= j < n && 0 <= k < n
      ensures d[j][k] == dens[j][k]
    {
      assert PhaseExponent(spectrum[j], 0.0) == Zero;
      assert PhaseExponent(spectrum[k], 0.0) == Zero;
      EvolveEntry(n, p, dens, j, k);
      MulOne(dens[j][k]);
    }
    MatrixEquality(n, d, dens);
  }

  /** Evolution keeps a Hermitian matrix Hermitian, whatever the phases. */
  lemma EvolveHermitian(n: nat, cexp: Complex -> Complex, spectrum: seq<real>, dens: Matrix, t: real)
    requires |spectrum| == n && IsMatrix(dens, n) && Hermitian(n, dens)
    ensures Hermitian(n, Evolve(n, cexp, spectrum, dens, t))
  {
    SandwichHermitian(n, EvolutionOperator(n, cexp, spectrum, t), dens);
  }

  /** exp(i theta) lies on the unit circle for every real theta. */
  ghost predicate UnitCircle(cexp: Complex -> Complex)
  {
    forall theta: real :: NormSquared(cexp(Complex(0.0, theta))) == 1.0
  }

  /** With unit-modulus phases, evolution keeps every diagonal entry and so the trace. */
  lemma EvolvePreservesTrace(n: nat, cexp: Complex -> Complex, spectrum: seq<real>, dens: Matrix, t: real)
    requires |spectrum| == n && IsMatrix(dens, n)
    requires UnitCircle(cexp)
    ensures DiagOf(n, Evolve(n, cexp, spectrum, dens, t)) == DiagOf(n, dens)
    ensures Trace(n, Evolve(n, cexp, spectrum, dens, t)) == Trace(n, dens)
  {
    var p := Phases(n, cexp, spectrum, t);
    var d := Evolve(n, cexp, spectrum, dens, t);
    forall j | 0 <= j < n
      ensures DiagOf(n, d)[j] == DiagOf(n, dens)[j]
    {
      EvolveEntry(n, p, dens, j, j);
      assert NormSquared(cexp(Complex(0.0, -(spectrum[j] * t)))) == 1.0;
      SandwichUnit(p[j], dens[j][j]);
    }
    assert DiagOf(n, d) == DiagOf(n, dens);
  }

  // ---------------------------------------------------------------------
  // Rotation and correction

  /**
   * Correcting twice gives the same matrix as correcting once exactly when the diagonal is
   * already real (the correction doubles a non-zero imaginary diagonal every time).
   */
  lemma CorrectIdempotentIff(n: nat, c: Matrix)
    requires IsMatrix(c, n)
    ensures Correct(n, Correct(n, c)) == Correct(n, c) <==> RealDiagonal(n, c)
  {
    var once := Correct(n, c);
    var twice := Correct(n, once);
    if RealDiagonal(n, c) {
      forall i, j | 0 <= i < n && 0 <= j < n
        ensures twice[i][j] == once[i][j]
      {
      }
      MatrixEquality(n, twice, once);
    } else {
      var i :| 0 <= i < n && c[i][i].im != 0.0;
      assert twice[i][i].im == 4.0 * c[i][i].im != 2.0 * c[i][i].im == once[i][i].im;
    }
  }

  /** The 1 x 1 matrix [i]: one correction gives [2i], a second gives [4i]. */
  lemma CorrectNotIdempotentExample()
    ensures Correct(1, [[Complex(0.0, 1.0)]]) == [[Complex(0.0, 2.0)]]
    ensures Correct(1, Correct(1, [[Complex(0.0, 1.0)]])) == [[Complex(0.0, 4.0)]]
  {
    var c := [[Complex(0.0, 1.0)]];
    MatrixEquality(1, Correct(1, c), [[Complex(0.0, 2.0)]]);
    MatrixEquality(1, Correct(1, [[Complex(0.0, 2.0)]]), [[Complex(0.0, 4.0)]]);
  }

  /**
   * On a Hermitian matrix the correction is idempotent, and after rescaling the result is
   * Hermitian again, with twice the real diagonal and purely imaginary off-diagonal entries.
   */
  lemma CorrectHermitian(n: nat, c: Matrix)
    requires IsMatrix(c, n) && Hermitian(n, c)
    ensures Correct(n, Correct(n, c)) == Correct(n, c)
    ensures Hermitian(n, Rescale(n, Correct(n, c)))
    ensures forall i, j :: 0 <= i < n && 0 <= j < n ==>
      Rescale(n, Correct(n, c))[i][j] == if i == j then Complex(2.0 * c[i][i].re, 0.0) else Complex(0.0, 2.0 * c[i][j].im)
  {
    HermitianRealDiagonal(n, c);
    CorrectIdempotentIff(n, c);
    var r := Rescale(n, Correct(n, c));
    forall i, j | 0 <= i < n && 0 <= j < n
      ensures r[i][j] == Conj(r[j][i])
    {
      assert c[i][j] == Conj(c[j][i]);
    }
  }

  // ---------------------------------------------------------------------
  // The whole step

  /**
   * For a Hermitian density matrix the matrix handed to the correction is Hermitian at every
   * time, so its diagonal is real and the correction is idempotent on it.
   */
  lemma RotatedHermitian(n: nat, cexp: Complex -> Complex, spectrum: seq<real>, eigvecs: Matrix, dens: Matrix, t: real)
    requires |spectrum| == n && IsMatrix(eigvecs, n) && IsMatrix(dens, n) && Hermitian(n, dens)
    ensures Hermitian(n, RotatedAt(n, cexp, spectrum, eigvecs, dens, t))
    ensures RealDiagonal(n, RotatedAt(n, cexp, spectrum, eigvecs, dens, t))
    ensures Correct(n, Correct(n, RotatedAt(n, cexp, spectrum, eigvecs, dens, t)))
         == Correct(n, RotatedAt(n, cexp, spectrum, eigvecs, dens, t))
  {
    var c := RotatedAt(n, cexp, spectrum, eigvecs, dens, t);
    EvolveHermitian(n, cexp, spectrum, dens, t);
    SandwichHermitian(n, eigvecs, Evolve(n, cexp, spectrum, dens, t));
    HermitianRealDiagonal(n, c);
    CorrectIdempotentIff(n, c);
  }

  /**
   * For a Hermitian density matrix the correlation matrix at every time is Hermitian (its entries
   * are then those CorrectHermitian gives).
   */
  lemma CorrelationHermitian(n: nat, cexp: Complex -> Complex, spectrum: seq<real>, eigvecs: Matrix, dens: Matrix, t: real)
    requires |spectrum| == n && IsMatrix(eigvecs, n) && IsMatrix(dens, n) && Hermitian(n, dens)
    ensures Hermitian(n, CorrelationAt(n, cexp, spectrum, eigvecs, dens, t))
  {
    var c := RotatedAt(n, cexp, spectrum, eigvecs, dens, t);
    assert Hermitian(n, c) by {
      RotatedHermitian(n, cexp, spectrum, eigvecs, dens, t);
    }
    CorrectHermitian(n, c);
  }

  /**
   * At t = 0 the matrix handed to the correction is the rotated density matrix itself.
   */
  lemma CorrelationAtTimeZero(n: nat, cexp: Complex -> Complex, spectrum: seq<real>, eigvecs: Matrix, dens: Matrix)
    requires |spectrum| == n && IsMatrix(eigvecs, n) && IsMatrix(dens, n)
    requires cexp(Zero) == One
    ensures RotatedAt(n, cexp, spectrum, eigvecs, dens, 0.0) == Sandwich(n, eigvecs, dens)
    ensures CorrelationAt(n, cexp, spectrum, eigvecs, dens, 0.0) == Rescale(n, Correct(n, Sandwich(n, eigvecs, dens)))
  {
    EvolveAtTimeZero(n, cexp, spectrum, dens);
  }
}
