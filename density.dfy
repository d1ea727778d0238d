/** The reference thermal density matrix, re-expressed in the gradient system's eigenbasis. */
module Density {
  import opened ComplexNumbers
  import opened Matrices

  /** A real vector upcast to complex entries. */
  function RealVector(occ: seq<real>): (v: seq<Complex>)
    ensures |v| == |occ| && forall i :: 0 <= i < |occ| ==> v[i] == FromReal(occ[i])
  {
    seq(|occ|, i requires 0 <= i < |occ| => FromReal(occ[i]))
  }

  /** `np.diag` of the combined occupation vector. */
  function OccupationMatrix(n: nat, occ: seq<real>): (d: Matrix)
    requires |occ| == n
    ensures IsMatrix(d, n)
    ensures forall i, j :: 0 <= i < n && 0 <= j < n ==> d[i][j] == if i == j then FromReal(occ[i]) else Zero
  {
    Diag(n, RealVector(occ))
  }

  /** overlaps^H . diag(occ) . overlaps, multiplied left to right. */
  function DensityMatrix(n: nat, overlaps: Matrix, occ: seq<real>): (d: Matrix)
    requires IsMatrix(overlaps, n) && |occ| == n
    ensures IsMatrix(d, n)
  {
    MatMul(n, MatMul(n, ConjTranspose(n, overlaps), OccupationMatrix(n, occ)), overlaps)
  }

  /** The occupation matrix is diagonal, with the occupations on its diagonal, and Hermitian. */
  lemma OccupationMatrixDiagonal(n: nat, occ: seq<real>)
    requires |occ| == n
    ensures forall i, j :: 0 <= i < n && 0 <= j < n ==>
      OccupationMatrix(n, occ)[i][j] == if i == j then FromReal(occ[i]) else Zero
    ensures Hermitian(n, OccupationMatrix(n, occ))
  {
  }

  /** The terms conj(overlaps[i][j]) * occ[i] * overlaps[i][k] of density entry (j, k). */
  function DensityTerms(n: nat, overlaps: Matrix, occ: seq<real>, j: nat, k: nat): (s: seq<Complex>)
    requires IsMatrix(overlaps, n) && |occ| == n && j < n && k < n
    ensures |s| == n
    ensures forall i :: 0 <= i < n ==> s[i] == Mul(Mul(Conj(overlaps[i][j]), FromReal(occ[i])), overlaps[i][k])
  {
    seq(n, i requires 0 <= i < n => Mul(Mul(Conj(overlaps[i][j]), FromReal(occ[i])), overlaps[i][k]))
  }

  /** Density entry (j, k) is the occupation-weighted inner product of overlap columns j and k. */
  lemma DensityEntry(n: nat, overlaps: Matrix, occ: seq<real>, j: nat, k: nat)
    requires IsMatrix(overlaps, n) && |occ| == n && j < n && k < n
    ensures DensityMatrix(n, overlaps, occ)[j][k] == Sum(DensityTerms(n, overlaps, occ, j, k))
  {
    var left := MatMul(n, ConjTranspose(n, overlaps), OccupationMatrix(n, occ));
    forall i | 0 <= i < n
      ensures Products(n, left, overlaps, j, k)[i] == DensityTerms(n, overlaps, occ, j, k)[i]
    {
      MulDiagRight(n, ConjTranspose(n, overlaps), RealVector(occ), j, i);
    }
    assert Products(n, left, overlaps, j, k) == DensityTerms(n, overlaps, occ, j, k);
  }

  /** The density matrix is Hermitian, whatever the overlaps, because the occupations are real. */
  lemma DensityHermitian(n: nat, overlaps: Matrix, occ: seq<real>)
    requires IsMatrix(overlaps, n) && |occ| == n
    ensures Hermitian(n, DensityMatrix(n, overlaps, occ))
  {
    var v := ConjTranspose(n, overlaps);
    ConjTransposeInvolution(n, overlaps);
    OccupationMatrixDiagonal(n, occ);
    SandwichHermitian(n, v, OccupationMatrix(n, occ));
  }

  /**
   * In the reference basis itself (identity overlaps) the density matrix is the occupation matrix.
   */
  lemma DensityInOwnBasis(n: nat, occ: seq<real>)
    requires |occ| == n
    ensures DensityMatrix(n, Identity(n), occ) == OccupationMatrix(n, occ)
  {
    var d := DensityMatrix(n, Identity(n), occ);
    forall j, k | 0 <= j < n && 0 <= k < n
      ensures d[j][k] == OccupationMatrix(n, occ)[j][k]
    {
      DensityEntryInOwnBasis(n, occ, j, k);
    }
    MatrixEquality(n, d, OccupationMatrix(n, occ));
  }

  lemma DensityEntryInOwnBasis(n: nat, occ: seq<real>, j: nat, k: nat)
    requires |occ| == n && j < n && k < n
    ensures DensityMatrix(n, Identity(n), occ)[j][k] == OccupationMatrix(n, occ)[j][k]
  {
    DensityEntry(n, Identity(n), occ, j, k);
    OwnBasisSum(n, occ, j, k);
    OccupationMatrixDiagonal(n, occ);
  }

  /** With identity overlaps, the terms of density entry (j, k) add up to occ[j] if j == k, else 0. */
  lemma OwnBasisSum(n: nat, occ: seq<real>, j: nat, k: nat)
    requires |occ| == n && j < n && k < n
    ensures Sum(DensityTerms(n, Identity(n), occ, j, k)) == if j == k then FromReal(occ[j]) else Zero
  {
    var terms := DensityTerms(n, Identity(n), occ, j, k);
    OwnBasisTerms(n, occ, j, k);
    SumSingle(terms, j);
  }

  /** With identity overlaps, only term j of density entry (j, k) can be non-zero. */
  lemma OwnBasisTerms(n: nat, occ: seq<real>, j: nat, k: nat)
    requires |occ| == n && j < n && k < n
    ensures forall i :: 0 <= i < n ==>
      DensityTerms(n, Identity(n), occ, j, k)[i] == if i == j && j == k then FromReal(occ[i]) else Zero
  {
    forall i | 0 <= i < n
      ensures DensityTerms(n, Identity(n), occ, j, k)[i] == if i == j && j == k then FromReal(occ[i]) else Zero
    {
      OwnBasisTerm(Identity(n)[i][j], FromReal(occ[i]), Identity(n)[i][k], i == j, i == k);
    }
  }

  /** conj(a) x b for entries a, b of the identity. */
  lemma OwnBasisTerm(a: Complex, x: Complex, b: Complex, aOne: bool, bOne: bool)
    requires a == (if aOne then One else Zero) && b == (if bOne then One else Zero)
    ensures Mul(Mul(Conj(a), x), b) == if aOne && bOne then x else Zero
  {
  }
}
