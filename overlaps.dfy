/** The overlap matrix between the reference (no gradient) and the gradient eigenbases. */
module Overlaps {
  import opened ComplexNumbers
  import opened Matrices
  import opened Lattice

  /** The terms conj(grad[i][c]) * nonGrad[i][r] of one overlap, i < n. */
  function OverlapTerms(n: nat, grad: Matrix, nonGrad: Matrix, r: nat, c: nat): (s: seq<Complex>)
    requires IsMatrix(grad, n) && IsMatrix(nonGrad, n) && r < n && c < n
    ensures |s| == n && forall i :: 0 <= i < n ==> s[i] == Mul(Conj(grad[i][c]), nonGrad[i][r])
  {
    seq(n, i requires 0 <= i < n => Mul(Conj(grad[i][c]), nonGrad[i][r]))
  }

  /** Entry (r, c): the inner product of gradient eigenvector c with reference eigenvector r. */
  function Overlap(n: nat, grad: Matrix, nonGrad: Matrix, r: nat, c: nat): Complex
    requires IsMatrix(grad, n) && IsMatrix(nonGrad, n) && r < n && c < n
  {
    Sum(OverlapTerms(n, grad, nonGrad, r, c))
  }

  /** The whole overlap matrix, entry by entry. */
  function OverlapMatrix(n: nat, grad: Matrix, nonGrad: Matrix): (o: Matrix)
    requires IsMatrix(grad, n) && IsMatrix(nonGrad, n)
    ensures IsMatrix(o, n)
    ensures forall r, c :: 0 <= r < n && 0 <= c < n ==> o[r][c] == Overlap(n, grad, nonGrad, r, c)
  {
    seq(n, r requires 0 <= r < n => seq(n, c requires 0 <= c < n => Overlap(n, grad, nonGrad, r, c)))
  }

  /** The contents of a two-dimensional array as a matrix value. */
  function Elements(a: array2<Complex>): (m: Matrix)
    reads a
    ensures |m| == a.Length0
    ensures forall r :: 0 <= r < a.Length0 ==> |m[r]| == a.Length1
    ensures forall r, c :: 0 <= r < a.Length0 && 0 <= c < a.Length1 ==> m[r][c] == a[r, c]
  {
    seq(a.Length0, r requires 0 <= r < a.Length0 reads a =>
      seq(a.Length1, c requires 0 <= c < a.Length1 reads a => a[r, c]))
  }

  /**
   * Fills a zero-initialised 2L^2 x 2L^2 array column by column with the overlaps: for each
   * column m, for each row n, entry (n, m) is the inner product of the two eigenvectors.
   */
  method ComputeOverlaps(L: int, grad: Matrix, nonGrad: Matrix) returns (overlaps: array2<Complex>)
    requires IsMatrix(grad, Dim(L)) && IsMatrix(nonGrad, Dim(L))
    ensures fresh(overlaps)
    ensures overlaps.Length0 == Dim(L) && overlaps.Length1 == Dim(L)
    ensures forall r, c :: 0 <= r < Dim(L) && 0 <= c < Dim(L) ==> overlaps[r, c] == Overlap(Dim(L), grad, nonGrad, r, c)
    ensures Elements(overlaps) == OverlapMatrix(Dim(L), grad, nonGrad)
  {
    var dim := Dim(L);
    overlaps := new Complex[dim, dim]((r, c) => Zero);
    for m := 0 to dim
      invariant forall r, c :: 0 <= r < dim && 0 <= c < m ==> overlaps[r, c] == Overlap(dim, grad, nonGrad, r, c)
    {
      for n := 0 to dim
        invariant forall r, c :: 0 <= r < dim && 0 <= c < m ==> overlaps[r, c] == Overlap(dim, grad, nonGrad, r, c)
        invariant forall r :: 0 <= r < n ==> overlaps[r, m] == Overlap(dim, grad, nonGrad, r, m)
      {
        overlaps[n, m] := Overlap(dim, grad, nonGrad, n, m);
      }
    }
    MatrixEquality(dim, Elements(overlaps), OverlapMatrix(dim, grad, nonGrad));
  }

  /** The overlap matrix is the transpose of grad^H nonGrad. */
  lemma OverlapIsProduct(n: nat, grad: Matrix, nonGrad: Matrix, r: nat, c: nat)
    requires IsMatrix(grad, n) && IsMatrix(nonGrad, n) && r < n && c < n
    ensures OverlapMatrix(n, grad, nonGrad)[r][c] == MatMul(n, ConjTranspose(n, grad), nonGrad)[c][r]
  {
    assert OverlapTerms(n, grad, nonGrad, r, c) == Products(n, ConjTranspose(n, grad), nonGrad, c, r);
  }

  /** u^H u is the identity: the columns of u are orthonormal. */
  predicate Unitary(n: nat, u: Matrix)
    requires IsMatrix(u, n)
  {
    MatMul(n, ConjTranspose(n, u), u) == Identity(n)
  }

  /**
   * When both systems have the same orthonormal eigenvectors (identical Hamiltonians), the
   * overlap matrix is the identity, and so it is unitary.
   */
  lemma SameBasisOverlapIsIdentity(n: nat, e: Matrix)
    requires IsMatrix(e, n) && Unitary(n, e)
    ensures OverlapMatrix(n, e, e) == Identity(n)
    ensures Unitary(n, OverlapMatrix(n, e, e))
  {
    var o := OverlapMatrix(n, e, e);
    forall r, c | 0 <= r < n && 0 <= c < n
      ensures o[r][c] == Identity(n)[r][c]
    {
      OverlapIsProduct(n, e, e, r, c);
    }
    MatrixEquality(n, o, Identity(n));
    IdentityIsUnitary(n);
  }

  lemma IdentityIsUnitary(n: nat)
    ensures Unitary(n, Identity(n))
  {
    ConjTransposeIdentity(n);
    IdentitySquared(n);
  }
}
