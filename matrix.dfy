/** Dense square complex matrices as sequences of rows, and the numpy operations the pipeline uses on them. */
module Matrices {
  import opened ComplexNumbers

  type Matrix = seq<seq<Complex>>

  /** m has n rows of n entries each. */
  predicate IsMatrix(m: Matrix, n: nat)
  {
    |m| == n && forall i :: 0 <= i < n ==> |m[i]| == n
  }

  /** The sum of a vector of complex numbers (numpy's `sum`). */
  function Sum(s: seq<Complex>): Complex
  {
    if |s| == 0 then Zero else Add(Sum(s[..|s| - 1]), s[|s| - 1])
  }

  /** The terms a[i][k] * b[k][j], k < n, of one entry of a product. */
  function Products(n: nat, a: Matrix, b: Matrix, i: nat, j: nat): (r: seq<Complex>)
    requires IsMatrix(a, n) && IsMatrix(b, n) && i < n && j < n
    ensures |r| == n && forall k :: 0 <= k < n ==> r[k] == Mul(a[i][k], b[k][j])
  {
    seq(n, k requires 0 <= k < n => Mul(a[i][k], b[k][j]))
  }

  /** `np.dot` of two n x n matrices. */
  function MatMul(n: nat, a: Matrix, b: Matrix): (r: Matrix)
    requires IsMatrix(a, n) && IsMatrix(b, n)
    ensures IsMatrix(r, n)
    ensures forall i, j :: 0 <= i < n && 0 <= j < n ==> r[i][j] == Sum(Products(n, a, b, i, j))
  {
    seq(n, i requires 0 <= i < n => seq(n, j requires 0 <= j < n => Sum(Products(n, a, b, i, j))))
  }

  /** The conjugate transpose (numpy's `getH`). */
  function ConjTranspose(n: nat, a: Matrix): (r: Matrix)
    requires IsMatrix(a, n)
    ensures IsMatrix(r, n)
    ensures forall i, j :: 0 <= i < n && 0 <= j < n ==> r[i][j] == Conj(a[j][i])
  {
    seq(n, i requires 0 <= i < n => seq(n, j requires 0 <= j < n => Conj(a[j][i])))
  }

  /** `np.diag` of a vector: the vector on the diagonal, zero elsewhere. */
  function Diag(n: nat, d: seq<Complex>): (r: Matrix)
    requires |d| == n
    ensures IsMatrix(r, n)
    ensures forall i :: 0 <= i < n ==> r[i][i] == d[i]
    ensures forall i, j :: 0 <= i < n && 0 <= j < n && i != j ==> r[i][j] == Zero
  {
    seq(n, i requires 0 <= i < n => seq(n, j requires 0 <= j < n => if i == j then d[i] else Zero))
  }

  /** `np.diag` of a matrix: its diagonal as a vector. */
  function DiagOf(n: nat, a: Matrix): (r: seq<Complex>)
    requires IsMatrix(a, n)
    ensures |r| == n && forall i :: 0 <= i < n ==> r[i] == a[i][i]
  {
    seq(n, i requires 0 <= i < n => a[i][i])
  }

  function MatAdd(n: nat, a: Matrix, b: Matrix): (r: Matrix)
    requires IsMatrix(a, n) && IsMatrix(b, n)
    ensures IsMatrix(r, n)
    ensures forall i, j :: 0 <= i < n && 0 <= j < n ==> r[i][j] == Add(a[i][j], b[i][j])
  {
    seq(n, i requires 0 <= i < n => seq(n, j requires 0 <= j < n => Add(a[i][j], b[i][j])))
  }

  /** Entrywise multiplication by a real scalar. */
  function MatScale(n: nat, x: real, a: Matrix): (r: Matrix)
    requires IsMatrix(a, n)
    ensures IsMatrix(r, n)
    ensures forall i, j :: 0 <= i < n && 0 <= j < n ==> r[i][j] == Scale(x, a[i][j])
  {
    seq(n, i requires 0 <= i < n => seq(n, j requires 0 <= j < n => Scale(x, a[i][j])))
  }

  /** `1j * np.imag(a)`: the imaginary parts, put back on the imaginary axis. */
  function ImagTimesI(n: nat, a: Matrix): (r: Matrix)
    requires IsMatrix(a, n)
    ensures IsMatrix(r, n)
    ensures forall i, j :: 0 <= i < n && 0 <= j < n ==> r[i][j] == Complex(0.0, a[i][j].im)
  {
    seq(n, i requires 0 <= i < n => seq(n, j requires 0 <= j < n => Complex(0.0, a[i][j].im)))
  }

  function Ones(n: nat): (r: seq<Complex>)
    ensures |r| == n && forall i :: 0 <= i < n ==> r[i] == One
  {
    seq(n, i requires 0 <= i < n => One)
  }

  function Identity(n: nat): (r: Matrix)
    ensures IsMatrix(r, n)
  {
    Diag(n, Ones(n))
  }

  function Trace(n: nat, a: Matrix): Complex
    requires IsMatrix(a, n)
  {
    Sum(DiagOf(n, a))
  }

  predicate Hermitian(n: nat, a: Matrix)
    requires IsMatrix(a, n)
  {
    forall i, j :: 0 <= i < n && 0 <= j < n ==> a[i][j] == Conj(a[j][i])
  }

  predicate RealDiagonal(n: nat, a: Matrix)
    requires IsMatrix(a, n)
  {
    forall i :: 0 <= i < n ==> a[i][i].im == 0.0
  }

  /** Two n x n matrices with the same entries are equal. */
  lemma MatrixEquality(n: nat, a: Matrix, b: Matrix)
    requires IsMatrix(a, n) && IsMatrix(b, n)
    requires forall i, j :: 0 <= i < n && 0 <= j < n ==> a[i][j] == b[i][j]
    ensures a == b
  {
    forall i | 0 <= i < n
      ensures a[i] == b[i]
    {
      assert |a[i]| == |b[i]| == n;
      assert forall j :: 0 <= j < n ==> a[i][j] == b[i][j];
    }
  }

  /** A Hermitian matrix has a real diagonal. */
  lemma HermitianRealDiagonal(n: nat, a: Matrix)
    requires IsMatrix(a, n) && Hermitian(n, a)
    ensures RealDiagonal(n, a)
  {
    forall i | 0 <= i < n
      ensures a[i][i].im == 0.0
    {
      assert a[i][i] == Conj(a[i][i]);
    }
  }

  // ---------------------------------------------------------------------
  // Sums

  /** A sum whose terms are all zero but one is that term. */
  lemma {:induction false} SumSingle(s: seq<Complex>, k: nat)
    requires k < |s|
    requires forall i :: 0 <= i < |s| && i != k ==> s[i] == Zero
    ensures Sum(s) == s[k]
  {
    var m := |s| - 1;
    if m == k {
      SumZero(s[..m]);
    } else {
      SumSingle(s[..m], k);
    }
  }

  lemma {:induction false} SumZero(s: seq<Complex>)
    requires forall i :: 0 <= i < |s| ==> s[i] == Zero
    ensures Sum(s) == Zero
  {
    if |s| > 0 {
      SumZero(s[..|s| - 1]);
    }
  }

  function AddAll(s: seq<Complex>, t: seq<Complex>): (r: seq<Complex>)
    requires |s| == |t|
    ensures |r| == |s| && forall i :: 0 <= i < |s| ==> r[i] == Add(s[i], t[i])
  {
    seq(|s|, i requires 0 <= i < |s| => Add(s[i], t[i]))
  }

  function ConjAll(s: seq<Complex>): (r: seq<Complex>)
    ensures |r| == |s| && forall i :: 0 <= i < |s| ==> r[i] == Conj(s[i])
  {
    seq(|s|, i requires 0 <= i < |s| => Conj(s[i]))
  }

  function MulAllRight(s: seq<Complex>, c: Complex): (r: seq<Complex>)
    ensures |r| == |s| && forall i :: 0 <= i < |s| ==> r[i] == Mul(s[i], c)
  {
    seq(|s|, i requires 0 <= i < |s| => Mul(s[i], c))
  }

  /** Termwise addition of two sums of equal length. */
  lemma {:induction false} SumAdd(s: seq<Complex>, t: seq<Complex>)
    requires |s| == |t|
    ensures Add(Sum(s), Sum(t)) == Sum(AddAll(s, t))
  {
    if |s| > 0 {
      var m := |s| - 1;
      SumAdd(s[..m], t[..m]);
      assert AddAll(s, t)[..m] == AddAll(s[..m], t[..m]);
    }
  }

  /** The conjugate of a sum is the sum of the conjugates. */
  lemma {:induction false} SumConj(s: seq<Complex>)
    ensures Conj(Sum(s)) == Sum(ConjAll(s))
  {
    if |s| > 0 {
      var m := |s| - 1;
      SumConj(s[..m]);
      assert ConjAll(s)[..m] == ConjAll(s[..m]);
    }
  }

  /** A sum times c is the sum of its terms times c. */
  lemma {:induction false} SumMulRight(s: seq<Complex>, c: Complex)
    ensures Mul(Sum(s), c) == Sum(MulAllRight(s, c))
  {
    if |s| == 0 {
      MulZero(c);
    } else {
      var m := |s| - 1;
      SumMulRight(s[..m], c);
      assert MulAllRight(s, c)[..m] == MulAllRight(s[..m], c);
      MulAddRight(Sum(s[..m]), s[m], c);
    }
  }

  /** The row sums of an r x c array. */
  function RowSums(a: seq<seq<Complex>>): (r: seq<Complex>)
    ensures |r| == |a| && forall k :: 0 <= k < |a| ==> r[k] == Sum(a[k])
  {
    seq(|a|, k requires 0 <= k < |a| => Sum(a[k]))
  }

  /** Column l of an r x c array. */
  function Column(a: seq<seq<Complex>>, c: nat, l: nat): (r: seq<Complex>)
    requires forall k :: 0 <= k < |a| ==> |a[k]| == c
    requires l < c
    ensures |r| == |a| && forall k :: 0 <= k < |a| ==> r[k] == a[k][l]
  {
    seq(|a|, k requires 0 <= k < |a| => a[k][l])
  }

  /** The column sums of an r x c array. */
  function ColumnSums(a: seq<seq<Complex>>, c: nat): (r: seq<Complex>)
    requires forall k :: 0 <= k < |a| ==> |a[k]| == c
    ensures |r| == c && forall l :: 0 <= l < c ==> r[l] == Sum(Column(a, c, l))
  {
    seq(c, l requires 0 <= l < c => Sum(Column(a, c, l)))
  }

  /** A finite double sum may be taken in either order. */
  lemma {:induction false} SumSwap(a: seq<seq<Complex>>, c: nat)
    requires forall k :: 0 <= k < |a| ==> |a[k]| == c
    ensures Sum(RowSums(a)) == Sum(ColumnSums(a, c))
  {
    if |a| == 0 {
      SumZero(ColumnSums(a, c));
    } else {
      var m := |a| - 1;
      var init := a[..m];
      var last := a[m];
      var rows := RowSums(a);
      var cols := ColumnSums(init, c);
      SumSwap(init, c);
      assert rows[..m] == RowSums(init);
      assert Sum(rows) == Add(Sum(cols), Sum(last));
      ColumnSumsSnoc(a, c);
      SumAdd(cols, last);
    }
  }

  /** Adding a last row adds it to the column sums. */
  lemma ColumnSumsSnoc(a: seq<seq<Complex>>, c: nat)
    requires forall k :: 0 <= k < |a| ==> |a[k]| == c
    requires |a| > 0
    ensures ColumnSums(a, c) == AddAll(ColumnSums(a[..|a| - 1], c), a[|a| - 1])
  {
    var m := |a| - 1;
    var init := a[..m];
    var cols := ColumnSums(init, c);
    forall l | 0 <= l < c
      ensures ColumnSums(a, c)[l] == AddAll(cols, a[m])[l]
    {
      assert Column(a, c, l)[..m] == Column(init, c, l);
    }
  }

  // ---------------------------------------------------------------------
  // Products with diagonal matrices

  /** Multiplying by a diagonal matrix on the right scales column j by d[j]. */
  lemma MulDiagRight(n: nat, a: Matrix, d: seq<Complex>, i: nat, j: nat)
    requires IsMatrix(a, n) && |d| == n && i < n && j < n
    ensures MatMul(n, a, Diag(n, d))[i][j] == Mul(a[i][j], d[j])
  {
    var terms := Products(n, a, Diag(n, d), i, j);
    forall k | 0 <= k < n && k != j
      ensures terms[k] == Zero
    {
      MulZero(a[i][k]);
    }
    SumSingle(terms, j);
  }

  /** Multiplying by a diagonal matrix on the left scales row i by d[i]. */
  lemma MulDiagLeft(n: nat, d: seq<Complex>, a: Matrix, i: nat, j: nat)
    requires IsMatrix(a, n) && |d| == n && i < n && j < n
    ensures MatMul(n, Diag(n, d), a)[i][j] == Mul(d[i], a[i][j])
  {
    var terms := Products(n, Diag(n, d), a, i, j);
    forall k | 0 <= k < n && k != i
      ensures terms[k] == Zero
    {
      MulZero(a[k][j]);
    }
    SumSingle(terms, i);
  }

  /** The conjugate transpose of a diagonal matrix is the diagonal of the conjugates. */
  lemma ConjTransposeDiag(n: nat, d: seq<Complex>)
    requires |d| == n
    ensures ConjTranspose(n, Diag(n, d)) == Diag(n, ConjAll(d))
  {
    var l := ConjTranspose(n, Diag(n, d));
    var r := Diag(n, ConjAll(d));
    forall i, j | 0 <= i < n && 0 <= j < n
      ensures l[i][j] == r[i][j]
    {
    }
    MatrixEquality(n, l, r);
  }

  // ---------------------------------------------------------------------
  // Products that keep a matrix Hermitian

  /** The terms of ((v h) v^H)[i][j]: row k holds v[i][l] h[l][k] conj(v[j][k]) for every l. */
  function SandwichTerms(n: nat, v: Matrix, h: Matrix, i: nat, j: nat): (t: seq<seq<Complex>>)
    requires IsMatrix(v, n) && IsMatrix(h, n) && i < n && j < n
    ensures |t| == n && forall k :: 0 <= k < n ==> |t[k]| == n
    ensures forall k :: 0 <= k < n ==> t[k] == MulAllRight(Products(n, v, h, i, k), Conj(v[j][k]))
  {
    seq(n, k requires 0 <= k < n => MulAllRight(Products(n, v, h, i, k), Conj(v[j][k])))
  }

  /** An entry of (v h) v^H as a double sum. */
  lemma SandwichEntry(n: nat, v: Matrix, h: Matrix, i: nat, j: nat)
    requires IsMatrix(v, n) && IsMatrix(h, n) && i < n && j < n
    ensures MatMul(n, MatMul(n, v, h), ConjTranspose(n, v))[i][j] == Sum(RowSums(SandwichTerms(n, v, h, i, j)))
  {
    var vh := MatMul(n, v, h);
    var vH := ConjTranspose(n, v);
    var t := SandwichTerms(n, v, h, i, j);
    forall k | 0 <= k < n
      ensures Products(n, vh, vH, i, j)[k] == RowSums(t)[k]
    {
      SumMulRight(Products(n, v, h, i, k), Conj(v[j][k]));
    }
    assert Products(n, vh, vH, i, j) == RowSums(t);
  }

  /** v h v^H, multiplied left to right: a change of basis by v. */
  function Sandwich(n: nat, v: Matrix, h: Matrix): (r: Matrix)
    requires IsMatrix(v, n) && IsMatrix(h, n)
    ensures IsMatrix(r, n)
  {
    MatMul(n, MatMul(n, v, h), ConjTranspose(n, v))
  }

  /** v h v^H is Hermitian whenever h is. */
  lemma SandwichHermitian(n: nat, v: Matrix, h: Matrix)
    requires IsMatrix(v, n) && IsMatrix(h, n) && Hermitian(n, h)
    ensures Hermitian(n, Sandwich(n, v, h))
  {
    var c := MatMul(n, MatMul(n, v, h), ConjTranspose(n, v));
    forall i, j | 0 <= i < n && 0 <= j < n
      ensures c[i][j] == Conj(c[j][i])
    {
      SandwichHermitianAt(n, v, h, i, j);
    }
  }

  lemma SandwichHermitianAt(n: nat, v: Matrix, h: Matrix, i: nat, j: nat)
    requires IsMatrix(v, n) && IsMatrix(h, n) && Hermitian(n, h) && i < n && j < n
    ensures MatMul(n, MatMul(n, v, h), ConjTranspose(n, v))[i][j]
         == Conj(MatMul(n, MatMul(n, v, h), ConjTranspose(n, v))[j][i])
  {
    var t := SandwichTerms(n, v, h, i, j);
    var u := SandwichTerms(n, v, h, j, i);
    SandwichEntry(n, v, h, i, j);
    SandwichEntry(n, v, h, j, i);
    SandwichSumsConj(n, v, h, i, j);
  }

  lemma SandwichSumsConj(n: nat, v: Matrix, h: Matrix, i: nat, j: nat)
    requires IsMatrix(v, n) && IsMatrix(h, n) && Hermitian(n, h) && i < n && j < n
    ensures Sum(RowSums(SandwichTerms(n, v, h, i, j))) == Conj(Sum(RowSums(SandwichTerms(n, v, h, j, i))))
  {
    SandwichConjTerms(n, v, h, i, j);
    SwappedConjugateSums(SandwichTerms(n, v, h, i, j), SandwichTerms(n, v, h, j, i), n);
  }

  /** If conjugating u's row sums gives t's column sums, t's total is the conjugate of u's. */
  lemma SwappedConjugateSums(t: seq<seq<Complex>>, u: seq<seq<Complex>>, n: nat)
    requires forall k :: 0 <= k < |t| ==> |t[k]| == n
    requires ConjAll(RowSums(u)) == ColumnSums(t, n)
    ensures Sum(RowSums(t)) == Conj(Sum(RowSums(u)))
  {
    SumSwap(t, n);
    SumConj(RowSums(u));
  }

  /** Conjugating the terms of entry (j, i) row by row gives the terms of entry (i, j) column by column. */
  lemma SandwichConjTerms(n: nat, v: Matrix, h: Matrix, i: nat, j: nat)
    requires IsMatrix(v, n) && IsMatrix(h, n) && Hermitian(n, h) && i < n && j < n
    ensures ConjAll(RowSums(SandwichTerms(n, v, h, j, i))) == ColumnSums(SandwichTerms(n, v, h, i, j), n)
  {
    var t := SandwichTerms(n, v, h, i, j);
    var u := SandwichTerms(n, v, h, j, i);
    forall k | 0 <= k < n
      ensures ConjAll(RowSums(u))[k] == ColumnSums(t, n)[k]
    {
      SandwichConjRow(n, v, h, i, j, k);
      SumConj(u[k]);
    }
  }

  lemma SandwichConjRow(n: nat, v: Matrix, h: Matrix, i: nat, j: nat, k: nat)
    requires IsMatrix(v, n) && IsMatrix(h, n) && Hermitian(n, h) && i < n && j < n && k < n
    ensures ConjAll(SandwichTerms(n, v, h, j, i)[k]) == Column(SandwichTerms(n, v, h, i, j), n, k)
  {
    var t := SandwichTerms(n, v, h, i, j);
    var u := SandwichTerms(n, v, h, j, i);
    forall l | 0 <= l < n
      ensures ConjAll(u[k])[l] == Column(t, n, k)[l]
    {
      assert h[l][k] == Conj(h[k][l]);
      ConjSandwichTerm(v[j][l], h[l][k], h[k][l], v[i][k]);
    }
  }

  /** conj(a x conj(c)) == c y conj(a) when y == conj(x). */
  lemma ConjSandwichTerm(a: Complex, x: Complex, y: Complex, c: Complex)
    requires x == Conj(y)
    ensures Conj(Mul(Mul(a, x), Conj(c))) == Mul(Mul(c, y), Conj(a))
  {
    calc {
      Conj(Mul(Mul(a, x), Conj(c)));
      { ConjMul(Mul(a, x), Conj(c)); ConjMul(a, x); }
      Mul(Mul(Conj(a), y), c);
      { MulComm(Mul(Conj(a), y), c); }
      Mul(c, Mul(Conj(a), y));
      { MulComm(Conj(a), y); }
      Mul(c, Mul(y, Conj(a)));
      { MulAssoc(c, y, Conj(a)); }
      Mul(Mul(c, y), Conj(a));
    }
  }

  lemma ConjTransposeIdentity(n: nat)
    ensures ConjTranspose(n, Identity(n)) == Identity(n)
  {
    assert ConjAll(Ones(n)) == Ones(n);
    ConjTransposeDiag(n, Ones(n));
  }

  lemma IdentitySquared(n: nat)
    ensures MatMul(n, Identity(n), Identity(n)) == Identity(n)
  {
    forall r, c | 0 <= r < n && 0 <= c < n
      ensures MatMul(n, Identity(n), Identity(n))[r][c] == Identity(n)[r][c]
    {
      MulDiagLeft(n, Ones(n), Identity(n), r, c);
      MulOne(Identity(n)[r][c]);
    }
    MatrixEquality(n, MatMul(n, Identity(n), Identity(n)), Identity(n));
  }

  /** Taking the conjugate transpose twice gives the matrix back. */
  lemma ConjTransposeInvolution(n: nat, a: Matrix)
    requires IsMatrix(a, n)
    ensures ConjTranspose(n, ConjTranspose(n, a)) == a
  {
    MatrixEquality(n, ConjTranspose(n, ConjTranspose(n, a)), a);
  }
}
