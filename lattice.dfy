/** Sizes of the honeycomb system of linear size L. */
module Lattice {

  /** L^2: the number of entries in each occupation branch. */
  function BranchLength(L: int): nat
  {
    L * L
  }

  /** 2 L^2: the dimension of every eigenvector, overlap, density and correlation matrix. */
  function Dim(L: int): nat
  {
    2 * BranchLength(L)
  }
}
