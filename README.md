# Thermal transport in the Kitaev honeycomb model: the transport pipeline

`code/main.py` takes the fermionic eigenvectors of two Kitaev honeycomb systems on an L x L
lattice: a reference system without a thermal gradient and a system with one. It writes the
reference system's thermal state in the gradient system's eigenbasis. It then evolves that
density matrix in time under the gradient spectrum. At each sample time it rotates the matrix
into the Majorana correlation basis, applies a Hermiticity correction and a factor of two, and
records the real parts of the net currents along x and along the second lattice direction.

This project models that pipeline in exact arithmetic:

- `ComplexNumbers` (`complex.dfy`): complex numbers as pairs of reals.
- `Matrices` (`matrix.dfy`): square matrices as sequences of rows, with products, conjugate
  transpose, diagonal matrices and the generic lemmas. The main one is that `V . H . V^H` is
  Hermitian whenever `H` is.
- `Lattice` (`lattice.dfy`): the `L^2` entries of each occupation branch and the `2 L^2` fermionic modes.
- `Overlaps` (`overlaps.dfy`): the double loop filling the overlap array, as a method over an
  `array2`.
- `Occupations` (`occupations.dfy`): the loop filling the `np.empty` occupation vector from both
  ends, as a method over an `array`.
- `Density` (`density.dfy`): `np.diag` of the occupations and the change of basis
  `O^H . diag(occ) . O`.
- `Evolution` (`evolution.dfy`): one time step. This is the phase evolution `U D U^H`, the
  rotation `E C E^H`, the correction `1j*imag(C) + diag(diag(C))` and the rescale by 2.
- `TimeGrid` (`times.dfy`): the sample times `np.arange(0., tmax, dt)`.
- `Transport` (`pipeline.dfy`): the loop over the sample times and the whole run.

The exponentials `np.exp` on reals and on complex numbers are parameters of the model (`exp`,
`cexp`). A lemma that needs a property of them, such as `exp(0) = 1` or `|exp(i theta)| = 1`, states
it as a precondition. The lattice library's current matrix and total currents are also
parameters (`Transport.CurrentOps`).

The correction at code/main.py:129-130 is not idempotent in general: it adds `diag(diag(C))` to
`1j*imag(C)`, so the imaginary part of every diagonal entry is counted twice.
`Evolution.CorrectIdempotentIff` proves that the correction is idempotent exactly when the diagonal
is real. `Evolution.CorrectNotIdempotentExample` exhibits `[[i]] -> [[2i]] -> [[4i]]`. In exact
arithmetic every matrix the pipeline corrects is Hermitian, so its diagonal is real and the
correction is idempotent on every matrix the pipeline applies it to
(`Transport.PipelineCorrectionIdempotent`).

## Model

| member | source | states |
|---|---|---|
| Overlaps.OverlapMatrix | code/main.py:74-77 | a 2L^2 x 2L^2 matrix whose entry (r, c) is the overlap sum over i of conj(grad[i][c]) * nonGrad[i][r], the inner product of gradient eigenvector c with reference eigenvector r |
| Overlaps.ComputeOverlaps | code/main.py:74-77 | the zero-initialised 2L^2 x 2L^2 array ends with entry (n, m) equal to the sum over i of conj(grad[i][m]) * nonGrad[i][n], for every n and m, and as a whole equals the overlap matrix |
| Overlaps.OverlapIsProduct | code/main.py:77 | the overlap matrix is the transpose of grad^H . nonGrad, entry by entry |
| Overlaps.SameBasisOverlapIsIdentity | code/main.py:74-77 | when both eigenbases are the same orthonormal basis the overlap matrix is the identity, and so unitary |
| Occupations.CombineOccupations | code/main.py:83-86 | the uninitialised vector ends with 2L^2 slots equal to the interleaved occupation vector, so no slot keeps an np.empty value |
| Occupations.Interleaved | code/main.py:83-86 | slot m of the combined vector is exp(ferm_occs[2][m]) and slot 2L^2-1-m is exp(ferm_occs[1][m]) for every m < L^2, and the vector has 2L^2 slots |
| Occupations.EverySlotWrittenOnce | code/main.py:84-86 | the two slots m and 2L^2-1-m of each iteration lie inside the vector, and every slot is written by exactly one iteration |
| Density.OccupationMatrix | code/main.py:87 | np.diag of the combined occupations: the occupations, as complex numbers, on the diagonal and zero elsewhere |
| Density.DensityMatrix | code/main.py:88-89 | overlaps^H . diag(occ) . overlaps is an n x n matrix; its entries are stated by Density.DensityEntry and its Hermiticity by Density.DensityHermitian |
| Density.OccupationMatrixDiagonal | code/main.py:87 | np.diag of the occupations has the occupations on its diagonal, zeros elsewhere, and is Hermitian |
| Density.DensityEntry | code/main.py:88-89 | density entry (j, k) is the sum over i of conj(O[i][j]) * occ[i] * O[i][k] |
| Density.DensityHermitian | code/main.py:87-89 | O^H . diag(occ) . O is Hermitian for every overlap matrix O and real occupations |
| Density.DensityInOwnBasis | code/main.py:87-89 | with identity overlaps the density matrix is the occupation matrix itself |
| Evolution.Phases | code/main.py:118 | phase j is exp(-1j * spectrum[j] * t), for every mode j |
| Evolution.EvolutionOperator | code/main.py:118 | U(t) is diagonal with exp(-1j * spectrum[j] * t) at (j, j) and zero elsewhere |
| Evolution.Evolve | code/main.py:118-120 | U(t) . D . U(t)^H is an n x n matrix; its entries are stated by Evolution.EvolveEntry, and Evolution.EvolveHermitian, EvolveAtTimeZero and EvolvePreservesTrace state its properties |
| Evolution.EvolveEntry | code/main.py:118-120 | entry (j, k) of U . D . U^H with U = diag(p) is p[j] * D[j][k] * conj(p[k]) |
| Evolution.EvolveEntryAt | code/main.py:118-120 | entry (j, k) of the density matrix at time t is exp(-1j spectrum[j] t) * D[j][k] * conj(exp(-1j spectrum[k] t)) |
| Evolution.EvolveAtTimeZero | code/main.py:118-120 | at t = 0, and given exp(0) = 1, evolution leaves the density matrix unchanged |
| Evolution.EvolveHermitian | code/main.py:118-120 | for every spectrum and time, evolution keeps a Hermitian density matrix Hermitian |
| Evolution.EvolvePreservesTrace | code/main.py:118-120 | with unit-modulus phases every diagonal entry, and so the trace, is unchanged by evolution |
| Matrices.Sandwich | code/main.py:119-125 | the change of basis v . h . v^H used for the evolution and for the rotation is an n x n matrix |
| Matrices.SandwichHermitian | code/main.py:119-125 | v . h . v^H is Hermitian for every v whenever h is: the evolution (v = U) and the rotation (v = eigvecs) keep Hermiticity |
| Evolution.RotatedAt | code/main.py:118-125 | the evolved density matrix rotated into the Majorana basis is an n x n matrix; Evolution.RotatedHermitian states its Hermiticity |
| Evolution.CorrelationAt | code/main.py:118-135 | the corrected and rescaled correlation matrix at time t is an n x n matrix; Evolution.CorrelationHermitian and CorrectHermitian state its entries and Hermiticity |
| Evolution.Correct | code/main.py:129-130 | after the correction an off-diagonal entry is its imaginary part times 1j; a diagonal entry keeps its real part and has its imaginary part doubled |
| Evolution.CorrectIdempotentIff | code/main.py:129-130 | correcting twice equals correcting once if and only if the diagonal is real |
| Evolution.CorrectNotIdempotentExample | code/main.py:129-130 | the 1 x 1 matrix [i] corrects to [2i] and then to [4i] |
| Evolution.Rescale | code/main.py:135 | every entry is multiplied by 2 |
| Evolution.CorrectHermitian | code/main.py:129-135 | on a Hermitian matrix the correction is idempotent, and the rescaled result is Hermitian with diagonal 2 Re C[i][i] and off-diagonal 2j Im C[i][j] |
| Evolution.RotatedHermitian | code/main.py:118-130 | for a Hermitian density matrix the rotated matrix at every time is Hermitian with a real diagonal, so the correction is idempotent on it |
| Evolution.CorrelationHermitian | code/main.py:118-135 | for a Hermitian density matrix the correlation matrix at every time is Hermitian |
| Evolution.CorrelationAtTimeZero | code/main.py:118-135 | at t = 0 the correlation matrix is the corrected and rescaled rotation of the density matrix itself |
| TimeGrid.SampleTimes | code/main.py:59 | the grid fails exactly when the step is zero |
| TimeGrid.SampleTimesGrid | code/main.py:59 | for dt > 0 the times are i * dt, strictly increasing and below tmax; the grid stops only once the next multiple reaches tmax; it has ceil(tmax/dt) samples when tmax > 0 and none otherwise |
| TimeGrid.TwoSamplesExample | code/main.py:59 | tmax = 1.0 and dt = 0.5 give exactly the samples 0.0 and 0.5 |
| Transport.SampleOf | code/main.py:138-146 | the sample holds the real parts of the total x and y currents of the current matrix of the correlation matrix |
| Transport.ThermalDensity | code/main.py:74-89 | the thermal density matrix built from the overlap matrix and the interleaved occupations is 2L^2 x 2L^2 and Hermitian |
| Transport.EvolveTimeSeries | code/main.py:116-147 | one sample per time, in time order; sample i is the real part of both net currents computed from the correlation matrix at times[i] |
| Transport.Run | code/main.py:59-147 | a zero time step fails; otherwise there is one sample per grid time, computed from the density matrix that the two loops build |
| Transport.PipelineCorrectionIdempotent | code/main.py:87-130 | the thermal density matrix is Hermitian, so at every time the correction is idempotent on the matrix it is applied to |

## Left out

- Floating point: all arithmetic is exact. Rounding, and any tolerance on Hermiticity, are not modelled.
- The temperature and dpsi formulas (code/main.py:55, 63) are not modelled, because they are floating-point powers of ten that only feed the lattice library. The module docstring (code/main.py:11) promises 20 temperature steps on 10^-2..10^1; the formula gives 10^-2..10^0 in 10 steps.
- The lattice library (kithcmb) is not part of this model. That covers system construction, disorder, eigenvectors, the spectrum and the fermionic expectation values (code/main.py:64-66, 72-73, 82). Their outputs are inputs of `Transport.Run`. The current matrix and total currents (code/main.py:138, 143, 146) are function parameters.
- JSON output through jsci, the version strings and the recorded specification (code/main.py:92-113, 141-147, 152) are left out as I/O. The samples are returned as a sequence instead.
- Command-line parsing, file names, timing and progress prints (code/main.py:34-50, 117, 149, 151) are left out as I/O and clock.
- `np.exp` on reals and on complex numbers is a parameter. Its properties enter only as preconditions: `exp(0) = 1` for `Evolution.EvolveAtTimeZero` and unit modulus for `Evolution.EvolvePreservesTrace`.
- Overlaps.SameBasisOverlapIsIdentity: unitarity of the overlap matrix is proved only when both bases coincide and are orthonormal. The general case needs completeness of both eigenbases, and that comes from the lattice library.
- Evolution.CorrelationHermitian: states Hermiticity only. The entries of the corrected and rescaled matrix are stated for any Hermitian matrix by `Evolution.CorrectHermitian`.
- TimeGrid.SampleTimesGrid: states the grid for positive steps only. A negative step is handled by `TimeGrid.SampleTimes` as `np.arange` does: no samples for a positive tmax.
- Transport.Run: takes the lattice library's shape contract as a precondition: both eigenvector arrays are 2L^2 x 2L^2, the spectrum has 2L^2 entries and branches 1 and 2 of the expectation values hold at least L^2 entries. The source raises at code/main.py:77 (fewer than 2L^2 columns, or unequal row counts), 85-86 (a short branch), 119 (a spectrum whose length is not 2L^2) and 124 (more than 2L^2 gradient columns); these errors are not modelled. Eigenvector arrays with another row count, which the source accepts, are excluded by this precondition.
- Occupations.WellShaped: the same contract for the fermionic expectation values; the IndexError at code/main.py:85-86 on a shorter branch is not modelled.
- Overlaps.ComputeOverlaps: requires 2L^2 x 2L^2 eigenvector arrays; the errors at code/main.py:77 on fewer than 2L^2 columns or unequal row counts are not modelled, and the other row counts the source accepts are excluded.
- `np.matrix` against `np.array` typing (code/main.py:88, 124-125, 135) is not modelled, since the products are the same in both.
