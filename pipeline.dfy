/**
 * The transport pipeline of the main script: sample times, overlaps, thermal density matrix,
 * then one correlation matrix and one pair of net currents per sample time, in time order.
 */
module Transport {
  import opened ComplexNumbers
  import opened Matrices
  import opened Lattice
  import opened Overlaps
  import opened Occupations
  import opened Density
  import opened Evolution
  import opened TimeGrid

  /** One entry of the time series: the real parts of the net currents along x and along the second direction. */
  datatype Sample = Sample(x: real, z: real)

  /** The lattice library's current operations, taken as given functions. */
  datatype CurrentOps = CurrentOps(
    currentMatrix: Matrix -> Matrix,
    totalX: Matrix -> Complex,
    totalY: Matrix -> Complex)

  /** The sample for one correlation matrix; the imaginary residue of each net current is dropped. */
  function SampleOf(ops: CurrentOps, correl: Matrix): (s: Sample)
    ensures s.x == ops.totalX(ops.currentMatrix(correl)).re
    ensures s.z == ops.totalY(ops.currentMatrix(correl)).re
  {
    var currents := ops.currentMatrix(correl);
    Sample(ops.totalX(currents).re, ops.totalY(currents).re)
  }

  /** The reference thermal density matrix in the gradient eigenbasis; it is Hermitian. */
  function ThermalDensity(L: int, exp: real -> real, fermOccs: seq<seq<real>>, grad: Matrix, nonGrad: Matrix): (d: Matrix)
    requires IsMatrix(grad, Dim(L)) && IsMatrix(nonGrad, Dim(L)) && WellShaped(L, fermOccs)
    ensures IsMatrix(d, Dim(L))
    ensures Hermitian(Dim(L), d)
  {
    DensityHermitian(Dim(L), OverlapMatrix(Dim(L), grad, nonGrad), Interleaved(L, exp, fermOccs));
    DensityMatrix(Dim(L), OverlapMatrix(Dim(L), grad, nonGrad), Interleaved(L, exp, fermOccs))
  }

  /** Steps through the sample times in order, appending one sample per time. */
  method EvolveTimeSeries(n: nat, cexp: Complex -> Complex, spectrum: seq<real>, eigvecs: Matrix, dens: Matrix,
                          times: seq<real>, ops: CurrentOps)
    returns (series: seq<Sample>)
    requires |spectrum| == n && IsMatrix(eigvecs, n) && IsMatrix(dens, n)
    ensures |series| == |times|
    ensures forall i :: 0 <= i < |times| ==>
      series[i] == SampleOf(ops, CorrelationAt(n, cexp, spectrum, eigvecs, dens, times[i]))
  {
    series := [];
    for i := 0 to |times|
      invariant |series| == i
      invariant forall k :: 0 <= k < i ==>
        series[k] == SampleOf(ops, CorrelationAt(n, cexp, spectrum, eigvecs, dens, times[k]))
    {
      var t := times[i];
      var correl := CorrelationAt(n, cexp, spectrum, eigvecs, dens, t);
      series := series + [SampleOf(ops, correl)];
    }
  }

  /**
   * The whole run: a zero time step fails before any other work; otherwise the series has one
   * sample per grid time, computed from the thermal density matrix built by the two loops.
   */
  method Run(L: int, tmax: real, dt: real, exp: real -> real, cexp: Complex -> Complex,
             nonGradEigvecs: Matrix, gradEigvecs: Matrix, gradSpectrum: seq<real>,
             fermOccs: seq<seq<real>>, ops: CurrentOps)
    returns (r: Result<seq<Sample>>)
    requires IsMatrix(nonGradEigvecs, Dim(L)) && IsMatrix(gradEigvecs, Dim(L))
    requires |gradSpectrum| == Dim(L) && WellShaped(L, fermOccs)
    ensures dt == 0.0 ==> r == Failure(ZeroStep)
    ensures dt != 0.0 ==> r.Success? && |r.value| == |SampleTimes(tmax, dt).value|
    ensures dt != 0.0 ==> forall i :: 0 <= i < |r.value| ==>
      r.value[i] == SampleOf(ops, CorrelationAt(Dim(L), cexp, gradSpectrum, gradEigvecs,
        ThermalDensity(L, exp, fermOccs, gradEigvecs, nonGradEigvecs), SampleTimes(tmax, dt).value[i]))
  {
    var grid := SampleTimes(tmax, dt);
    if grid.Failure? {
      return Failure(grid.error);
    }
    var times := grid.value;
    var n := Dim(L);
    var overlaps := ComputeOverlaps(L, gradEigvecs, nonGradEigvecs);
    var combined := CombineOccupations(L, exp, fermOccs);
    var dens := DensityMatrix(n, Elements(overlaps), combined[..]);
    var series := EvolveTimeSeries(n, cexp, gradSpectrum, gradEigvecs, dens, times, ops);
    return Success(series);
  }

  /**
   * In exact arithmetic the thermal density matrix is Hermitian, so at every sample time the
   * Hermiticity correction is idempotent on the matrix the pipeline applies it to.
   */
  lemma PipelineCorrectionIdempotent(L: int, exp: real -> real, cexp: Complex -> Complex,
                                      fermOccs: seq<seq<real>>, grad: Matrix, nonGrad: Matrix,
                                      spectrum: seq<real>, t: real)
    requires IsMatrix(grad, Dim(L)) && IsMatrix(nonGrad, Dim(L)) && WellShaped(L, fermOccs)
    requires |spectrum| == Dim(L)
    ensures Hermitian(Dim(L), ThermalDensity(L, exp, fermOccs, grad, nonGrad))
    ensures var c := RotatedAt(Dim(L), cexp, spectrum, grad, ThermalDensity(L, exp, fermOccs, grad, nonGrad), t);
      Correct(Dim(L), Correct(Dim(L), c)) == Correct(Dim(L), c)
  {
    RotatedHermitian(Dim(L), cexp, spectrum, grad, ThermalDensity(L, exp, fermOccs, grad, nonGrad), t);
  }
}
