/** The sample times `np.arange(0., tmax, dt)`, in exact arithmetic. */
module TimeGrid {

  datatype Error = ZeroStep

  datatype Result<T> = Success(value: T) | Failure(error: Error)

  /** The least integer not below x. */
  function Ceil(x: real): (c: int)
    ensures c as real - 1.0 < x <= c as real
  {
    -((-x).Floor)
  }

  /** How many samples `np.arange(0, stop, step)` yields: ceil(stop / step), or none if that is negative. */
  function SampleCount(stop: real, step: real): nat
    requires step != 0.0
  {
    var c := Ceil(stop / step);
    if c < 0 then 0 else c
  }

  /** 0, dt, 2 dt, ...; a zero step is an error, as numpy raises one. */
  function SampleTimes(tmax: real, dt: real): (r: Result<seq<real>>)
    ensures r.Failure? <==> dt == 0.0
  {
    if dt == 0.0 then Failure(ZeroStep)
    else
      var count := SampleCount(tmax, dt);
      Success(seq(count, i requires 0 <= i < count => i as real * dt))
  }

  lemma MulLessRight(a: real, b: real, c: real)
    requires a < b && c > 0.0
    ensures a * c < b * c
  {
  }

  lemma MulAtLeastRight(a: real, b: real, c: real)
    requires a <= b && c > 0.0
    ensures a * c <= b * c
  {
  }

  /**
   * For a positive step the grid starts at 0, goes up by dt, stays strictly below tmax, and stops
   * only when the next multiple of dt would reach tmax; for tmax > 0 it has ceil(tmax / dt) samples.
   */
  lemma SampleTimesGrid(tmax: real, dt: real)
    requires dt > 0.0
    ensures SampleTimes(tmax, dt).Success?
    ensures var s := SampleTimes(tmax, dt).value;
      && (forall i :: 0 <= i < |s| ==> s[i] == i as real * dt && s[i] < tmax)
      && (forall i, j :: 0 <= i < j < |s| ==> s[i] < s[j])
      && |s| as real * dt >= tmax
      && (tmax > 0.0 ==> |s| == Ceil(tmax / dt))
      && (tmax <= 0.0 ==> |s| == 0)
  {
    var s := SampleTimes(tmax, dt).value;
    var x := tmax / dt;
    assert x * dt == tmax;
    forall i | 0 <= i < |s|
      ensures s[i] < tmax
    {
      MulLessRight(i as real, x, dt);
    }
    forall i, j | 0 <= i < j < |s|
      ensures s[i] < s[j]
    {
      MulLessRight(i as real, j as real, dt);
    }
    if Ceil(x) >= 0 {
      MulAtLeastRight(x, |s| as real, dt);
    }
    if tmax > 0.0 {
      assert x > 0.0;
    }
  }

  /** tmax = 1.0 and dt = 0.5 give the two samples 0 and 0.5. */
  lemma TwoSamplesExample()
    ensures SampleTimes(1.0, 0.5) == Success([0.0, 0.5])
  {
    assert Ceil(1.0 / 0.5) == 2;
    assert SampleTimes(1.0, 0.5).value == [0.0, 0.5];
  }
}
