/**
 * The data set and the compile-time switches that RVmodel reads.
 *
 * The C++ reads the data through the `Data` singleton and the switches through global
 * constants; here both are plain values handed to the model.
 */
module Observations {
  import opened Numerics

  /** The global switches of a kima run. `fibers` is obs_after_HARPS_fibers. */
  datatype Flags = Flags(
    gp: bool,
    fibers: bool,
    trend: bool,
    multiInstrument: bool,
    hyperpriors: bool)

  /** The observations: times, radial velocities, their uncertainties and the 1-based
      instrument id of each point, the middle time used by the trend, the first index
      observed after the HARPS fiber change, and the number of instruments. */
  datatype Data = Data(
    t: seq<real>,
    y: seq<real>,
    sig: seq<real>,
    obsi: seq<int>,
    tMiddle: real,
    indexFibers: nat,
    numberInstruments: nat)
  {
    /** data.N(): the number of observations. */
    function N(): nat { |t| }
  }

  /** What the model relies on: one value of each kind per observation, at least one
      instrument (so that `number_instruments - 1` offsets exist), and in multi-instrument
      mode every instrument id names one of the instruments, so `jitters[obsi[i]-1]`
      is in range. */
  predicate WellFormed(flags: Flags, d: Data) {
    && |d.y| == |d.t|
    && |d.sig| == |d.t|
    && |d.obsi| == |d.t|
    && d.numberInstruments >= 1
    && (flags.multiInstrument ==> forall i :: 0 <= i < |d.obsi| ==> 1 <= d.obsi[i] <= d.numberInstruments)
  }

  /** The jitter of observation i: that of its instrument, or extra_sigma with one instrument. */
  function Jitter(flags: Flags, d: Data, jitters: seq<real>, extraSigma: real, i: nat): real
    requires WellFormed(flags, d)
    requires i < d.N()
    requires |jitters| == d.numberInstruments
  {
    if flags.multiInstrument then jitters[d.obsi[i] - 1] else extraSigma
  }

  /** The white-noise variance of observation i, sig[i]^2 + jit^2, which is never negative. */
  function WhiteVariance(flags: Flags, d: Data, jitters: seq<real>, extraSigma: real, i: nat): (v: real)
    requires WellFormed(flags, d)
    requires i < d.N()
    requires |jitters| == d.numberInstruments
    ensures v >= 0.0
  {
    var jit := Jitter(flags, d, jitters, extraSigma, i);
    SquareSign(d.sig[i]);
    SquareSign(jit);
    Sq(d.sig[i]) + Sq(jit)
  }

  /** x^2 is non-negative. */
  lemma SquareSign(x: real)
    ensures Sq(x) >= 0.0
  {
    if x > 0.0 {
      assert x * x > 0.0 * x;
    } else if x < 0.0 {
      assert x * x > 0.0 * x;
    }
  }
}
