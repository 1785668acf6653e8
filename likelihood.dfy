/**
 * The log-likelihood of the data under the model, computed in IEEE doubles so that the
 * non-finite cases and the final `+inf` replacement can be stated.
 *
 * Without a GP the points are independent Gaussians of variance sig^2 + jit^2 around
 * the mean buffer. With a GP the residuals are a multivariate Gaussian of covariance C;
 * the Cholesky factor and the linear solve come from a linear-algebra library, which
 * the model takes as uninterpreted functions.
 */
module Likelihood {
  import opened Numerics
  import opened Observations

  /** halflog2pi = 0.5 log(2 pi). */
  function HalfLog2Pi(m: Libm): real {
    0.5 * m.log(2.0 * Pi)
  }

  /** The log density of a Gaussian of variance v > 0 at residual r. */
  function GaussianValue(m: Libm, r: real, v: real): real
    requires v > 0.0
  {
    -HalfLog2Pi(m) - 0.5 * m.log(v) - 0.5 * (Sq(r) / v)
  }

  /** One term `- halflog2pi - 0.5 log(var) - 0.5 (r^2 / var)` in doubles: the finite log
      density for a positive variance, NaN for a zero or negative one (at zero, log gives
      -inf and r^2 / 0 gives +inf or NaN, and +inf - +inf is NaN). */
  function GaussianTerm(m: Libm, r: real, v: real): (d: Double)
    ensures v > 0.0 ==> d == Finite(GaussianValue(m, r, v))
    ensures v <= 0.0 ==> d == NaN
  {
    SquareSign(r);
    Sub(Sub(Finite(-HalfLog2Pi(m)), Scale(0.5, LogOf(m, Finite(v)))),
        Scale(0.5, Quot(Sq(r), v)))
  }

  /** The term of observation i: residual y[i] - mu[i], variance sig[i]^2 + jit^2. */
  function PointTerm(m: Libm, flags: Flags, d: Data, jitters: seq<real>, extraSigma: real, mu: seq<real>, i: nat): Double
    requires WellFormed(flags, d)
    requires i < d.N() && |mu| == d.N()
    requires |jitters| == d.numberInstruments
  {
    GaussianTerm(m, d.y[i] - mu[i], WhiteVariance(flags, d, jitters, extraSigma, i))
  }

  /** logL after the first n passes of the Gaussian loop, starting from 0. */
  function GaussianAccum(m: Libm, flags: Flags, d: Data, jitters: seq<real>, extraSigma: real, mu: seq<real>, n: nat): Double
    requires WellFormed(flags, d)
    requires n <= d.N() && |mu| == d.N()
    requires |jitters| == d.numberInstruments
  {
    if n == 0 then Finite(0.0)
    else Add(GaussianAccum(m, flags, d, jitters, extraSigma, mu, n - 1),
             PointTerm(m, flags, d, jitters, extraSigma, mu, n - 1))
  }

  /** The reference value: the sum of the Gaussian log densities of the first n points. */
  function GaussianSum(m: Libm, flags: Flags, d: Data, jitters: seq<real>, extraSigma: real, mu: seq<real>, n: nat): real
    requires WellFormed(flags, d)
    requires n <= d.N() && |mu| == d.N()
    requires |jitters| == d.numberInstruments
    requires forall i :: 0 <= i < n ==> WhiteVariance(flags, d, jitters, extraSigma, i) > 0.0
  {
    if n == 0 then 0.0
    else GaussianSum(m, flags, d, jitters, extraSigma, mu, n - 1)
         + GaussianValue(m, d.y[n - 1] - mu[n - 1], WhiteVariance(flags, d, jitters, extraSigma, n - 1))
  }

  /** Every variance positive: the loop yields the finite sum of the log densities. */
  lemma {:induction false} GaussianAccumFinite(m: Libm, flags: Flags, d: Data, jitters: seq<real>, extraSigma: real, mu: seq<real>, n: nat)
    requires WellFormed(flags, d)
    requires n <= d.N() && |mu| == d.N()
    requires |jitters| == d.numberInstruments
    requires forall i :: 0 <= i < n ==> WhiteVariance(flags, d, jitters, extraSigma, i) > 0.0
    ensures GaussianAccum(m, flags, d, jitters, extraSigma, mu, n) == Finite(GaussianSum(m, flags, d, jitters, extraSigma, mu, n))
  {
    if n > 0 {
      GaussianAccumFinite(m, flags, d, jitters, extraSigma, mu, n - 1);
    }
  }

  /** NaN is absorbing: once a NaN term has been added, logL stays NaN. */
  lemma {:induction false} GaussianAccumNaNFrom(m: Libm, flags: Flags, d: Data, jitters: seq<real>, extraSigma: real, mu: seq<real>, k: nat, n: nat)
    requires WellFormed(flags, d)
    requires n <= d.N() && |mu| == d.N()
    requires |jitters| == d.numberInstruments
    requires k < n
    requires PointTerm(m, flags, d, jitters, extraSigma, mu, k) == NaN
    ensures GaussianAccum(m, flags, d, jitters, extraSigma, mu, n) == NaN
  {
    if n - 1 > k {
      GaussianAccumNaNFrom(m, flags, d, jitters, extraSigma, mu, k, n - 1);
    }
  }

  /** A single point of zero total variance (sig[i] = 0 and no jitter) makes logL NaN. */
  lemma GaussianAccumDegenerate(m: Libm, flags: Flags, d: Data, jitters: seq<real>, extraSigma: real, mu: seq<real>, k: nat)
    requires WellFormed(flags, d)
    requires |mu| == d.N()
    requires |jitters| == d.numberInstruments
    requires k < d.N()
    requires WhiteVariance(flags, d, jitters, extraSigma, k) == 0.0
    ensures GaussianAccum(m, flags, d, jitters, extraSigma, mu, d.N()) == NaN
  {
    GaussianAccumNaNFrom(m, flags, d, jitters, extraSigma, mu, k, d.N());
  }

  /** The last step of log_likelihood: a NaN or infinite logL becomes +inf; a finite one
      is returned unchanged. */
  function Sanitize(d: Double): (r: Double)
    ensures r.Finite? || r.PosInf?
    ensures d.Finite? ==> r == d
    ensures !d.Finite? ==> r == PosInf
  {
    if d.Finite? then d else PosInf
  }

  /** The Gaussian log-likelihood returned for all N points: the finite sum of the log
      densities when every variance is positive, and +inf when some variance is zero. */
  lemma GaussianLogLikelihood(m: Libm, flags: Flags, d: Data, jitters: seq<real>, extraSigma: real, mu: seq<real>)
    requires WellFormed(flags, d)
    requires |mu| == d.N()
    requires |jitters| == d.numberInstruments
    ensures (forall i :: 0 <= i < d.N() ==> WhiteVariance(flags, d, jitters, extraSigma, i) > 0.0) ==>
              Sanitize(GaussianAccum(m, flags, d, jitters, extraSigma, mu, d.N()))
              == Finite(GaussianSum(m, flags, d, jitters, extraSigma, mu, d.N()))
    ensures (exists i :: 0 <= i < d.N() && WhiteVariance(flags, d, jitters, extraSigma, i) == 0.0) ==>
              Sanitize(GaussianAccum(m, flags, d, jitters, extraSigma, mu, d.N())) == PosInf
  {
    if forall i :: 0 <= i < d.N() ==> WhiteVariance(flags, d, jitters, extraSigma, i) > 0.0 {
      GaussianAccumFinite(m, flags, d, jitters, extraSigma, mu, d.N());
    }
    if exists i :: 0 <= i < d.N() && WhiteVariance(flags, d, jitters, extraSigma, i) == 0.0 {
      var k :| 0 <= k < d.N() && WhiteVariance(flags, d, jitters, extraSigma, k) == 0.0;
      GaussianAccumDegenerate(m, flags, d, jitters, extraSigma, mu, k);
    }
  }

  /** The residual vector y - mu. */
  function Residuals(y: seq<real>, mu: seq<real>): seq<real>
    requires |y| == |mu|
  {
    seq(|y|, i requires 0 <= i < |y| => y[i] - mu[i])
  }

  /** The Cholesky factorisation and solve (Eigen's LLT), as uninterpreted functions of the
      covariance matrix: `lowerDiagonal(C, i)` is L(i,i) and `solve(C, r, i)` is entry i of
      the solution x of C x = r. */
  datatype LinAlg = LinAlg(
    lowerDiagonal: (seq<seq<real>>, nat) -> Double,
    solve: (seq<seq<real>>, seq<real>, nat) -> Double)

  /** logDeterminant after n passes: the sum of 2 log L(i,i). */
  function LogDeterminant(m: Libm, la: LinAlg, C: seq<seq<real>>, n: nat): Double {
    if n == 0 then Finite(0.0)
    else Add(LogDeterminant(m, la, C, n - 1), Scale(2.0, LogOf(m, la.lowerDiagonal(C, n - 1))))
  }

  /** exponent after n passes: the sum of residual(i) * solution(i). */
  function Exponent(la: LinAlg, C: seq<seq<real>>, r: seq<real>, n: nat): Double
    requires n <= |r|
  {
    if n == 0 then Finite(0.0)
    else Add(Exponent(la, C, r, n - 1), Mul(Finite(r[n - 1]), la.solve(C, r, n - 1)))
  }

  /** The normalisation -0.5 N log(2 pi) of an N-dimensional Gaussian. */
  function Normalization(m: Libm, n: nat): real {
    -0.5 * (n as real) * m.log(2.0 * Pi)
  }

  /** logL = -0.5 N log(2 pi) - 0.5 logDeterminant - 0.5 exponent. */
  function GpLogL(m: Libm, la: LinAlg, C: seq<seq<real>>, r: seq<real>): Double {
    Sub(Sub(Finite(Normalization(m, |r|)), Scale(0.5, LogDeterminant(m, la, C, |r|))),
        Scale(0.5, Exponent(la, C, r, |r|)))
  }

  /** The reference value of the log determinant: sum of 2 log L(i,i) for positive pivots. */
  function LogDeterminantValue(m: Libm, la: LinAlg, C: seq<seq<real>>, n: nat): real
    requires forall i: nat :: i < n ==> IsFinitePositive(la.lowerDiagonal(C, i))
  {
    if n == 0 then 0.0
    else
      assert IsFinitePositive(la.lowerDiagonal(C, n - 1));
      LogDeterminantValue(m, la, C, n - 1) + 2.0 * m.log(la.lowerDiagonal(C, n - 1).v)
  }

  /** The reference value of r^T C^-1 r for a finite solution. */
  function ExponentValue(la: LinAlg, C: seq<seq<real>>, r: seq<real>, n: nat): real
    requires n <= |r|
    requires forall i: nat :: i < n ==> la.solve(C, r, i).Finite?
  {
    if n == 0 then 0.0
    else ExponentValue(la, C, r, n - 1) + r[n - 1] * la.solve(C, r, n - 1).v
  }

  /** A finite value above zero: a pivot of a successful Cholesky factorisation. */
  predicate IsFinitePositive(x: Double) {
    x.Finite? && x.v > 0.0
  }

  lemma {:induction false} LogDeterminantFinite(m: Libm, la: LinAlg, C: seq<seq<real>>, n: nat)
    requires forall i: nat :: i < n ==> IsFinitePositive(la.lowerDiagonal(C, i))
    ensures LogDeterminant(m, la, C, n) == Finite(LogDeterminantValue(m, la, C, n))
  {
    if n > 0 {
      LogDeterminantFinite(m, la, C, n - 1);
    }
  }

  lemma {:induction false} ExponentFinite(la: LinAlg, C: seq<seq<real>>, r: seq<real>, n: nat)
    requires n <= |r|
    requires forall i: nat :: i < n ==> la.solve(C, r, i).Finite?
    ensures Exponent(la, C, r, n) == Finite(ExponentValue(la, C, r, n))
  {
    if n > 0 {
      ExponentFinite(la, C, r, n - 1);
    }
  }

  /** With positive Cholesky pivots and a finite solution, the GP log-likelihood is the
      finite value -N/2 log(2 pi) - 1/2 log det C - 1/2 r^T C^-1 r, with log det C the sum
      of 2 log L(i,i). */
  lemma GpLogLFinite(m: Libm, la: LinAlg, C: seq<seq<real>>, r: seq<real>)
    requires forall i: nat :: i < |r| ==> IsFinitePositive(la.lowerDiagonal(C, i))
    requires forall i: nat :: i < |r| ==> la.solve(C, r, i).Finite?
    ensures GpLogL(m, la, C, r)
            == Finite(Normalization(m, |r|)
                      - 0.5 * LogDeterminantValue(m, la, C, |r|)
                      - 0.5 * ExponentValue(la, C, r, |r|))
  {
    LogDeterminantFinite(m, la, C, |r|);
    ExponentFinite(la, C, r, |r|);
  }

  /** A zero pivot (a singular C) makes logDeterminant -inf; whatever the solve gives, the
      returned log-likelihood is then not finite, so log_likelihood returns +inf. */
  lemma {:induction false} LogDeterminantZeroPivot(m: Libm, la: LinAlg, C: seq<seq<real>>, k: nat, n: nat)
    requires k < n
    requires forall i: nat :: i < n && i != k ==> IsFinitePositive(la.lowerDiagonal(C, i))
    requires la.lowerDiagonal(C, k) == Finite(0.0)
    ensures LogDeterminant(m, la, C, n) == NegInf
  {
    if n - 1 > k {
      LogDeterminantZeroPivot(m, la, C, k, n - 1);
      assert IsFinitePositive(la.lowerDiagonal(C, n - 1));
    } else {
      LogDeterminantFinite(m, la, C, k);
    }
  }

  /** A zero pivot leaves no finite log-likelihood: +inf is returned. */
  lemma GpZeroPivotSentinel(m: Libm, la: LinAlg, C: seq<seq<real>>, r: seq<real>, k: nat)
    requires k < |r|
    requires forall i: nat :: i < |r| && i != k ==> IsFinitePositive(la.lowerDiagonal(C, i))
    requires la.lowerDiagonal(C, k) == Finite(0.0)
    ensures Sanitize(GpLogL(m, la, C, r)) == PosInf
  {
    LogDeterminantZeroPivot(m, la, C, k, |r|);
  }
}
