/**
 * The Kepler solver of RVmodel: mean anomaly, Murison's starting value and third-order
 * correction, a refinement loop capped at 100 iterations, and the conversion of the
 * eccentric anomaly to the true anomaly with its quadrant fix.
 * The trigonometric functions are uninterpreted (see Numerics).
 */
module Kepler {
  import opened Numerics

  /** `1/6` in eps3 is C++ integer division, so the cubic correction term is multiplied by 0. */
  const OneSixthAsWritten: int := 1 / 6

  /** The refinement loop of ecc_anomaly gives up after this many iterations. */
  const MaxIterations: nat := 100

  /** The outcome of the refinement: the eccentric anomaly, how many corrections were
      applied, and the size of the last correction. */
  datatype Solution = Solution(anomaly: real, iterations: nat, lastStep: real)

  /** The stopping tolerance of ecc_anomaly: tighter for orbits of eccentricity below 0.8. */
  function Tolerance(ecc: real): real {
    if ecc < 0.8 then 1e-14 else 1e-13
  }

  /** The unreduced mean anomaly n (t - t_peri), with mean motion n = 2 pi / period. */
  function Phase(m: Libm, t: real, period: real, timePeri: real): real {
    Div(m, 2.0 * Pi, period) * (t - timePeri)
  }

  /** The mean anomaly reduced by `fmod(M, 2*pi)`; C's fmod keeps the sign of M. */
  function MeanAnomaly(m: Libm, t: real, period: real, timePeri: real): real {
    m.fmod(Phase(m, t, period, timePeri), 2.0 * Pi)
  }

  /** keplerstart3: the closed-form starting value for the eccentric anomaly. */
  function KeplerStart3(m: Libm, e: real, M: real): real {
    var t34 := e * e;
    var t35 := e * t34;
    var t33 := m.cos(M);
    M + (-0.5 * t35 + e + (t34 + 1.5 * t33 * t35) * t33) * m.sin(M)
  }

  /** eps3: the correction that one refinement step subtracts from the estimate x. */
  function Eps3(m: Libm, e: real, M: real, x: real): real {
    var t1 := m.cos(x);
    var t2 := -1.0 + e * t1;
    var t3 := m.sin(x);
    var t4 := e * t3;
    var t5 := -x + t4 + M;
    var t6 := Div(m, t5, Div(m, 0.5 * t5 * t4, t2) + t2);
    Div(m, t5, (0.5 * t3 - (OneSixthAsWritten as real) * t1 * t6) * e * t6 + t2)
  }

  /** The correction eps3 applies for eccentricity e and mean anomaly M, as a function
      of the current estimate. */
  function Correction(m: Libm, e: real, M: real): real -> real {
    x => Eps3(m, e, M, x)
  }

  /** The refinement loop from estimate x after `done` corrections: it applies one more
      correction and goes on while the step exceeds the tolerance and the cap is not reached. */
  function Refine(corr: real -> real, tol: real, x: real, done: nat): Solution
    requires done < MaxIterations
    decreases MaxIterations - done
  {
    var E := x - corr(x);
    var dE := Abs(E - x);
    if dE > tol && done + 1 < MaxIterations then Refine(corr, tol, E, done + 1)
    else Solution(E, done + 1, dE)
  }

  /** Refine applies at least one more correction and at most 100 in all, and it stops
      early only once the step is within the tolerance. */
  lemma {:induction false} RefineBounds(corr: real -> real, tol: real, x: real, done: nat)
    requires done < MaxIterations
    ensures var s := Refine(corr, tol, x, done);
            && done < s.iterations <= MaxIterations
            && (s.iterations < MaxIterations ==> s.lastStep <= tol)
            && (s.lastStep > tol ==> s.iterations == MaxIterations)
    decreases MaxIterations - done
  {
    var E := x - corr(x);
    if Abs(E - x) > tol && done + 1 < MaxIterations {
      RefineBounds(corr, tol, E, done + 1);
    }
  }

  /** The eccentric anomaly that ecc_anomaly computes for time t. */
  function EccAnomalyOf(m: Libm, t: real, period: real, ecc: real, timePeri: real): (s: Solution)
    ensures 1 <= s.iterations <= MaxIterations
    ensures s.iterations < MaxIterations ==> s.lastStep <= Tolerance(ecc)
  {
    var M := MeanAnomaly(m, t, period, timePeri);
    RefineBounds(Correction(m, ecc, M), Tolerance(ecc), KeplerStart3(m, ecc, M), 0);
    Refine(Correction(m, ecc, M), Tolerance(ecc), KeplerStart3(m, ecc, M), 0)
  }

  /** The true anomaly for eccentric anomaly E: acos gives a value in [0, pi], and the
      quadrant fix reflects it when E is above pi. */
  function TrueAnomalyFrom(m: Libm, E: real, ecc: real): real {
    if E > Pi then 2.0 * Pi - PrincipalAngle(m, E, ecc) else PrincipalAngle(m, E, ecc)
  }

  /** (cos E - e) / (1 - e cos E), the cosine of the true anomaly. */
  function CosineRatio(m: Libm, E: real, ecc: real): real {
    Div(m, m.cos(E) - ecc, 1.0 - ecc * m.cos(E))
  }

  /** acos of the cosine ratio: the angle in [0, pi] that true_anomaly starts from. */
  function PrincipalAngle(m: Libm, E: real, ecc: real): real {
    m.acos(CosineRatio(m, E, ecc))
  }

  /** The true anomaly that true_anomaly computes for time t. */
  function TrueAnomalyOf(m: Libm, t: real, period: real, ecc: real, timePeri: real): real {
    TrueAnomalyFrom(m, EccAnomalyOf(m, t, period, ecc, timePeri).anomaly, ecc)
  }

  /** ecc_anomaly: refine the starting value until the step is within the tolerance or
      100 corrections have been applied. */
  method EccAnomaly(m: Libm, t: real, period: real, ecc: real, timePeri: real) returns (E: real)
    ensures E == EccAnomalyOf(m, t, period, ecc, timePeri).anomaly
  {
    var tol: real;
    if ecc < 0.8 { tol := 1e-14; } else { tol := 1e-13; }
    var M := Phase(m, t, period, timePeri);  // n (t - t_peri), n = 2 pi / period
    var Mnorm := m.fmod(M, 2.0 * Pi);
    var E0 := KeplerStart3(m, ecc, Mnorm);
    E := RefineLoop(Correction(m, ecc, Mnorm), tol, E0);
    EccAnomalyStart(m, t, period, ecc, timePeri, tol, Mnorm);
  }

  /** The do-while loop of ecc_anomaly: correct E0 until the step is at most tol, at most
      100 times; `corr` is the eps3 correction for the orbit's e and M. */
  method RefineLoop(corr: real -> real, tol: real, start: real) returns (E: real)
    ensures E == Refine(corr, tol, start, 0).anomaly
  {
    var E0 := start;
    var count: nat := 0;
    ghost var goal := Refine(corr, tol, start, 0);
    while true
      invariant count < MaxIterations
      invariant Refine(corr, tol, E0, count) == goal
      decreases MaxIterations - count
    {
      E := E0 - corr(E0);
      var dE := Abs(E - E0);
      E0 := E;
      count := count + 1;
      // failed to converge: this only happens for nearly parabolic orbits
      if count == MaxIterations || dE <= tol {
        assert goal == Solution(E, count, dE);
        break;
      }
    }
  }

  /** The values ecc_anomaly starts its loop from are those of EccAnomalyOf. */
  lemma EccAnomalyStart(m: Libm, t: real, period: real, ecc: real, timePeri: real, tol: real, Mnorm: real)
    requires tol == (if ecc < 0.8 then 1e-14 else 1e-13)
    requires Mnorm == m.fmod(Phase(m, t, period, timePeri), 2.0 * Pi)
    ensures Refine(Correction(m, ecc, Mnorm), tol, KeplerStart3(m, ecc, Mnorm), 0)
            == EccAnomalyOf(m, t, period, ecc, timePeri)
  {
  }

  /** true_anomaly: the eccentric anomaly converted to the true anomaly. */
  method TrueAnomaly(m: Libm, t: real, period: real, ecc: real, timePeri: real) returns (f: real)
    ensures f == TrueAnomalyOf(m, t, period, ecc, timePeri)
  {
    var E := EccAnomaly(m, t, period, ecc, timePeri);
    f := TrueAnomalyFrom(m, E, ecc);
  }

  /** For a circular orbit the starting value is already exact: one correction of size 0. */
  lemma CircularOrbitConvergesAtOnce(m: Libm, t: real, period: real, timePeri: real)
    requires ExactDivision(m)
    ensures EccAnomalyOf(m, t, period, 0.0, timePeri)
            == Solution(MeanAnomaly(m, t, period, timePeri), 1, 0.0)
  {
    var M := MeanAnomaly(m, t, period, timePeri);
    assert KeplerStart3(m, 0.0, M) == M;
    assert Eps3(m, 0.0, M, M) == 0.0;
  }

  /** For e in [0, 1) and c in [-1, 1] the denominator 1 - e c is positive. */
  lemma DenominatorPositive(c: real, e: real)
    requires -1.0 <= c <= 1.0
    requires 0.0 <= e < 1.0
    ensures 1.0 - e * c > 0.0
  {
    if c >= 0.0 {
      assert e * c <= e * 1.0;
    } else {
      assert e * c <= 0.0;
    }
  }

  /** For e in [0, 1) and c in [-1, 1], the numerator c - e lies within +-(1 - e c). */
  lemma NumeratorWithinDenominator(c: real, e: real)
    requires -1.0 <= c <= 1.0
    requires 0.0 <= e < 1.0
    ensures -(1.0 - e * c) <= c - e <= 1.0 - e * c
  {
    assert (1.0 + e) * c <= (1.0 + e) * 1.0;
    var k := 1.0 + c;
    var d := 1.0 - e;
    assert d * k >= 0.0;
    assert d * k == k - e * k;
    assert e * k == e + e * c;
  }

  /** A quotient whose numerator lies within +-d, for d > 0, lies in [-1, 1]. */
  lemma QuotientInUnitRange(a: real, d: real)
    requires d > 0.0
    requires -d <= a <= d
    ensures -1.0 <= a / d <= 1.0
    ensures (a / d) * d == a
  {
  }

  /** For e in [0, 1) and c in [-1, 1], the quotient q = (c - e) / (1 - e c) lies in
      [-1, 1] and solves q (1 - e c) = c - e. */
  lemma RatioInUnitRange(q: real, c: real, e: real)
    requires -1.0 <= c <= 1.0
    requires 0.0 <= e < 1.0
    requires 1.0 - e * c != 0.0 && q == (c - e) / (1.0 - e * c)
    ensures -1.0 <= q <= 1.0
    ensures q * (1.0 - e * c) == c - e
  {
    DenominatorPositive(c, e);
    NumeratorWithinDenominator(c, e);
    QuotientInUnitRange(c - e, 1.0 - e * c);
  }

  /** For e in [0, 1), the ratio (cos E - e) / (1 - e cos E) that true_anomaly passes to
      acos is a cosine, and it solves cos f (1 - e cos E) = cos E - e. */
  lemma CosineRatioIsCosine(m: Libm, E: real, ecc: real)
    requires ExactDivision(m)
    requires -1.0 <= m.cos(E) <= 1.0
    requires 0.0 <= ecc < 1.0
    ensures -1.0 <= CosineRatio(m, E, ecc) <= 1.0
    ensures CosineRatio(m, E, ecc) * (1.0 - ecc * m.cos(E)) == m.cos(E) - ecc
  {
    DenominatorPositive(m.cos(E), ecc);
    DivNonZero(m, m.cos(E) - ecc, 1.0 - ecc * m.cos(E));
    RatioInUnitRange(CosineRatio(m, E, ecc), m.cos(E), ecc);
  }

  /** For a circular orbit the cosine ratio is cos E itself. */
  lemma CircularCosineRatio(m: Libm, E: real)
    requires ExactDivision(m)
    ensures CosineRatio(m, E, 0.0) == m.cos(E)
  {
    assert 0.0 * m.cos(E) == 0.0;
  }

  /** The true anomaly follows from the facts about acos and cos that it is built on. */
  lemma TrueAnomalyFromAngle(m: Libm, E: real, ecc: real)
    requires CosineRatio(m, E, ecc) * (1.0 - ecc * m.cos(E)) == m.cos(E) - ecc
    requires m.cos(PrincipalAngle(m, E, ecc)) == CosineRatio(m, E, ecc)
    requires 0.0 <= PrincipalAngle(m, E, ecc) <= Pi
    requires E > Pi ==> m.cos(2.0 * Pi - PrincipalAngle(m, E, ecc)) == m.cos(PrincipalAngle(m, E, ecc))
    ensures m.cos(TrueAnomalyFrom(m, E, ecc)) * (1.0 - ecc * m.cos(E)) == m.cos(E) - ecc
    ensures E > Pi ==> Pi <= TrueAnomalyFrom(m, E, ecc) <= 2.0 * Pi
    ensures E <= Pi ==> 0.0 <= TrueAnomalyFrom(m, E, ecc) <= Pi
  {
  }

  /** The true anomaly satisfies its defining relation cos f (1 - e cos E) = cos E - e,
      and the quadrant fix puts it in [pi, 2pi] exactly when E exceeds pi. */
  lemma TrueAnomalyDefinition(m: Libm, E: real, ecc: real)
    requires Sound(m)
    requires 0.0 <= ecc < 1.0
    ensures m.cos(TrueAnomalyFrom(m, E, ecc)) * (1.0 - ecc * m.cos(E)) == m.cos(E) - ecc
    ensures E > Pi ==> Pi <= TrueAnomalyFrom(m, E, ecc) <= 2.0 * Pi
    ensures E <= Pi ==> 0.0 <= TrueAnomalyFrom(m, E, ecc) <= Pi
  {
    var f := PrincipalAngle(m, E, ecc);
    CosineRatioIsCosine(m, E, ecc);
    assert m.cos(f) == CosineRatio(m, E, ecc);
    assert m.cos(2.0 * Pi - f) == m.cos(f);
    TrueAnomalyFromAngle(m, E, ecc);
  }

  /** Within [0, period), the scaled time (2 pi / period) d lies in [0, 2 pi). */
  lemma PhaseWithinOnePeriod(period: real, d: real)
    requires period > 0.0
    requires 0.0 <= d < period
    ensures 0.0 <= (2.0 * Pi / period) * d < 2.0 * Pi
  {
    var n := 2.0 * Pi / period;
    assert n * period == 2.0 * Pi;
    assert n * d < n * period;
  }

  /** Within half a period before 0, the scaled time lies in [-pi, 0). */
  lemma PhaseWithinHalfPeriodBefore(period: real, d: real)
    requires period > 0.0
    requires -period / 2.0 <= d < 0.0
    ensures -Pi <= (2.0 * Pi / period) * d < 0.0
  {
    var n := 2.0 * Pi / period;
    assert n * period == 2.0 * Pi;
    assert n * d >= n * (-period / 2.0);
    assert n * d < n * 0.0;
  }

  /** With a non-zero period the unreduced mean anomaly is (2 pi / period) (t - t_peri). */
  lemma PhaseValue(m: Libm, t: real, period: real, timePeri: real)
    requires ExactDivision(m)
    requires period != 0.0
    ensures Phase(m, t, period, timePeri) == (2.0 * Pi / period) * (t - timePeri)
  {
  }

  /** fmod leaves a dividend of magnitude below the divisor alone. */
  lemma FmodSmall(m: Libm, x: real)
    requires Sound(m)
    requires -2.0 * Pi < x < 2.0 * Pi
    ensures m.fmod(x, 2.0 * Pi) == x
  {
  }

  /** The true anomaly of a circular orbit is the eccentric anomaly when that lies in
      [-pi, 2 pi), reflected when it lies below 0. */
  lemma CircularTrueAnomalyFrom(m: Libm, E: real)
    requires Sound(m)
    requires -Pi <= E < 2.0 * Pi
    ensures 0.0 <= E ==> TrueAnomalyFrom(m, E, 0.0) == E
    ensures E < 0.0 ==> TrueAnomalyFrom(m, E, 0.0) == -E
  {
    CircularCosineRatio(m, E);
    if E > Pi {
      assert m.cos(2.0 * Pi - E) == m.cos(E);
      assert m.acos(m.cos(2.0 * Pi - E)) == 2.0 * Pi - E;
    } else if E >= 0.0 {
      assert m.acos(m.cos(E)) == E;
    } else {
      assert m.cos(-E) == m.cos(E);
      assert m.acos(m.cos(-E)) == -E;
    }
  }

  /** Circular orbit within one period after periastron: the true anomaly is the mean
      anomaly 2 pi (t - t_peri) / period. */
  lemma CircularOrbitTrueAnomaly(m: Libm, t: real, period: real, timePeri: real)
    requires Sound(m)
    requires period > 0.0
    requires timePeri <= t < timePeri + period
    ensures TrueAnomalyOf(m, t, period, 0.0, timePeri) == (2.0 * Pi / period) * (t - timePeri)
  {
    var M := MeanAnomaly(m, t, period, timePeri);
    MeanAnomalyInFirstPeriod(m, t, period, timePeri);
    CircularOrbitConvergesAtOnce(m, t, period, timePeri);
    assert TrueAnomalyOf(m, t, period, 0.0, timePeri) == TrueAnomalyFrom(m, M, 0.0);
    CircularTrueAnomalyFrom(m, M);
    PhaseValue(m, t, period, timePeri);
  }

  /** Within one period after periastron the unreduced mean anomaly lies in [0, 2 pi). */
  lemma PhaseInFirstPeriod(m: Libm, t: real, period: real, timePeri: real)
    requires ExactDivision(m)
    requires period > 0.0
    requires timePeri <= t < timePeri + period
    ensures 0.0 <= Phase(m, t, period, timePeri) < 2.0 * Pi
  {
    PhaseValue(m, t, period, timePeri);
    PhaseWithinOnePeriod(period, t - timePeri);
  }

  /** Within half a period before periastron the unreduced mean anomaly lies in [-pi, 0). */
  lemma PhaseInHalfPeriodBefore(m: Libm, t: real, period: real, timePeri: real)
    requires ExactDivision(m)
    requires period > 0.0
    requires timePeri - period / 2.0 <= t < timePeri
    ensures -Pi <= Phase(m, t, period, timePeri) < 0.0
  {
    PhaseValue(m, t, period, timePeri);
    PhaseWithinHalfPeriodBefore(period, t - timePeri);
  }

  /** Within one period after periastron fmod leaves the mean anomaly unreduced. */
  lemma MeanAnomalyInFirstPeriod(m: Libm, t: real, period: real, timePeri: real)
    requires Sound(m)
    requires period > 0.0
    requires timePeri <= t < timePeri + period
    ensures MeanAnomaly(m, t, period, timePeri) == Phase(m, t, period, timePeri)
    ensures 0.0 <= MeanAnomaly(m, t, period, timePeri) < 2.0 * Pi
  {
    PhaseInFirstPeriod(m, t, period, timePeri);
    FmodSmall(m, Phase(m, t, period, timePeri));
  }

  /** Within half a period before periastron fmod leaves the mean anomaly negative. */
  lemma MeanAnomalyBeforePeriastron(m: Libm, t: real, period: real, timePeri: real)
    requires Sound(m)
    requires period > 0.0
    requires timePeri - period / 2.0 <= t < timePeri
    ensures MeanAnomaly(m, t, period, timePeri) == Phase(m, t, period, timePeri)
    ensures -Pi <= MeanAnomaly(m, t, period, timePeri) < 0.0
  {
    PhaseInHalfPeriodBefore(m, t, period, timePeri);
    FmodSmall(m, Phase(m, t, period, timePeri));
  }

  /** Times up to half a period before periastron: fmod leaves the mean anomaly negative
      (it is not wrapped into [0, 2pi)), the quadrant fix does not fire, and for a circular
      orbit the true anomaly comes out as -M instead of 2 pi + M. */
  lemma CircularOrbitBeforePeriastron(m: Libm, t: real, period: real, timePeri: real)
    requires Sound(m)
    requires period > 0.0
    requires timePeri - period / 2.0 <= t < timePeri
    ensures MeanAnomaly(m, t, period, timePeri) == (2.0 * Pi / period) * (t - timePeri) < 0.0
    ensures TrueAnomalyOf(m, t, period, 0.0, timePeri) == -MeanAnomaly(m, t, period, timePeri)
  {
    var M := MeanAnomaly(m, t, period, timePeri);
    MeanAnomalyBeforePeriastron(m, t, period, timePeri);
    CircularOrbitConvergesAtOnce(m, t, period, timePeri);
    assert TrueAnomalyOf(m, t, period, 0.0, timePeri) == TrueAnomalyFrom(m, M, 0.0);
    CircularTrueAnomalyFrom(m, M);
    PhaseValue(m, t, period, timePeri);
  }

  /** The mean anomaly at the periastron passage t = tp is 0. */
  lemma MeanAnomalyAtPeriastron(m: Libm, period: real, tp: real)
    requires m.fmod(0.0, 2.0 * Pi) == 0.0
    ensures MeanAnomaly(m, tp, period, tp) == 0.0
  {
    assert Phase(m, tp, period, tp) == Div(m, 2.0 * Pi, period) * 0.0;
  }

  /** From mean anomaly 0 the starting value is 0. */
  lemma StartAtZero(m: Libm, ecc: real)
    requires m.sin(0.0) == 0.0
    ensures KeplerStart3(m, ecc, 0.0) == 0.0
  {
    var c := -0.5 * (ecc * (ecc * ecc)) + ecc + ((ecc * ecc) + 1.5 * m.cos(0.0) * (ecc * (ecc * ecc))) * m.cos(0.0);
    assert KeplerStart3(m, ecc, 0.0) == 0.0 + c * m.sin(0.0);
  }

  /** At x = M = 0 the correction is 0: the orbit is already solved. */
  lemma Eps3AtZero(m: Libm, ecc: real)
    requires ExactDivision(m)
    requires m.sin(0.0) == 0.0 && m.cos(0.0) == 1.0
    requires ecc < 1.0
    ensures Eps3(m, ecc, 0.0, 0.0) == 0.0
  {
    var t2 := -1.0 + ecc * m.cos(0.0);
    assert t2 == ecc - 1.0 != 0.0;
    var t4 := ecc * m.sin(0.0);
    assert t4 == 0.0;
    var t5 := -0.0 + t4 + 0.0;
    assert Div(m, 0.5 * t5 * t4, t2) == 0.0;
    var t6 := Div(m, t5, 0.0 + t2);
    assert t6 == 0.0;
    assert Eps3(m, ecc, 0.0, 0.0) == Div(m, 0.0, (0.5 * m.sin(0.0) - (OneSixthAsWritten as real) * m.cos(0.0) * t6) * ecc * t6 + t2);
  }

  /** Started at the periastron passage, the refinement stops after one correction of size 0. */
  lemma EccAnomalyAtPeriastron(m: Libm, period: real, ecc: real, tp: real)
    requires ExactDivision(m)
    requires m.sin(0.0) == 0.0 && m.cos(0.0) == 1.0 && m.fmod(0.0, 2.0 * Pi) == 0.0
    requires ecc < 1.0
    ensures EccAnomalyOf(m, tp, period, ecc, tp) == Solution(0.0, 1, 0.0)
  {
    MeanAnomalyAtPeriastron(m, period, tp);
    StartAtZero(m, ecc);
    Eps3AtZero(m, ecc);
    assert Correction(m, ecc, 0.0)(0.0) == 0.0;
    assert Refine(Correction(m, ecc, 0.0), Tolerance(ecc), 0.0, 0) == Solution(0.0, 1, 0.0);
  }

  /** Eccentric anomaly 0 gives true anomaly 0. */
  lemma TrueAnomalyFromZero(m: Libm, ecc: real)
    requires ExactDivision(m)
    requires m.cos(0.0) == 1.0 && m.acos(1.0) == 0.0
    requires ecc < 1.0
    ensures TrueAnomalyFrom(m, 0.0, ecc) == 0.0
  {
    assert ecc * m.cos(0.0) == ecc;
    DivSelf(m, m.cos(0.0) - ecc, 1.0 - ecc * m.cos(0.0));
  }

  /** At the periastron passage itself the starting value is exact (one correction of
      size 0), and the true anomaly is 0. */
  lemma TrueAnomalyAtPeriastron(m: Libm, period: real, ecc: real, tp: real)
    requires ExactDivision(m) && AtZero(m)
    requires 0.0 <= ecc < 1.0
    ensures EccAnomalyOf(m, tp, period, ecc, tp) == Solution(0.0, 1, 0.0)
    ensures TrueAnomalyOf(m, tp, period, ecc, tp) == 0.0
  {
    EccAnomalyAtPeriastron(m, period, ecc, tp);
    TrueAnomalyFromZero(m, ecc);
  }

  /** Division by a non-zero divisor is the real quotient. */
  lemma DivNonZero(m: Libm, a: real, b: real)
    requires ExactDivision(m)
    requires b != 0.0
    ensures Div(m, a, b) == a / b
  {
  }

  /** A non-zero value divided by itself is 1. */
  lemma DivSelf(m: Libm, a: real, b: real)
    requires ExactDivision(m)
    requires a == b
    requires b != 0.0
    ensures Div(m, a, b) == 1.0
  {
  }
}
