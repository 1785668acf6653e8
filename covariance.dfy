/**
 * The covariance matrix of the GP model: the quasi-periodic kernel of the time lag plus
 * the white-noise variance on the diagonal, as calculate_C writes it (upper triangle,
 * mirrored below the diagonal).
 */
module Covariance {
  import opened Numerics
  import opened Observations

  /** The GP hyperparameters eta1 (amplitude), eta2 (decay time), eta3 (period) and eta4
      (smoothness). */
  datatype Eta = Eta(eta1: real, eta2: real, eta3: real, eta4: real)

  /** The exponent of the kernel: -(d/eta2)^2 / 2 - 2 (sin(pi d / eta3) / eta4)^2. */
  function KernelExponent(m: Libm, h: Eta, d: real): real {
    -0.5 * Sq(Div(m, d, h.eta2)) - 2.0 * Sq(Div(m, m.sin(Div(m, Pi * d, h.eta3)), h.eta4))
  }

  /** The quasi-periodic kernel at time lag d. */
  function Kernel(m: Libm, h: Eta, d: real): real {
    h.eta1 * h.eta1 * m.exp(KernelExponent(m, h, d))
  }

  /** The entry (i, j) of C after calculate_C: for i <= j the kernel at t[i] - t[j], plus
      the white-noise variance when i == j; below the diagonal the mirrored entry. */
  function CovEntry(m: Libm, flags: Flags, d: Data, h: Eta, jitters: seq<real>, extraSigma: real, i: nat, j: nat): real
    requires WellFormed(flags, d)
    requires i < d.N() && j < d.N()
    requires |jitters| == d.numberInstruments
  {
    if i <= j then
      Kernel(m, h, d.t[i] - d.t[j]) + (if i == j then WhiteVariance(flags, d, jitters, extraSigma, i) else 0.0)
    else Kernel(m, h, d.t[j] - d.t[i])
  }

  /** C holds the entries calculate_C writes. */
  ghost predicate IsCovariance(m: Libm, flags: Flags, d: Data, h: Eta, jitters: seq<real>, extraSigma: real,
                               C: seq<seq<real>>)
    requires WellFormed(flags, d)
    requires |jitters| == d.numberInstruments
  {
    && |C| == d.N()
    && (forall i :: 0 <= i < |C| ==> |C[i]| == d.N())
    && forall i: nat, j: nat {:trigger CovEntry(m, flags, d, h, jitters, extraSigma, i, j)} ::
         i < d.N() && j < d.N() ==> C[i][j] == CovEntry(m, flags, d, h, jitters, extraSigma, i, j)
  }

  /** The covariance matrix of calculate_C, as a value. */
  ghost function CovarianceMatrix(m: Libm, flags: Flags, d: Data, h: Eta, jitters: seq<real>, extraSigma: real)
    : (C: seq<seq<real>>)
    requires WellFormed(flags, d)
    requires |jitters| == d.numberInstruments
    ensures IsCovariance(m, flags, d, h, jitters, extraSigma, C)
  {
    seq(d.N(), i requires 0 <= i < d.N() =>
      seq(d.N(), j requires 0 <= j < d.N() => CovEntry(m, flags, d, h, jitters, extraSigma, i, j)))
  }

  /** Floating division by a non-zero value commutes with negation. */
  lemma DivNegate(m: Libm, a: real, b: real)
    requires ExactDivision(m)
    requires b != 0.0
    ensures Div(m, -a, b) == -Div(m, a, b)
  {
    assert (-a) / b == -(a / b);
  }

  /** A square does not see the sign. */
  lemma SqNegate(x: real)
    ensures Sq(-x) == Sq(x)
  {
    assert (-x) * (-x) == x * x;
  }

  /** The kernel exponent is even in the lag (for non-zero eta2, eta3, eta4). */
  lemma KernelExponentEven(m: Libm, h: Eta, d: real)
    requires Sound(m)
    requires h.eta2 != 0.0 && h.eta3 != 0.0 && h.eta4 != 0.0
    ensures KernelExponent(m, h, -d) == KernelExponent(m, h, d)
  {
    DivNegate(m, d, h.eta2);
    SqNegate(Div(m, d, h.eta2));
    assert Pi * -d == -(Pi * d);
    DivNegate(m, Pi * d, h.eta3);
    var s := m.sin(Div(m, Pi * d, h.eta3));
    assert m.sin(Div(m, Pi * -d, h.eta3)) == -s;
    DivNegate(m, s, h.eta4);
    SqNegate(Div(m, s, h.eta4));
  }

  /** The kernel is even in the lag: k(-d) == k(d). */
  lemma KernelEven(m: Libm, h: Eta, d: real)
    requires Sound(m)
    requires h.eta2 != 0.0 && h.eta3 != 0.0 && h.eta4 != 0.0
    ensures Kernel(m, h, -d) == Kernel(m, h, d)
  {
    KernelExponentEven(m, h, d);
  }

  /** At lag 0 the kernel is eta1^2: the GP variance of a single point. */
  lemma KernelAtZero(m: Libm, h: Eta)
    requires Sound(m)
    requires h.eta2 != 0.0 && h.eta3 != 0.0 && h.eta4 != 0.0
    ensures Kernel(m, h, 0.0) == h.eta1 * h.eta1
  {
    assert Div(m, 0.0, h.eta2) == 0.0;
    assert Div(m, Pi * 0.0, h.eta3) == 0.0;
    assert Div(m, m.sin(0.0), h.eta4) == 0.0;
    assert KernelExponent(m, h, 0.0) == 0.0;
  }

  /** Each entry of C depends only on the lag t[i] - t[j] and eta1..eta4, with the
      white-noise variance added on the diagonal alone. */
  lemma CovarianceStationary(m: Libm, flags: Flags, d: Data, h: Eta, jitters: seq<real>, extraSigma: real, i: nat, j: nat)
    requires Sound(m)
    requires h.eta2 != 0.0 && h.eta3 != 0.0 && h.eta4 != 0.0
    requires WellFormed(flags, d)
    requires i < d.N() && j < d.N()
    requires |jitters| == d.numberInstruments
    ensures i != j ==> CovEntry(m, flags, d, h, jitters, extraSigma, i, j) == Kernel(m, h, d.t[i] - d.t[j])
    ensures i == j ==> CovEntry(m, flags, d, h, jitters, extraSigma, i, j)
                       == h.eta1 * h.eta1 + WhiteVariance(flags, d, jitters, extraSigma, i)
  {
    if i > j {
      assert d.t[j] - d.t[i] == -(d.t[i] - d.t[j]);
      KernelEven(m, h, d.t[i] - d.t[j]);
    }
    if i == j {
      assert d.t[i] - d.t[j] == 0.0;
      KernelAtZero(m, h);
    }
  }
}
