/**
 * The deterministic part of the radial-velocity model: the Keplerian signal of the
 * planet components and the systematic terms (background, trend, instrument offsets,
 * fiber offset) that calculate_mu and perturb add to and subtract from the mean buffer.
 */
module Signal {
  import opened Numerics
  import opened Kepler
  import opened Observations
  import opened Lists

  /** One planet component as the RJObject stores it: five parameters in this order.
      With hyperpriors the first one is the logarithm of the period. */
  datatype Planet = Planet(period: real, amplitude: real, phase: real, ecc: real, omega: real)

  /** The period of a component: exp of the stored value when hyperpriors are on. */
  function PeriodOf(m: Libm, flags: Flags, c: Planet): real {
    if flags.hyperpriors then m.exp(c.period) else c.period
  }

  /** The time of periastron passage, t[0] - P phi / (2 pi). */
  function PeriastronTime(t0: real, P: real, phi: real): real {
    t0 - (P * phi) / (2.0 * Pi)
  }

  /** The velocity K (cos(f + w) + e cos w) for true anomaly f. */
  function RadialVelocity(m: Libm, K: real, f: real, ecc: real, omega: real): real {
    K * (m.cos(f + omega) + ecc * m.cos(omega))
  }

  /** The velocity of component c at time ti, with t0 = t[0]. */
  function Velocity(m: Libm, flags: Flags, t0: real, c: Planet, ti: real): real {
    var P := PeriodOf(m, flags, c);
    RadialVelocity(m, c.amplitude, TrueAnomalyOf(m, ti, P, c.ecc, PeriastronTime(t0, P, c.phase)), c.ecc, c.omega)
  }

  /** vs holds the velocity of component c at each of the times ts. */
  ghost predicate AreVelocities(m: Libm, flags: Flags, t0: real, c: Planet, ts: seq<real>, vs: seq<real>) {
    && |vs| == |ts|
    && forall k {:trigger Velocity(m, flags, t0, c, ts[k])} :: 0 <= k < |ts| ==>
         vs[k] == Velocity(m, flags, t0, c, ts[k])
  }

  /** The velocities of component c at the times ts. */
  function Velocities(m: Libm, flags: Flags, t0: real, c: Planet, ts: seq<real>): (vs: seq<real>)
    ensures AreVelocities(m, flags, t0, c, ts, vs)
  {
    seq(|ts|, k requires 0 <= k < |ts| => Velocity(m, flags, t0, c, ts[k]))
  }

  /** The summed velocity of the components cs at time ti, added in list order. */
  function SignalOf(m: Libm, flags: Flags, t0: real, cs: seq<Planet>, ti: real): real
    decreases |cs|
  {
    if |cs| == 0 then 0.0
    else SignalOf(m, flags, t0, cs[..|cs| - 1], ti) + Velocity(m, flags, t0, cs[|cs| - 1], ti)
  }

  /** The signal of two lists of components is the sum of their signals. */
  lemma {:induction false} SignalOfConcat(m: Libm, flags: Flags, t0: real, a: seq<Planet>, b: seq<Planet>, ti: real)
    ensures SignalOf(m, flags, t0, a + b, ti) == SignalOf(m, flags, t0, a, ti) + SignalOf(m, flags, t0, b, ti)
    decreases |b|
  {
    if |b| == 0 {
      assert a + b == a;
    } else {
      var b' := b[..|b| - 1];
      assert (a + b)[..|a + b| - 1] == a + b';
      assert (a + b)[|a + b| - 1] == b[|b| - 1];
      SignalOfConcat(m, flags, t0, a, b', ti);
    }
  }

  /** Taking component k out of a list removes exactly its velocity from the signal. */
  lemma SignalOfRemove(m: Libm, flags: Flags, t0: real, b: seq<Planet>, k: nat, ti: real)
    requires k < |b|
    ensures SignalOf(m, flags, t0, b, ti)
            == SignalOf(m, flags, t0, b[..k] + b[k + 1..], ti) + Velocity(m, flags, t0, b[k], ti)
  {
    var b1, b2 := b[..k], b[k + 1..];
    assert b == (b1 + [b[k]]) + b2;
    SignalOfConcat(m, flags, t0, b1 + [b[k]], b2, ti);
    SignalOfConcat(m, flags, t0, b1, [b[k]], ti);
    SignalOfConcat(m, flags, t0, b1, b2, ti);
    assert [b[k]][..0] == [];
  }

  /** The signal does not depend on the order of the components: any rearrangement of
      the same components gives the same sum. */
  lemma {:induction false} SignalOfPermutation(m: Libm, flags: Flags, t0: real, a: seq<Planet>, b: seq<Planet>, ti: real)
    requires multiset(a) == multiset(b)
    ensures SignalOf(m, flags, t0, a, ti) == SignalOf(m, flags, t0, b, ti)
    decreases |a|
  {
    if |a| > 0 {
      var k := MatchLast(a, b);
      assert a == a[..|a| - 1] + [a[|a| - 1]];
      SignalOfPermutation(m, flags, t0, a[..|a| - 1], b[..k] + b[k + 1..], ti);
      SignalOfRemove(m, flags, t0, b, k, ti);
    } else {
      assert b == [];
    }
  }

  /** Where the true anomaly is 0, the velocity is the radial velocity at f = 0. */
  lemma VelocityAtZeroAnomaly(m: Libm, flags: Flags, t0: real, c: Planet, ti: real)
    requires var P := PeriodOf(m, flags, c);
             TrueAnomalyOf(m, ti, P, c.ecc, PeriastronTime(t0, P, c.phase)) == 0.0
    ensures Velocity(m, flags, t0, c, ti) == RadialVelocity(m, c.amplitude, 0.0, c.ecc, c.omega)
  {
  }

  /** At true anomaly 0 the velocity is K (cos w + e cos w). */
  lemma RadialVelocityAtZero(m: Libm, K: real, ecc: real, omega: real)
    ensures RadialVelocity(m, K, 0.0, ecc, omega) == K * (m.cos(omega) + ecc * m.cos(omega))
  {
    assert 0.0 + omega == omega;
  }

  /** At the periastron passage the true anomaly is 0, so the velocity is
      K (cos w + e cos w), its extreme value. */
  lemma VelocityAtPeriastron(m: Libm, flags: Flags, t0: real, c: Planet)
    requires ExactDivision(m) && AtZero(m)
    requires 0.0 <= c.ecc < 1.0
    ensures var P := PeriodOf(m, flags, c);
            Velocity(m, flags, t0, c, PeriastronTime(t0, P, c.phase))
            == c.amplitude * (m.cos(c.omega) + c.ecc * m.cos(c.omega))
  {
    var P := PeriodOf(m, flags, c);
    var tp := PeriastronTime(t0, P, c.phase);
    TrueAnomalyAtPeriastron(m, P, c.ecc, tp);
    VelocityAtZeroAnomaly(m, flags, t0, c, tp);
    RadialVelocityAtZero(m, c.amplitude, c.ecc, c.omega);
  }

  /** The systematic parameters of the model. */
  datatype Systematics = Systematics(background: real, slope: real, offsets: seq<real>, fiberOffset: real)

  /** The linear trend slope (t[i] - t_middle) at point i, when the trend is on. */
  function TrendAt(flags: Flags, d: Data, slope: real, i: nat): real
    requires i < d.N()
  {
    if flags.trend then slope * (d.t[i] - d.tMiddle) else 0.0
  }

  /** The first n passes of the offsets loop for instrument id o: the sum of offsets[j]
      over j < n with o == j + 1. */
  function OffsetUpTo(offsets: seq<real>, o: int, n: nat): real
    requires n <= |offsets|
  {
    if n == 0 then 0.0
    else OffsetUpTo(offsets, o, n - 1) + (if o == n then offsets[n - 1] else 0.0)
  }

  /** At most one pass of the offsets loop matches: the sum is offsets[o-1] when
      1 <= o <= n and 0 otherwise. */
  lemma {:induction false} OffsetUpToSelects(offsets: seq<real>, o: int, n: nat)
    requires n <= |offsets|
    ensures OffsetUpTo(offsets, o, n) == if 1 <= o <= n then offsets[o - 1] else 0.0
  {
    if n > 0 {
      OffsetUpToSelects(offsets, o, n - 1);
    }
  }

  /** The instrument offset of point i: offsets[obsi[i] - 1] for instruments 1 .. N-1 and
      nothing for the last instrument, which is the reference; nothing with one instrument. */
  function OffsetAt(flags: Flags, d: Data, offsets: seq<real>, i: nat): (r: real)
    requires WellFormed(flags, d)
    requires i < d.N()
    ensures !flags.multiInstrument ==> r == 0.0
    ensures flags.multiInstrument && d.obsi[i] <= |offsets| ==> r == offsets[d.obsi[i] - 1]
    ensures flags.multiInstrument && d.obsi[i] > |offsets| ==> r == 0.0
  {
    if flags.multiInstrument then
      OffsetUpToSelects(offsets, d.obsi[i], |offsets|);
      OffsetUpTo(offsets, d.obsi[i], |offsets|)
    else 0.0
  }

  /** The fiber offset of point i: added from index_fibers on, when the switch is set. */
  function FiberAt(flags: Flags, d: Data, fiberOffset: real, i: nat): real {
    if flags.fibers && i >= d.indexFibers then fiberOffset else 0.0
  }

  /** The systematic part of the model at point i: background + trend + offset + fiber. */
  function SystematicAt(flags: Flags, d: Data, s: Systematics, i: nat): real
    requires WellFormed(flags, d)
    requires i < d.N()
  {
    s.background + TrendAt(flags, d, s.slope, i) + OffsetAt(flags, d, s.offsets, i)
    + FiberAt(flags, d, s.fiberOffset, i)
  }

  /** What a freshly rebuilt mean buffer holds at point i. */
  function ModelAt(m: Libm, flags: Flags, d: Data, s: Systematics, cs: seq<Planet>, i: nat): real
    requires WellFormed(flags, d)
    requires i < d.N()
  {
    SystematicAt(flags, d, s, i) + SignalOf(m, flags, d.t[0], cs, d.t[i])
  }

  /** Adding components to the signal part of the model adds exactly their signal. */
  lemma ModelAtConcat(m: Libm, flags: Flags, d: Data, s: Systematics, a: seq<Planet>, b: seq<Planet>, i: nat)
    requires WellFormed(flags, d)
    requires i < d.N()
    ensures ModelAt(m, flags, d, s, a + b, i) == ModelAt(m, flags, d, s, a, i) + SignalOf(m, flags, d.t[0], b, d.t[i])
  {
    SignalOfConcat(m, flags, d.t[0], a, b, d.t[i]);
  }

  /** The model value does not depend on the order in which the components are listed. */
  lemma ModelAtPermutation(m: Libm, flags: Flags, d: Data, s: Systematics, a: seq<Planet>, b: seq<Planet>, i: nat)
    requires WellFormed(flags, d)
    requires i < d.N()
    requires multiset(a) == multiset(b)
    ensures ModelAt(m, flags, d, s, a, i) == ModelAt(m, flags, d, s, b, i)
  {
    SignalOfPermutation(m, flags, d.t[0], a, b, d.t[i]);
  }
}
