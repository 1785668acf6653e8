/**
 * The RVmodel class: the parameters of one point of the sampler, its mean buffer `mu`
 * (one entry per observation) and, with a GP, its covariance matrix `C` (N x N), kept up
 * to date by calculate_mu, calculate_C and perturb.
 *
 * The ghost field `reflected` is the list of planet components whose signal `mu`
 * currently holds; `Consistent()` says that each entry of `mu` is the systematic part of
 * the model plus the signal of `reflected`.
 */
module RV {
  import opened Numerics
  import opened Kepler
  import opened Observations
  import opened Signal
  import opened Covariance
  import opened Likelihood
  import opened DNest
  import opened Proposals
  import opened Output
  import opened Lists

  class RVModel {
    // The data, the switches, the math and linear-algebra libraries, the priors and the
    // planet-set behaviour: fixed for the life of the object.
    const flags: Flags
    const data: Data
    const m: Libm
    const la: LinAlg
    const priors: Priors
    const planetObj: PlanetObject

    var planets: PlanetSet
    var background: real
    var offsets: seq<real>
    var jitters: seq<real>
    var slope: real
    var fiberOffset: real
    var extraSigma: real
    var eta1: real
    var eta2: real
    var eta3: real
    var eta4: real
    var logEta1: real
    var logEta2: real
    var logEta4: real

    /** The mean buffer: one entry per observation. */
    const mu: array<real>
    /** The covariance matrix of the GP: N x N. */
    const C: array2<real>
    var staleness: nat

    ghost var reflected: seq<Planet>

    /** The sizes the header fixes: mu has N entries, C is N x N, there are
        number_instruments - 1 offsets and number_instruments jitters. */
    predicate Valid()
      reads this
    {
      && WellFormed(flags, data)
      && mu.Length == data.N()
      && C.Length0 == data.N() && C.Length1 == data.N()
      && Sized(data, Parameters())
    }

    /** The parameter fields, as one value. */
    function Parameters(): Params
      reads this
    {
      Params(planets, background, offsets, jitters, slope, fiberOffset, extraSigma,
             eta1, eta2, eta3, eta4, logEta1, logEta2, logEta4)
    }

    /** mu holds the systematic part of the model plus the signal of `reflected`. */
    ghost predicate Consistent()
      reads this, mu
      requires Valid()
    {
      forall i :: 0 <= i < mu.Length ==>
        mu[i] == ModelAt(m, flags, data, SystematicsOf(Parameters()), reflected, i)
    }

    /** `reflected` holds the current components, in some order. */
    ghost predicate Tracks()
      reads this
    {
      multiset(reflected) == multiset(planets.components)
    }

    /** mu is the model recomputed from scratch: the systematic part of the current
        parameters plus the signal of every current component. */
    ghost predicate MuIsModel()
      reads this, mu
      requires Valid()
    {
      forall i :: 0 <= i < mu.Length ==>
        mu[i] == ModelAt(m, flags, data, SystematicsOf(Parameters()), planets.components, i)
    }

    /** A buffer that holds the signal of the current components, listed in whatever
        order, is the from-scratch model. */
    lemma TrackedIsModel()
      requires Valid() && Consistent() && Tracks()
      ensures MuIsModel()
    {
      forall i | 0 <= i < mu.Length
        ensures mu[i] == ModelAt(m, flags, data, SystematicsOf(Parameters()), planets.components, i)
      {
        ModelAtPermutation(m, flags, data, SystematicsOf(Parameters()), reflected, planets.components, i);
      }
    }

    /** C is the covariance matrix of the current hyperparameters and jitters. */
    ghost predicate CovarianceBuilt()
      reads this, C
      requires Valid()
    {
      forall i, j :: 0 <= i < C.Length0 && 0 <= j < C.Length1 ==>
        C[i, j] == CovEntry(m, flags, data, EtaOf(Parameters()), jitters, extraSigma, i, j)
    }

    /** What calculate_mu leaves in mu, from the buffer `before` and the staleness s0 it
        found: on the incremental path each entry grew by the signal of the added
        components; after a rebuild, each entry is the full model of the current
        parameters and components. */
    ghost predicate MuRecomputed(before: seq<real>, s0: nat)
      reads this, mu
      requires Valid()
      requires |before| == mu.Length
    {
      && (IncrementalUpdate(planets, s0) ==>
            forall i :: 0 <= i < mu.Length ==>
              mu[i] == before[i] + SignalOf(m, flags, data.t[0], planets.added, data.t[i]))
      && (!IncrementalUpdate(planets, s0) ==>
            forall i :: 0 <= i < mu.Length ==>
              mu[i] == ModelAt(m, flags, data, SystematicsOf(Parameters()), planets.components, i))
    }

    /** The matrix C as a value, for the linear-algebra library. */
    function Matrix(): seq<seq<real>>
      reads this, C
    {
      seq(C.Length0, i requires 0 <= i < C.Length0 reads C =>
        seq(C.Length1, j requires 0 <= j < C.Length1 reads C => C[i, j]))
    }

    /** A new model: an empty planet set, zero offsets and jitters, and a zero mean buffer of
        N entries; the scalars the class leaves uninitialised take the values of `init`,
        and staleness (also uninitialised) takes `staleness0`. */
    constructor (flags: Flags, data: Data, m: Libm, la: LinAlg, priors: Priors, planetObj: PlanetObject,
                 init: Params, staleness0: nat)
      requires WellFormed(flags, data)
      ensures Valid()
      ensures this.flags == flags && this.data == data && this.m == m && this.la == la
      ensures this.priors == priors && this.planetObj == planetObj
      ensures Parameters() == init.(planets := PlanetSet([], []),
                                    offsets := seq(data.numberInstruments - 1, _ => 0.0),
                                    jitters := seq(data.numberInstruments, _ => 0.0))
      ensures forall i :: 0 <= i < mu.Length ==> mu[i] == 0.0
      ensures staleness == staleness0 && reflected == []
      ensures fresh(mu) && fresh(C)
    {
      this.flags := flags;
      this.data := data;
      this.m := m;
      this.la := la;
      this.priors := priors;
      this.planetObj := planetObj;
      planets := PlanetSet([], []);
      background := init.background;
      offsets := seq(data.numberInstruments - 1, _ => 0.0);
      jitters := seq(data.numberInstruments, _ => 0.0);
      slope := init.slope;
      fiberOffset := init.fiberOffset;
      extraSigma := init.extraSigma;
      eta1, eta2, eta3, eta4 := init.eta1, init.eta2, init.eta3, init.eta4;
      logEta1, logEta2, logEta4 := init.logEta1, init.logEta2, init.logEta4;
      mu := new real[data.N()](_ => 0.0);
      C := new real[data.N(), data.N()]((_, _) => 0.0);
      staleness := staleness0;
      reflected := [];
    }

    // -------------------------------------------------------------------------------
    // calculate_mu

    /** The planets loop of calculate_mu: add the velocity of every component of cs to
        every entry of mu. */
    method AddSignal(cs: seq<Planet>)
      requires Valid()
      modifies mu
      ensures forall i :: 0 <= i < mu.Length ==>
                mu[i] == old(mu[i]) + SignalOf(m, flags, data.t[0], cs, data.t[i])
    {
      for j := 0 to |cs|
        invariant forall i :: 0 <= i < mu.Length ==>
                    mu[i] == old(mu[i]) + SignalOf(m, flags, data.t[0], cs[..j], data.t[i])
      {
        assert cs[..j + 1][..j] == cs[..j];
        ghost var t0 := if data.N() > 0 then data.t[0] else 0.0;
        AddVelocity(cs[j], Velocities(m, flags, t0, cs[j], data.t));
      }
      assert cs[..|cs|] == cs;
    }

    /** One pass of the planets loop: add the velocity of component c to every entry of mu;
        vs holds those velocities, one per observation. */
    method AddVelocity(c: Planet, ghost vs: seq<real>)
      requires mu.Length == data.N()
      requires AreVelocities(m, flags, if data.N() > 0 then data.t[0] else 0.0, c, data.t, vs)
      modifies mu
      ensures forall i :: 0 <= i < mu.Length ==> mu[i] == old(mu[i]) + vs[i]
    {
      for i := 0 to mu.Length
        invariant forall k :: 0 <= k < i ==> mu[k] == old(mu[k]) + vs[k]
        invariant forall k :: i <= k < mu.Length ==> mu[k] == old(mu[k])
      {
        var v := VelocityAtObservation(c, i, vs);
        mu[i] := mu[i] + v;
      }
    }

    /** The velocity of component c at observation i, which vs records. */
    method VelocityAtObservation(c: Planet, i: nat, ghost vs: seq<real>) returns (v: real)
      requires i < data.N()
      requires AreVelocities(m, flags, data.t[0], c, data.t, vs)
      ensures v == vs[i]
    {
      v := VelocityAt(c, data.t[0], data.t[i]);
    }

    /** The body of the planets loop for one observation time ti: the period (exp of the
        stored value with hyperpriors), the time of periastron, the true anomaly and the
        velocity. */
    method VelocityAt(c: Planet, t0: real, ti: real) returns (v: real)
      ensures v == Velocity(m, flags, t0, c, ti)
    {
      var P := if flags.hyperpriors then Exp(m, c.period) else c.period;
      var K, phi, ecc, omega := c.amplitude, c.phase, c.ecc, c.omega;
      var f := TrueAnomaly(m, ti, P, ecc, PeriastronTime(t0, P, phi));
      v := RadialVelocity(m, K, f, ecc, omega);
    }

    /** The rebuild of calculate_mu before the planets loop: mu[i] becomes
        background + trend + offset + fiber offset. */
    method AssignSystematics()
      requires Valid()
      modifies mu
      ensures forall i :: 0 <= i < mu.Length ==> mu[i] == SystematicAt(flags, data, SystematicsOf(Parameters()), i)
    {
      for i := 0 to mu.Length
        invariant forall k :: 0 <= k < i ==> mu[k] == background
      {
        mu[i] := background;
      }
      if flags.trend {
        AddTrend();
      }
      assert forall k :: 0 <= k < mu.Length ==> mu[k] == background + TrendAt(flags, data, slope, k);
      if flags.multiInstrument {
        AddOffsets();
      }
      assert forall k :: 0 <= k < mu.Length ==>
               mu[k] == background + TrendAt(flags, data, slope, k) + OffsetAt(flags, data, offsets, k);
      if flags.fibers {
        AddFiberOffset();
      }
    }

    /** The trend pass of the rebuild: slope * (t[i] - tmiddle) onto every entry. */
    method AddTrend()
      requires Valid() && flags.trend
      modifies mu
      ensures forall k :: 0 <= k < mu.Length ==> mu[k] == old(mu[k]) + TrendAt(flags, data, slope, k)
    {
      for i := 0 to mu.Length
        invariant forall k :: 0 <= k < i ==> mu[k] == old(mu[k]) + TrendAt(flags, data, slope, k)
        invariant forall k :: i <= k < mu.Length ==> mu[k] == old(mu[k])
      {
        mu[i] := mu[i] + slope * (data.t[i] - data.tMiddle);
        assert mu[i] == old(mu[i]) + TrendAt(flags, data, slope, i);
      }
    }

    /** The offsets pass of the rebuild: for each instrument j + 1 but the last, offsets[j]
        onto the entries of that instrument. */
    method AddOffsets()
      requires Valid() && flags.multiInstrument
      modifies mu
      ensures forall k :: 0 <= k < mu.Length ==> mu[k] == old(mu[k]) + OffsetAt(flags, data, offsets, k)
    {
      for j := 0 to |offsets|
        invariant forall k :: 0 <= k < mu.Length ==> mu[k] == old(mu[k]) + OffsetUpTo(offsets, data.obsi[k], j)
      {
        for i := 0 to mu.Length
          invariant forall k :: 0 <= k < i ==> mu[k] == old(mu[k]) + OffsetUpTo(offsets, data.obsi[k], j + 1)
          invariant forall k :: i <= k < mu.Length ==> mu[k] == old(mu[k]) + OffsetUpTo(offsets, data.obsi[k], j)
        {
          if data.obsi[i] == j + 1 {
            mu[i] := mu[i] + offsets[j];
          }
        }
      }
    }

    /** The fibers pass of the rebuild: the fiber offset onto the entries from
        index_fibers on. */
    method AddFiberOffset()
      requires Valid() && flags.fibers
      modifies mu
      ensures forall k :: 0 <= k < mu.Length ==> mu[k] == old(mu[k]) + FiberAt(flags, data, fiberOffset, k)
    {
      var i := data.indexFibers;
      while i < mu.Length
        invariant data.indexFibers <= i
        invariant forall k :: 0 <= k < mu.Length ==>
                    mu[k] == old(mu[k]) + (if data.indexFibers <= k < i then fiberOffset else 0.0)
        decreases mu.Length - i
      {
        mu[i] := mu[i] + fiberOffset;
        i := i + 1;
      }
    }

    /** calculate_mu: an incremental update adds the signal of the added components and
        bumps staleness; a rebuild writes the whole model and resets staleness. */
    method CalculateMu()
      requires Valid()
      modifies this`staleness, this`reflected, mu
      ensures Valid()
      ensures staleness == StalenessAfter(planets, old(staleness))
      ensures MuRecomputed(old(mu[..]), old(staleness))
      ensures reflected == if IncrementalUpdate(planets, old(staleness)) then old(reflected) + planets.added
                           else planets.components
      ensures old(Consistent()) ==> Consistent()
      ensures !IncrementalUpdate(planets, old(staleness)) ==> Consistent() && Tracks()
      ensures multiset(old(reflected)) + multiset(planets.added) == multiset(planets.components) ==> Tracks()
      ensures old(Consistent()) && multiset(old(reflected)) + multiset(planets.added) == multiset(planets.components)
              ==> MuIsModel()
    {
      var update := |planets.added| < |planets.components| && staleness <= 10;
      if update {
        UpdateMu();
      } else {
        RebuildMu();
      }
      if Consistent() && Tracks() {
        TrackedIsModel();
      }
    }

    /** The incremental path of calculate_mu: the signal of the added components goes onto
        mu and staleness is bumped. */
    method UpdateMu()
      requires Valid()
      requires IncrementalUpdate(planets, staleness)
      modifies this`staleness, this`reflected, mu
      ensures Valid()
      ensures staleness == StalenessAfter(planets, old(staleness))
      ensures MuRecomputed(old(mu[..]), old(staleness))
      ensures reflected == old(reflected) + planets.added
      ensures old(Consistent()) ==> Consistent()
    {
      ghost var wasConsistent := Consistent();
      staleness := staleness + 1;
      reflected := reflected + planets.added;
      AddSignal(planets.added);
      if wasConsistent {
        forall i | 0 <= i < mu.Length
          ensures mu[i] == ModelAt(m, flags, data, SystematicsOf(Parameters()), reflected, i)
        {
          ModelAtConcat(m, flags, data, SystematicsOf(Parameters()), old(reflected), planets.added, i);
        }
      }
    }

    /** The rebuild path of calculate_mu: the systematics and then the signal of every
        component are written into mu, and staleness is reset. */
    method RebuildMu()
      requires Valid()
      requires !IncrementalUpdate(planets, staleness)
      modifies this`staleness, this`reflected, mu
      ensures Valid()
      ensures staleness == StalenessAfter(planets, old(staleness))
      ensures MuRecomputed(old(mu[..]), old(staleness))
      ensures reflected == planets.components
      ensures Consistent() && Tracks()
    {
      AssignSystematics();
      staleness := 0;
      reflected := planets.components;
      AddSignal(planets.components);
    }

    // -------------------------------------------------------------------------------
    // calculate_C

    /** calculate_C: the upper triangle row by row, each off-diagonal entry mirrored below
        the diagonal, the white-noise variance added on the diagonal. C is then symmetric. */
    method CalculateC()
      requires Valid()
      modifies C
      ensures CovarianceBuilt()
      ensures forall i, j :: 0 <= i < C.Length0 && 0 <= j < C.Length1 ==> C[i, j] == C[j, i]
    {
      var h := Eta(eta1, eta2, eta3, eta4);
      FillC(h, CovarianceMatrix(m, flags, data, h, jitters, extraSigma));
    }

    /** The loops of calculate_C, filling C with the covariance matrix `target` of the
        hyperparameters h: the upper triangle row by row, each entry above the diagonal
        mirrored below it. */
    method FillC(h: Eta, ghost target: seq<seq<real>>)
      requires Valid()
      requires IsCovariance(m, flags, data, h, jitters, extraSigma, target)
      modifies C
      ensures forall i, j :: 0 <= i < C.Length0 && 0 <= j < C.Length1 ==> C[i, j] == target[i][j]
    {
      var N := data.N();
      for i := 0 to N
        invariant forall r, c :: 0 <= r < N && 0 <= c < N && (r < i || c < i) ==> C[r, c] == target[r][c]
      {
        for j := i to N
          invariant forall r, c :: 0 <= r < N && 0 <= c < N && (r < i || c < i) ==> C[r, c] == target[r][c]
          invariant forall c :: i <= c < j ==> C[i, c] == target[i][c] && C[c, i] == target[c][i]
        {
          var v := UpperEntry(h, i, j, target);
          C[i, j] := v;
          if i != j {
            C[j, i] := v;
          }
        }
      }
    }

    /** The entry (i, j), i <= j, that calculate_C writes: the kernel at t[i] - t[j], plus
        the white-noise variance on the diagonal. It is also the mirrored entry (j, i). */
    method UpperEntry(h: Eta, i: nat, j: nat, ghost target: seq<seq<real>>) returns (v: real)
      requires Valid()
      requires i <= j < data.N()
      requires IsCovariance(m, flags, data, h, jitters, extraSigma, target)
      ensures v == target[i][j]
      ensures i < j ==> v == target[j][i]
    {
      v := Kernel(m, h, data.t[i] - data.t[j]);
      if i == j {
        if flags.multiInstrument {
          var jit := jitters[data.obsi[i] - 1];
          v := v + Sq(data.sig[i]) + Sq(jit);
        } else {
          v := v + Sq(data.sig[i]) + Sq(extraSigma);
        }
      }
      assert v == CovEntry(m, flags, data, h, jitters, extraSigma, i, j);
      assert i < j ==> v == CovEntry(m, flags, data, h, jitters, extraSigma, j, i);
    }

    // -------------------------------------------------------------------------------
    // from_prior

    /** The draws of from_prior after the planets: background, offsets and jitters (or
        extra_sigma), fiber offset, slope. */
    method DrawNoise(rng: Rng)
      requires Valid()
      modifies this`background, this`offsets, this`jitters, this`extraSigma, this`fiberOffset, this`slope, rng
      ensures Valid()
      ensures var r := NoiseDraw(flags, priors, old(Parameters()), rng.uniform, old(rng.pos));
              Parameters() == r.params && rng.pos == r.pos
    {
      background := rng.Generate(priors.c);
      DrawScales(rng);
      DrawFiberSlope(rng);
    }

    /** The fiber offset (with fibers) and the slope (with a trend). */
    method DrawFiberSlope(rng: Rng)
      requires Valid()
      modifies this`fiberOffset, this`slope, rng
      ensures Valid()
      ensures var r := FiberSlopeDraw(flags, priors, old(Parameters()), rng.uniform, old(rng.pos));
              Parameters() == r.params && rng.pos == r.pos
    {
      if flags.fibers {
        fiberOffset := rng.Generate(priors.fiberOffset);
      }
      if flags.trend {
        slope := rng.Generate(priors.slope);
      }
    }

    /** The offsets and jitters (several instruments) or extra_sigma (one instrument). */
    method DrawScales(rng: Rng)
      requires Valid()
      modifies this`offsets, this`jitters, this`extraSigma, rng
      ensures Valid()
      ensures var r := ScalesDraw(flags, priors, old(Parameters()), rng.uniform, old(rng.pos));
              Parameters() == r.params && rng.pos == r.pos
    {
      if flags.multiInstrument {
        offsets := GenerateEach(rng, priors.offsets, offsets);
        jitters := GenerateEach(rng, priors.j, jitters);
      } else {
        extraSigma := rng.Generate(priors.j);
      }
    }

    /** The GP draws of from_prior: eta1, eta2, eta3, eta4. */
    method DrawEta(rng: Rng)
      requires Valid()
      modifies this`eta1, this`eta2, this`eta3, this`eta4, rng
      ensures Valid()
      ensures var r := EtaDraw(m, priors, old(Parameters()), rng.uniform, old(rng.pos));
              Parameters() == r.params && rng.pos == r.pos
    {
      DrawEta12(rng);
      DrawEta34(rng);
    }

    /** The draws of eta1 and eta2: exponentials of draws from the priors of their logs. */
    method DrawEta12(rng: Rng)
      requires Valid()
      modifies this`eta1, this`eta2, rng
      ensures Valid()
      ensures var r := Eta12Draw(m, priors, old(Parameters()), rng.uniform, old(rng.pos));
              Parameters() == r.params && rng.pos == r.pos
    {
      var x := rng.Generate(priors.logEta1);
      eta1 := Exp(m, x);
      x := rng.Generate(priors.logEta2);
      eta2 := Exp(m, x);
    }

    /** The draws of eta3, from its prior, and of eta4, the exponential of a draw from the
        prior of its log. */
    method DrawEta34(rng: Rng)
      requires Valid()
      modifies this`eta3, this`eta4, rng
      ensures Valid()
      ensures var r := Eta34Draw(m, priors, old(Parameters()), rng.uniform, old(rng.pos));
              Parameters() == r.params && rng.pos == r.pos
    {
      eta3 := rng.Generate(priors.eta3);
      var x := rng.Generate(priors.logEta4);
      eta4 := Exp(m, x);
    }

    /** The draws of from_prior, before the buffers are recomputed. */
    method DrawParameters(rng: Rng)
      requires Valid()
      modifies this`planets, this`background, this`offsets, this`jitters, this`extraSigma, this`fiberOffset, this`slope,
               this`eta1, this`eta2, this`eta3, this`eta4, rng
      ensures Valid()
      ensures var r := FromPriorDraw(flags, m, priors, planetObj, old(Parameters()), rng.uniform, old(rng.pos));
              Parameters() == r.params && rng.pos == r.pos
    {
      planets := rng.PlanetsFromPrior(planetObj);
      planets := planetObj.Consolidated(planets);
      DrawNoise(rng);
      if flags.gp {
        DrawEta(rng);
      }
    }

    /** from_prior: draw every parameter from its prior (FromPriorDraw), then calculate_mu
        and, with a GP, calculate_C. */
    method FromPrior(rng: Rng)
      requires Valid()
      modifies this, mu, C, rng
      ensures Valid()
      ensures var r := FromPriorDraw(flags, m, priors, planetObj, old(Parameters()), rng.uniform, old(rng.pos));
              Parameters() == r.params && rng.pos == r.pos
      ensures staleness == StalenessAfter(planets, old(staleness))
      ensures MuRecomputed(old(mu[..]), old(staleness))
      ensures !IncrementalUpdate(planets, old(staleness)) ==> Consistent() && Tracks()
      ensures flags.gp ==> CovarianceBuilt()
      ensures !flags.gp ==> forall i, j :: 0 <= i < C.Length0 && 0 <= j < C.Length1 ==> C[i, j] == old(C[i, j])
    {
      DrawParameters(rng);
      ghost var drawn := Parameters();
      CalculateMu();
      assert Parameters() == drawn;
      if flags.gp {
        CalculateC();
      }
    }

    // -------------------------------------------------------------------------------
    // perturb

    /** The planets branch: perturb and consolidate the planet set, then calculate_mu. */
    method PerturbPlanets(rng: Rng) returns (logH: real)
      requires Valid()
      modifies this`planets, this`staleness, this`reflected, mu, rng
      ensures Valid()
      ensures var r := PlanetsProposal(planetObj, old(Parameters()), rng.uniform, old(rng.pos));
              Parameters() == r.params && rng.pos == r.pos
      ensures logH == planetObj.PerturbedAt(old(planets), rng.uniform, old(rng.pos)).logH
      ensures staleness == StalenessAfter(planets, old(staleness))
      ensures MuRecomputed(old(mu[..]), old(staleness))
      ensures forall i, j :: 0 <= i < C.Length0 && 0 <= j < C.Length1 ==> C[i, j] == old(C[i, j])
      ensures old(Consistent()) ==> Consistent()
      ensures old(Tracks()) && GrowthOnly(old(planets), planets) ==> Tracks()
      ensures old(Consistent() && Tracks()) && GrowthOnly(old(planets), planets) ==> MuIsModel()
    {
      var next;
      next, logH := rng.PerturbPlanets(planetObj, planets);
      planets := planetObj.Consolidated(next);
      CalculateMu();
    }

    /** The hyperparameter branch without its calculate_C: one of eta1..eta4. */
    method PerturbHyper(rng: Rng)
      requires Valid()
      modifies this`eta1, this`eta2, this`eta3, this`eta4, this`logEta1, this`logEta2, this`logEta4, rng
      ensures Valid()
      ensures var r := HyperProposal(m, priors, old(Parameters()), rng.uniform, old(rng.pos));
              Parameters() == r.params && rng.pos == r.pos
    {
      var which := ChooseHyper(rng);
      PerturbHyperParameter(rng, which);
    }

    /** The draw of the hyperparameter branch once `which` is chosen. */
    method PerturbHyperParameter(rng: Rng, which: Hyper)
      requires Valid()
      modifies this`eta1, this`eta2, this`eta3, this`eta4, this`logEta1, this`logEta2, this`logEta4, rng
      ensures Valid()
      ensures var r := HyperPerturbed(m, priors, old(Parameters()), which, rng.uniform, old(rng.pos));
              Parameters() == r.params && rng.pos == r.pos
    {
      ghost var p0 := Parameters();
      match which {
        case Eta1 =>
          logEta1, eta1 := PerturbLogScale(rng, priors.logEta1, eta1);
          assert Parameters() == p0.(logEta1 := logEta1, eta1 := eta1);
        case Eta2 =>
          logEta2, eta2 := PerturbLogScale(rng, priors.logEta2, eta2);
          assert Parameters() == p0.(logEta2 := logEta2, eta2 := eta2);
        case Eta3 =>
          var y, _ := rng.Perturb(priors.eta3, eta3);
          eta3 := y;
          assert Parameters() == p0.(eta3 := eta3);
        case Eta4 =>
          logEta4, eta4 := PerturbLogScale(rng, priors.logEta4, eta4);
          assert Parameters() == p0.(logEta4 := logEta4, eta4 := eta4);
      }
    }

    /** The flips at the head of the hyperparameter branch, made one after the other until
        one picks a hyperparameter. */
    method ChooseHyper(rng: Rng) returns (which: Hyper)
      modifies rng
      ensures var c := HyperChoice(rng.uniform, old(rng.pos));
              which == c.0 && rng.pos == c.1
    {
      var u := rng.Rand();
      if u <= 0.25 {
        which := Eta1;
      } else {
        u := rng.Rand();
        if u <= 0.33330 {
          which := Eta2;
        } else {
          u := rng.Rand();
          which := if u <= 0.5 then Eta3 else Eta4;
        }
      }
    }

    /** A hyperparameter whose prior is on its logarithm: log_eta = log(eta), perturb
        log_eta, eta = exp(log_eta). */
    method PerturbLogScale(rng: Rng, prior: Prior, x: real) returns (logX: real, y: real)
      modifies rng
      ensures var d := prior.Perturbed(Log(m, x), rng.uniform, old(rng.pos));
              logX == d.value && y == Exp(m, d.value) && rng.pos == old(rng.pos) + d.used
    {
      logX := Log(m, x);
      var h;
      logX, h := rng.Perturb(prior, logX);
      y := Exp(m, logX);
    }

    /** The jitter branch without its calculate_C: every jitter, or extra_sigma. */
    method PerturbJitters(rng: Rng)
      requires Valid()
      modifies this`jitters, this`extraSigma, rng
      ensures Valid()
      ensures var r := JittersProposal(flags, priors, old(Parameters()), rng.uniform, old(rng.pos));
              Parameters() == r.params && rng.pos == r.pos
    {
      if flags.multiInstrument {
        jitters := PerturbEach(rng, priors.j, jitters);
      } else {
        var y, _ := rng.Perturb(priors.j, extraSigma);
        extraSigma := y;
      }
    }

    /** The first loop of the systematics branch: subtract each active systematic term
        from every entry of mu. */
    method RemoveSystematics()
      requires Valid()
      modifies mu
      ensures forall i :: 0 <= i < mu.Length ==>
                mu[i] == old(mu[i]) - SystematicAt(flags, data, SystematicsOf(Parameters()), i)
    {
      for i := 0 to mu.Length
        invariant forall k :: 0 <= k < i ==>
                    mu[k] == old(mu[k]) - SystematicAt(flags, data, SystematicsOf(Parameters()), k)
        invariant forall k :: i <= k < mu.Length ==> mu[k] == old(mu[k])
      {
        RemoveAt(i);
      }
    }

    /** One step of the first loop: background, the trend, the offset of the instrument
        and the fiber offset, each subtracted from entry i when active. */
    method RemoveAt(i: nat)
      requires Valid() && i < mu.Length
      modifies mu
      ensures mu[i] == old(mu[i]) - SystematicAt(flags, data, SystematicsOf(Parameters()), i)
      ensures forall k :: 0 <= k < mu.Length && k != i ==> mu[k] == old(mu[k])
    {
      mu[i] := mu[i] - background;
      if flags.trend {
        mu[i] := mu[i] - slope * (data.t[i] - data.tMiddle);
      }
      assert mu[i] == old(mu[i]) - (background + TrendAt(flags, data, slope, i));
      if flags.multiInstrument {
        for j := 0 to |offsets|
          invariant mu[i] == old(mu[i]) - (background + TrendAt(flags, data, slope, i) + OffsetUpTo(offsets, data.obsi[i], j))
          invariant forall k :: 0 <= k < mu.Length && k != i ==> mu[k] == old(mu[k])
        {
          if data.obsi[i] == j + 1 {
            mu[i] := mu[i] - offsets[j];
          }
        }
      }
      assert mu[i] == old(mu[i]) - (background + TrendAt(flags, data, slope, i) + OffsetAt(flags, data, offsets, i));
      if flags.fibers {
        if i >= data.indexFibers {
          mu[i] := mu[i] - fiberOffset;
        }
      }
    }

    /** The last loop of the systematics branch: add each active systematic term back. */
    method RestoreSystematics()
      requires Valid()
      modifies mu
      ensures forall i :: 0 <= i < mu.Length ==>
                mu[i] == old(mu[i]) + SystematicAt(flags, data, SystematicsOf(Parameters()), i)
    {
      for i := 0 to mu.Length
        invariant forall k :: 0 <= k < i ==>
                    mu[k] == old(mu[k]) + SystematicAt(flags, data, SystematicsOf(Parameters()), k)
        invariant forall k :: i <= k < mu.Length ==> mu[k] == old(mu[k])
      {
        RestoreAt(i);
      }
    }

    /** One step of the last loop: each active systematic term added back onto entry i. */
    method RestoreAt(i: nat)
      requires Valid() && i < mu.Length
      modifies mu
      ensures mu[i] == old(mu[i]) + SystematicAt(flags, data, SystematicsOf(Parameters()), i)
      ensures forall k :: 0 <= k < mu.Length && k != i ==> mu[k] == old(mu[k])
    {
      mu[i] := mu[i] + background;
      if flags.trend {
        mu[i] := mu[i] + slope * (data.t[i] - data.tMiddle);
      }
      assert mu[i] == old(mu[i]) + (background + TrendAt(flags, data, slope, i));
      if flags.multiInstrument {
        for j := 0 to |offsets|
          invariant mu[i] == old(mu[i]) + (background + TrendAt(flags, data, slope, i) + OffsetUpTo(offsets, data.obsi[i], j))
          invariant forall k :: 0 <= k < mu.Length && k != i ==> mu[k] == old(mu[k])
        {
          if data.obsi[i] == j + 1 {
            mu[i] := mu[i] + offsets[j];
          }
        }
      }
      assert mu[i] == old(mu[i]) + (background + TrendAt(flags, data, slope, i) + OffsetAt(flags, data, offsets, i));
      if flags.fibers {
        if i >= data.indexFibers {
          mu[i] := mu[i] + fiberOffset;
        }
      }
    }

    /** The systematics branch: subtract the systematic terms, perturb background, the
        offsets, the fiber offset and the slope, add the new terms. Each entry of mu then
        differs from the old one by exactly the change of the systematic part, and is
        unchanged when no systematic parameter changed. */
    method PerturbSystematics(rng: Rng)
      requires Valid()
      modifies this`background, this`offsets, this`fiberOffset, this`slope, mu, rng
      ensures Valid()
      ensures var r := SystematicsProposal(flags, priors, old(Parameters()), rng.uniform, old(rng.pos));
              Parameters() == r.params && rng.pos == r.pos
      ensures forall i :: 0 <= i < mu.Length ==>
                mu[i] == old(mu[i]) - SystematicAt(flags, data, old(SystematicsOf(Parameters())), i)
                         + SystematicAt(flags, data, SystematicsOf(Parameters()), i)
      ensures SystematicsOf(Parameters()) == old(SystematicsOf(Parameters())) ==> mu[..] == old(mu[..])
      ensures staleness == old(staleness) && reflected == old(reflected)
      ensures forall i, j :: 0 <= i < C.Length0 && 0 <= j < C.Length1 ==> C[i, j] == old(C[i, j])
      ensures old(Consistent()) ==> Consistent()
    {
      RemoveSystematics();
      PerturbSystematicParameters(rng);
      RestoreSystematics();
    }

    /** The draws of the systematics branch, between the removal and the restoration of
        the systematic terms. */
    method PerturbSystematicParameters(rng: Rng)
      requires Valid()
      modifies this`background, this`offsets, this`fiberOffset, this`slope, rng
      ensures Valid()
      ensures var r := SystematicsProposal(flags, priors, old(Parameters()), rng.uniform, old(rng.pos));
              Parameters() == r.params && rng.pos == r.pos
    {
      PerturbBackgroundOffsets(rng);
      PerturbFiberSlope(rng);
    }

    /** Background, then the offsets with several instruments. */
    method PerturbBackgroundOffsets(rng: Rng)
      requires Valid()
      modifies this`background, this`offsets, rng
      ensures Valid()
      ensures var r := BackgroundOffsetsProposal(flags, priors, old(Parameters()), rng.uniform, old(rng.pos));
              Parameters() == r.params && rng.pos == r.pos
    {
      var b, _ := rng.Perturb(priors.c, background);
      background := b;
      if flags.multiInstrument {
        offsets := PerturbEach(rng, priors.offsets, offsets);
      }
    }

    /** The fiber offset with fibers, then the slope with a trend. */
    method PerturbFiberSlope(rng: Rng)
      requires Valid()
      modifies this`fiberOffset, this`slope, rng
      ensures Valid()
      ensures var r := FiberSlopeProposal(flags, priors, old(Parameters()), rng.uniform, old(rng.pos));
              Parameters() == r.params && rng.pos == r.pos
    {
      if flags.fibers {
        var f, _ := rng.Perturb(priors.fiberOffset, fiberOffset);
        fiberOffset := f;
      }
      if flags.trend {
        var s, _ := rng.Perturb(priors.slope, slope);
        slope := s;
      }
    }

    /** perturb: the coin flips choose a branch (Choose); only the planets branch gives a
        non-zero logH; the GP hyperparameter and jitter branches leave mu alone and
        rebuild C; without a GP the jitter branch touches neither; the systematics branch
        swaps the old systematic part of mu for the new one. */
    method Perturb(rng: Rng) returns (logH: real)
      requires Valid()
      modifies this, mu, C, rng
      ensures Valid()
      ensures var o := Proposal(flags, m, priors, planetObj, old(Parameters()), rng.uniform, old(rng.pos));
              Parameters() == o.params && rng.pos == o.pos && logH == o.logH
      ensures var move := Choose(flags.gp, rng.uniform, old(rng.pos)).0;
              && (move == PlanetsMove ==>
                    staleness == StalenessAfter(planets, old(staleness)) && MuRecomputed(old(mu[..]), old(staleness)))
              && (move != PlanetsMove ==> staleness == old(staleness) && reflected == old(reflected))
              && (move == HyperMove || move == JittersMove ==> mu[..] == old(mu[..]))
              && (move == SystematicsMove ==>
                    forall i :: 0 <= i < mu.Length ==>
                      mu[i] == old(mu[i]) - SystematicAt(flags, data, old(SystematicsOf(Parameters())), i)
                               + SystematicAt(flags, data, SystematicsOf(Parameters()), i))
              && (move == HyperMove || (move == JittersMove && flags.gp) ==> CovarianceBuilt())
              && (move == PlanetsMove || move == SystematicsMove || !flags.gp ==>
                    forall i, j :: 0 <= i < C.Length0 && 0 <= j < C.Length1 ==> C[i, j] == old(C[i, j]))
      ensures old(Consistent()) ==> Consistent()
      ensures var move := Choose(flags.gp, rng.uniform, old(rng.pos)).0;
              old(Tracks()) && (move == PlanetsMove ==> GrowthOnly(old(planets), planets)) ==> Tracks()
      ensures var move := Choose(flags.gp, rng.uniform, old(rng.pos)).0;
              old(Consistent() && Tracks()) && (move == PlanetsMove ==> GrowthOnly(old(planets), planets)) ==> MuIsModel()
    {
      ghost var tracked := Consistent() && Tracks();
      ghost var p0, pos0 := Parameters(), rng.pos;
      var move := ChooseMove(rng);
      logH := PerturbBy(rng, move);
      ProposalOfChoice(flags, m, priors, planetObj, p0, rng.uniform, pos0);
      if tracked && Tracks() {
        TrackedIsModel();
      }
    }

    /** The branch `move` of perturb, after the coin flips (which choose the hyperparameter
        branch only with a GP). */
    method PerturbBy(rng: Rng, move: Move) returns (logH: real)
      requires Valid()
      requires move == HyperMove ==> flags.gp
      modifies this, mu, C, rng
      ensures Valid()
      ensures var q := MoveProposal(flags, m, priors, planetObj, move, old(Parameters()), rng.uniform, old(rng.pos));
              Parameters() == q.params && rng.pos == q.pos
      ensures logH == if move == PlanetsMove then planetObj.PerturbedAt(old(planets), rng.uniform, old(rng.pos)).logH else 0.0
      ensures && (move == PlanetsMove ==>
                    staleness == StalenessAfter(planets, old(staleness)) && MuRecomputed(old(mu[..]), old(staleness)))
              && (move != PlanetsMove ==> staleness == old(staleness) && reflected == old(reflected))
              && (move == HyperMove || move == JittersMove ==> mu[..] == old(mu[..]))
              && (move == SystematicsMove ==>
                    forall i :: 0 <= i < mu.Length ==>
                      mu[i] == old(mu[i]) - SystematicAt(flags, data, old(SystematicsOf(Parameters())), i)
                               + SystematicAt(flags, data, SystematicsOf(Parameters()), i))
              && (move == HyperMove || (move == JittersMove && flags.gp) ==> CovarianceBuilt())
              && (move == PlanetsMove || move == SystematicsMove || !flags.gp ==>
                    forall i, j :: 0 <= i < C.Length0 && 0 <= j < C.Length1 ==> C[i, j] == old(C[i, j]))
      ensures old(Consistent()) ==> Consistent()
      ensures old(Tracks()) && (move == PlanetsMove ==> GrowthOnly(old(planets), planets)) ==> Tracks()
    {
      logH := 0.0;
      match move {
      case PlanetsMove =>
        var h := PerturbPlanets(rng);
        logH := logH + h;
      case HyperMove =>
        HyperBranch(rng);
      case JittersMove =>
        JittersBranch(rng);
      case SystematicsMove =>
        PerturbSystematics(rng);
      }
    }

    /** The hyperparameter branch of perturb: one of eta1..eta4, then calculate_C. */
    method HyperBranch(rng: Rng)
      requires Valid()
      modifies this`eta1, this`eta2, this`eta3, this`eta4, this`logEta1, this`logEta2, this`logEta4, C, rng
      ensures Valid()
      ensures var r := HyperProposal(m, priors, old(Parameters()), rng.uniform, old(rng.pos));
              Parameters() == r.params && rng.pos == r.pos
      ensures CovarianceBuilt()
      ensures staleness == old(staleness) && reflected == old(reflected)
      ensures mu[..] == old(mu[..])
      ensures old(Consistent()) ==> Consistent()
    {
      PerturbHyper(rng);
      CalculateC();
    }

    /** The jitter branch of perturb: the jitters, then calculate_C when there is a GP. */
    method JittersBranch(rng: Rng)
      requires Valid()
      modifies this`jitters, this`extraSigma, C, rng
      ensures Valid()
      ensures var r := JittersProposal(flags, priors, old(Parameters()), rng.uniform, old(rng.pos));
              Parameters() == r.params && rng.pos == r.pos
      ensures flags.gp ==> CovarianceBuilt()
      ensures !flags.gp ==> forall i, j :: 0 <= i < C.Length0 && 0 <= j < C.Length1 ==> C[i, j] == old(C[i, j])
      ensures staleness == old(staleness) && reflected == old(reflected)
      ensures mu[..] == old(mu[..])
      ensures old(Consistent()) ==> Consistent()
    {
      PerturbJitters(rng);
      if flags.gp {
        CalculateC();
      }
    }

    /** The coin flips at the head of perturb, made one after the other until one picks a
        branch. */
    method ChooseMove(rng: Rng) returns (move: Move)
      modifies rng
      ensures var c := Choose(flags.gp, rng.uniform, old(rng.pos));
              move == c.0 && rng.pos == c.1
    {
      var u := rng.Rand();
      if flags.gp {
        if u <= 0.5 {
          return PlanetsMove;
        }
        u := rng.Rand();
        if u <= 0.5 {
          return HyperMove;
        }
        u := rng.Rand();
        move := if u <= 0.5 then JittersMove else SystematicsMove;
      } else {
        if u <= 0.75 {
          return PlanetsMove;
        }
        u := rng.Rand();
        move := if u <= 0.5 then JittersMove else SystematicsMove;
      }
    }

    // -------------------------------------------------------------------------------
    // print and description

    /** print: the values of one line of the sample file. */
    method Print() returns (out: seq<real>)
      ensures out == Printed(flags, Parameters(), planetObj.PrintedOf(planets), staleness)
    {
      out := PrintOwn();
      out := out + planetObj.PrintedOf(planets);
      out := out + [staleness as real, background];
    }

    /** The values print writes before the planet set's. */
    method PrintOwn() returns (out: seq<real>)
      ensures out == PrintedOwn(flags, Parameters())
    {
      out := [];
      if flags.multiInstrument {
        out := AppendEach(out, jitters);
      } else {
        out := out + [extraSigma];
      }
      ghost var a := out;
      assert a == if flags.multiInstrument then jitters else [extraSigma];
      if flags.trend {
        out := out + [slope];
      }
      ghost var b := out;
      assert b == a + if flags.trend then [slope] else [];
      if flags.fibers {
        out := out + [fiberOffset];
      }
      ghost var c := out;
      assert c == b + if flags.fibers then [fiberOffset] else [];
      if flags.multiInstrument {
        out := AppendEach(out, offsets);
      }
      ghost var d := out;
      assert d == c + if flags.multiInstrument then offsets else [];
      if flags.gp {
        out := out + [eta1, eta2, eta3, eta4];
      }
      assert out == d + if flags.gp then [eta1, eta2, eta3, eta4] else [];
    }

    /** description: the header naming the columns print writes. */
    method Description() returns (desc: string)
      ensures desc == DescriptionOf(flags, |jitters|, |offsets|, planetObj.maxNumComponents)
    {
      desc := DescribeOwnColumns();
      ghost var own := desc;
      desc := desc + "ndim   maxNp   ";
      if flags.hyperpriors {
        desc := desc + "muP   wP   muK   ";
      }
      desc := desc + "Np   ";
      if planetObj.maxNumComponents > 0 {
        desc := desc + "P   K   phi   ecc   w   ";
      }
      assert desc == own + PlanetDescription(flags.hyperpriors, planetObj.maxNumComponents);
      desc := desc + "staleness   vsys";
      DescriptionParts(flags, |jitters|, |offsets|, planetObj.maxNumComponents);
    }

    /** The first part of description: the names of RVmodel's own columns. */
    method DescribeOwnColumns() returns (desc: string)
      ensures desc == OwnDescription(flags, |jitters|, |offsets|)
    {
      desc := "";
      if flags.multiInstrument {
        var names := DescribeNumbered("jitter", |jitters|);
        desc := desc + names;
      } else {
        desc := desc + "extra_sigma   ";
      }
      assert desc == JitterNames(flags, |jitters|);
      if flags.trend {
        desc := desc + "slope   ";
      }
      assert desc == JitterNames(flags, |jitters|) + SlopeName(flags);
      if flags.fibers {
        desc := desc + "fiber_offset   ";
      }
      ghost var d3 := desc;
      assert d3 == JitterNames(flags, |jitters|) + SlopeName(flags) + FiberName(flags);
      if flags.multiInstrument {
        var names := DescribeNumbered("offset", |offsets|);
        desc := desc + names;
      }
      assert desc == d3 + OffsetNames(flags, |offsets|);
      if flags.gp {
        desc := desc + "eta1   eta2   eta3   eta4   ";
      }
      assert desc == d3 + OffsetNames(flags, |offsets|) + EtaNames(flags);
    }

    // -------------------------------------------------------------------------------
    // log_likelihood

    /** The GP branch of log_likelihood: residual, Cholesky factor, log determinant,
        solve and exponent, before the final check. */
    method GpLogLikelihood() returns (logL: Double)
      requires Valid()
      ensures logL == GpLogL(m, la, Matrix(), Residuals(data.y, mu[..]))
    {
      var residual := Residual();
      var cholesky := Matrix();
      var logDeterminant := LogDeterminantOf(m, la, cholesky, data.N());
      var exponent := ExponentOf(la, cholesky, residual);
      logL := Sub(Sub(Finite(Normalization(m, data.N())), Scale(0.5, logDeterminant)),
                  Scale(0.5, exponent));
    }

    /** The residual vector y - mu that the GP branch solves against. */
    method Residual() returns (residual: seq<real>)
      requires Valid()
      ensures residual == Residuals(data.y, mu[..])
    {
      residual := [];
      for i := 0 to data.N()
        invariant residual == Residuals(data.y, mu[..])[..i]
      {
        residual := residual + [data.y[i] - mu[i]];
      }
      assert residual == Residuals(data.y, mu[..]);
    }

    /** The Gaussian branch of log_likelihood, before the final check. */
    method GaussianLogLikelihood() returns (logL: Double)
      requires Valid()
      ensures logL == GaussianAccum(m, flags, data, jitters, extraSigma, mu[..], data.N())
    {
      ghost var mus := mu[..];
      logL := Finite(0.0);
      for i := 0 to data.N()
        invariant logL == GaussianAccum(m, flags, data, jitters, extraSigma, mus, i)
      {
        var v;
        if flags.multiInstrument {
          var jit := jitters[data.obsi[i] - 1];
          v := Sq(data.sig[i]) + Sq(jit);
        } else {
          v := Sq(data.sig[i]) + Sq(extraSigma);
        }
        assert v == WhiteVariance(flags, data, jitters, extraSigma, i);
        logL := Add(logL, GaussianTerm(m, data.y[i] - mu[i], v));
      }
    }

    /** log_likelihood: the Gaussian sum without a GP, the multivariate Gaussian of
        covariance C with one; a NaN or infinite value is returned as +inf. It changes
        nothing. */
    method LogLikelihood() returns (logL: Double)
      requires Valid()
      ensures !flags.gp ==> logL == Sanitize(GaussianAccum(m, flags, data, jitters, extraSigma, mu[..], data.N()))
      ensures flags.gp ==> logL == Sanitize(GpLogL(m, la, Matrix(), Residuals(data.y, mu[..])))
      ensures logL.Finite? || logL.PosInf?
    {
      if flags.gp {
        logL := GpLogLikelihood();
      } else {
        logL := GaussianLogLikelihood();
      }
      if !logL.Finite? {
        logL := PosInf;
      }
    }
  }

  /** The log-determinant loop of the GP branch: 2 log L(i,i) summed over the first n
      pivots of the decomposition. */
  method LogDeterminantOf(m: Libm, la: LinAlg, cholesky: seq<seq<real>>, n: nat) returns (logDeterminant: Double)
    ensures logDeterminant == LogDeterminant(m, la, cholesky, n)
  {
    logDeterminant := Finite(0.0);
    for i := 0 to n
      invariant logDeterminant == LogDeterminant(m, la, cholesky, i)
    {
      logDeterminant := Add(logDeterminant, Scale(2.0, LogOf(m, la.lowerDiagonal(cholesky, i))));
    }
  }

  /** The exponent loop of the GP branch: r[i] times the i-th entry of the solution of
      C x = r, summed over every i. */
  method ExponentOf(la: LinAlg, cholesky: seq<seq<real>>, residual: seq<real>) returns (exponent: Double)
    ensures exponent == Exponent(la, cholesky, residual, |residual|)
  {
    exponent := Finite(0.0);
    for i := 0 to |residual|
      invariant exponent == Exponent(la, cholesky, residual, i)
    {
      exponent := Add(exponent, Mul(Finite(residual[i]), la.solve(cholesky, residual, i)));
    }
  }
}
