/**
 * The DNest4 collaborators of RVmodel, seen only through what RVmodel does with them.
 *
 * - `Rng` is the random number generator passed to from_prior and perturb: a stream of
 *   uniform draws that every call consumes from the current position on.
 * - A `Prior` is one of the ContinuousDistribution objects (Cprior, Jprior, ...): its
 *   `generate` and `perturb` are functions of the stream and the position they start at,
 *   returning the value, the log proposal ratio and the number of draws they used.
 * - A `PlanetObject` is the RJObject holding the planet components: its from_prior,
 *   perturb and consolidate_diff are uninterpreted functions on a `PlanetSet`.
 */
module DNest {
  import opened Signal

  /** What one call on a prior produces. */
  datatype Draw = Draw(value: real, logH: real, used: nat)

  /** Draw `i` of the uniform stream `u`. Methods read the stream through this function
      (and through the members below), so that what they state about a draw is the same
      term as the one the specification functions apply. */
  function Uniform(u: nat -> real, i: nat): real {
    u(i)
  }

  /** A ContinuousDistribution. */
  datatype Prior = Prior(
    generate: (nat -> real, nat) -> Draw,
    perturb: (real, nat -> real, nat) -> Draw)
  {
    function Generated(u: nat -> real, pos: nat): Draw {
      generate(u, pos)
    }

    function Perturbed(x: real, u: nat -> real, pos: nat): Draw {
      perturb(x, u, pos)
    }
  }

  /** The prior objects RVmodel uses. */
  datatype Priors = Priors(
    c: Prior,
    j: Prior,
    slope: Prior,
    offsets: Prior,
    fiberOffset: Prior,
    logEta1: Prior,
    logEta2: Prior,
    eta3: Prior,
    logEta4: Prior)

  /** The planet set: all current components and the ones added by the last change. */
  datatype PlanetSet = PlanetSet(components: seq<Planet>, added: seq<Planet>)

  /** The change from `before` to `after` only added components: the components of
      `after` are those of `before` together with its added ones, in some order. This is
      what calculate_mu's incremental path takes for granted of the planet set. */
  predicate GrowthOnly(before: PlanetSet, after: PlanetSet) {
    multiset(after.components) == multiset(before.components) + multiset(after.added)
  }

  /** What a from_prior or perturb call on the planet set produces. */
  datatype PlanetStep = PlanetStep(next: PlanetSet, logH: real, used: nat)

  /** The RJObject<RVConditionalPrior> behaviour RVmodel relies on. `printed` gives the
      values planets.print writes (ndim, maxNp, hyperparameters, Np, components). */
  datatype PlanetObject = PlanetObject(
    fromPrior: (nat -> real, nat) -> PlanetStep,
    perturb: (PlanetSet, nat -> real, nat) -> PlanetStep,
    consolidateDiff: PlanetSet -> PlanetSet,
    printed: PlanetSet -> seq<real>,
    maxNumComponents: nat)
  {
    function FromPriorAt(u: nat -> real, pos: nat): PlanetStep {
      fromPrior(u, pos)
    }

    function PerturbedAt(s: PlanetSet, u: nat -> real, pos: nat): PlanetStep {
      perturb(s, u, pos)
    }

    function Consolidated(s: PlanetSet): PlanetSet {
      consolidateDiff(s)
    }

    function PrintedOf(s: PlanetSet): seq<real> {
      printed(s)
    }
  }

  /** A list of values and the stream position after producing them. */
  datatype Draws = Draws(values: seq<real>, pos: nat)

  /** n calls of p.generate in a row, from position pos: the values of the loop
      `x[i] = prior->generate(rng)` for i = 0 .. n-1. */
  function GenerateSeq(p: Prior, u: nat -> real, n: nat, pos: nat): (r: Draws)
    ensures |r.values| == n
    ensures r.pos >= pos
  {
    if n == 0 then Draws([], pos)
    else
      var r := GenerateSeq(p, u, n - 1, pos);
      var d := p.generate(u, r.pos);
      Draws(r.values + [d.value], r.pos + d.used)
  }

  /** p.perturb applied to every entry of xs in order, from position pos: the loop
      `prior->perturb(x[i], rng)` for i = 0 .. |xs|-1 (the returned log ratios are dropped). */
  function PerturbSeq(p: Prior, u: nat -> real, xs: seq<real>, pos: nat): (r: Draws)
    ensures |r.values| == |xs|
    ensures r.pos >= pos
  {
    if |xs| == 0 then Draws([], pos)
    else
      var r := PerturbSeq(p, u, xs[..|xs| - 1], pos);
      var d := p.perturb(xs[|xs| - 1], u, r.pos);
      Draws(r.values + [d.value], r.pos + d.used)
  }

  /** The RNG: a stream of uniform draws and the position of the next one. */
  class Rng {
    const uniform: nat -> real
    var pos: nat

    constructor (uniform: nat -> real)
      ensures this.uniform == uniform && pos == 0
    {
      this.uniform := uniform;
      pos := 0;
    }

    /** rng.rand(): the next uniform draw. */
    method Rand() returns (x: real)
      modifies this
      ensures x == Uniform(uniform, old(pos)) && pos == old(pos) + 1
    {
      x := Uniform(uniform, pos);
      pos := pos + 1;
    }

    /** prior->generate(rng). */
    method Generate(p: Prior) returns (x: real)
      modifies this
      ensures x == p.Generated(uniform, old(pos)).value
      ensures pos == old(pos) + p.Generated(uniform, old(pos)).used
    {
      var d := p.Generated(uniform, pos);
      x := d.value;
      pos := pos + d.used;
    }

    /** prior->perturb(x, rng): the new value of x and the log proposal ratio. */
    method Perturb(p: Prior, x: real) returns (y: real, logH: real)
      modifies this
      ensures y == p.Perturbed(x, uniform, old(pos)).value
      ensures logH == p.Perturbed(x, uniform, old(pos)).logH
      ensures pos == old(pos) + p.Perturbed(x, uniform, old(pos)).used
    {
      var d := p.Perturbed(x, uniform, pos);
      y, logH := d.value, d.logH;
      pos := pos + d.used;
    }

    /** planets.from_prior(rng). */
    method PlanetsFromPrior(obj: PlanetObject) returns (s: PlanetSet)
      modifies this
      ensures s == obj.FromPriorAt(uniform, old(pos)).next
      ensures pos == old(pos) + obj.FromPriorAt(uniform, old(pos)).used
    {
      var step := obj.FromPriorAt(uniform, pos);
      s := step.next;
      pos := pos + step.used;
    }

    /** planets.perturb(rng): the new planet set and its log proposal ratio. */
    method PerturbPlanets(obj: PlanetObject, s: PlanetSet) returns (next: PlanetSet, logH: real)
      modifies this
      ensures next == obj.PerturbedAt(s, uniform, old(pos)).next
      ensures logH == obj.PerturbedAt(s, uniform, old(pos)).logH
      ensures pos == old(pos) + obj.PerturbedAt(s, uniform, old(pos)).used
    {
      var step := obj.PerturbedAt(s, uniform, pos);
      next, logH := step.next, step.logH;
      pos := pos + step.used;
    }
  }

  /** The loop `for i: x[i] = prior->generate(rng)` over a vector of n values. */
  method GenerateEach(rng: Rng, p: Prior, xs: seq<real>) returns (ys: seq<real>)
    modifies rng
    ensures ys == GenerateSeq(p, rng.uniform, |xs|, old(rng.pos)).values
    ensures rng.pos == GenerateSeq(p, rng.uniform, |xs|, old(rng.pos)).pos
  {
    ghost var pos0 := rng.pos;
    ys := xs;
    for i := 0 to |xs|
      invariant |ys| == |xs|
      invariant ys[..i] == GenerateSeq(p, rng.uniform, i, pos0).values
      invariant rng.pos == GenerateSeq(p, rng.uniform, i, pos0).pos
    {
      var y := rng.Generate(p);
      assert ys[i := y][..i + 1] == ys[..i] + [y];
      ys := ys[i := y];
    }
    assert ys[..|xs|] == ys;
  }

  /** The loop `for i: prior->perturb(x[i], rng)` over a vector, in index order. */
  method PerturbEach(rng: Rng, p: Prior, xs: seq<real>) returns (ys: seq<real>)
    modifies rng
    ensures ys == PerturbSeq(p, rng.uniform, xs, old(rng.pos)).values
    ensures rng.pos == PerturbSeq(p, rng.uniform, xs, old(rng.pos)).pos
  {
    ghost var pos0 := rng.pos;
    ys := xs;
    for i := 0 to |xs|
      invariant |ys| == |xs|
      invariant ys[..i] == PerturbSeq(p, rng.uniform, xs[..i], pos0).values
      invariant ys[i..] == xs[i..]
      invariant rng.pos == PerturbSeq(p, rng.uniform, xs[..i], pos0).pos
    {
      assert xs[..i + 1][..i] == xs[..i];
      assert ys[i] == xs[i];
      var y, _ := rng.Perturb(p, ys[i]);
      assert ys[i := y][..i + 1] == ys[..i] + [y];
      ys := ys[i := y];
    }
    assert ys[..|xs|] == ys;
    assert xs[..|xs|] == xs;
  }
}
