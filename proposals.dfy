/**
 * The parameters of an RVmodel as one value, and what from_prior, perturb and the
 * update policy of calculate_mu do to them, as functions of the old parameters and of
 * the RNG stream. The class in RVModel is proved to follow these functions; the
 * properties of the proposals are proved here, once, on values.
 */
module Proposals {
  import opened Numerics
  import opened Observations
  import opened Signal
  import opened Covariance
  import opened DNest

  /** Every parameter field of RVmodel (the mean buffer, C and staleness aside). */
  datatype Params = Params(
    planets: PlanetSet,
    background: real,
    offsets: seq<real>,
    jitters: seq<real>,
    slope: real,
    fiberOffset: real,
    extraSigma: real,
    eta1: real,
    eta2: real,
    eta3: real,
    eta4: real,
    logEta1: real,
    logEta2: real,
    logEta4: real)

  /** The systematic parameters: what the systematics branch perturbs. */
  function SystematicsOf(p: Params): Systematics {
    Systematics(p.background, p.slope, p.offsets, p.fiberOffset)
  }

  /** The GP hyperparameters. */
  function EtaOf(p: Params): Eta {
    Eta(p.eta1, p.eta2, p.eta3, p.eta4)
  }

  /** The vectors have the sizes the header gives them: number_instruments - 1 offsets
      and number_instruments jitters. */
  predicate Sized(d: Data, p: Params) {
    d.numberInstruments >= 1
    && |p.offsets| == d.numberInstruments - 1
    && |p.jitters| == d.numberInstruments
  }

  /** The parameters after a proposal and the stream position after it. */
  datatype Proposed = Proposed(params: Params, pos: nat)

  // ---------------------------------------------------------------------------------
  // The update policy of calculate_mu

  /** calculate_mu only adds the new components' signal when fewer components were added
      than there are in total and the buffer has been updated at most 10 times since the
      last rebuild; otherwise it rebuilds the buffer. */
  predicate IncrementalUpdate(s: PlanetSet, staleness: nat) {
    |s.added| < |s.components| && staleness <= 10
  }

  /** staleness after calculate_mu: incremented by an update, reset by a rebuild. */
  function StalenessAfter(s: PlanetSet, staleness: nat): (r: nat)
    ensures r <= 11
    ensures IncrementalUpdate(s, staleness) <==> r == staleness + 1
    ensures !IncrementalUpdate(s, staleness) <==> r == 0
  {
    if IncrementalUpdate(s, staleness) then staleness + 1 else 0
  }

  /** Every one of the calls of calculate_mu on the planet sets ss, in turn, starting from
      the given staleness, takes the incremental path. */
  predicate AllIncremental(ss: seq<PlanetSet>, staleness: nat)
    decreases |ss|
  {
    |ss| == 0
    || (IncrementalUpdate(ss[0], staleness) && AllIncremental(ss[1..], staleness + 1))
  }

  /** From staleness s, at most 11 - s calls in a row take the incremental path; so after a
      rebuild (staleness 0) the buffer is rebuilt again by the 12th call at the latest. */
  lemma {:induction false} IncrementalRunBound(ss: seq<PlanetSet>, s: nat)
    requires s <= 11
    requires AllIncremental(ss, s)
    ensures s + |ss| <= 11
    decreases |ss|
  {
    if |ss| > 0 {
      IncrementalRunBound(ss[1..], s + 1);
    }
  }

  // ---------------------------------------------------------------------------------
  // from_prior

  /** The planet set from_prior draws, consolidated. */
  function PlanetsDraw(obj: PlanetObject, p: Params, u: nat -> real, pos: nat): (r: Proposed)
    ensures r.params == p.(planets := r.params.planets)
    ensures r.pos >= pos
  {
    var ps := obj.fromPrior(u, pos);
    Proposed(p.(planets := obj.consolidateDiff(ps.next)), pos + ps.used)
  }

  /** background, then the offsets and jitters (or extra_sigma), the fiber offset and the
      slope, each only under its switch, in the order of from_prior. */
  function NoiseDraw(flags: Flags, priors: Priors, p: Params, u: nat -> real, pos: nat): (r: Proposed)
    ensures r.params == p.(background := r.params.background, offsets := r.params.offsets,
                           jitters := r.params.jitters, extraSigma := r.params.extraSigma,
                           fiberOffset := r.params.fiberOffset, slope := r.params.slope)
    ensures |r.params.offsets| == |p.offsets| && |r.params.jitters| == |p.jitters|
    ensures !flags.multiInstrument ==> r.params.offsets == p.offsets && r.params.jitters == p.jitters
    ensures flags.multiInstrument ==> r.params.extraSigma == p.extraSigma
    ensures !flags.fibers ==> r.params.fiberOffset == p.fiberOffset
    ensures !flags.trend ==> r.params.slope == p.slope
    ensures r.pos >= pos
  {
    var b := priors.c.generate(u, pos);
    var sc := ScalesDraw(flags, priors, p.(background := b.value), u, pos + b.used);
    FiberSlopeDraw(flags, priors, sc.params, u, sc.pos)
  }

  /** The fiber offset and then the slope, each only under its switch. */
  function FiberSlopeDraw(flags: Flags, priors: Priors, p: Params, u: nat -> real, pos: nat): (r: Proposed)
    ensures r.params == p.(fiberOffset := r.params.fiberOffset, slope := r.params.slope)
    ensures !flags.fibers ==> r.params.fiberOffset == p.fiberOffset
    ensures !flags.trend ==> r.params.slope == p.slope
    ensures r.pos >= pos
  {
    var f := if flags.fibers then priors.fiberOffset.generate(u, pos) else Draw(p.fiberOffset, 0.0, 0);
    var s := if flags.trend then priors.slope.generate(u, pos + f.used) else Draw(p.slope, 0.0, 0);
    Proposed(p.(fiberOffset := f.value, slope := s.value), pos + f.used + s.used)
  }

  /** The noise scales: with several instruments, the offsets and then the jitters, one
      draw per entry; with one instrument, extra_sigma alone. */
  function ScalesDraw(flags: Flags, priors: Priors, p: Params, u: nat -> real, pos: nat): (r: Proposed)
    ensures r.params == p.(offsets := r.params.offsets, jitters := r.params.jitters, extraSigma := r.params.extraSigma)
    ensures |r.params.offsets| == |p.offsets| && |r.params.jitters| == |p.jitters|
    ensures flags.multiInstrument ==> r.params.extraSigma == p.extraSigma
    ensures !flags.multiInstrument ==> r.params.offsets == p.offsets && r.params.jitters == p.jitters
    ensures r.pos >= pos
  {
    if flags.multiInstrument then
      var o := GenerateSeq(priors.offsets, u, |p.offsets|, pos);
      var j := GenerateSeq(priors.j, u, |p.jitters|, o.pos);
      Proposed(p.(offsets := o.values, jitters := j.values), j.pos)
    else
      var x := priors.j.generate(u, pos);
      Proposed(p.(extraSigma := x.value), pos + x.used)
  }

  /** The GP hyperparameters from_prior draws: eta1, eta2 and eta4 are the exponentials of
      their log-prior draws, eta3 is drawn directly; the log_eta fields are not set. */
  function EtaDraw(m: Libm, priors: Priors, p: Params, u: nat -> real, pos: nat): (r: Proposed)
    ensures r.params == p.(eta1 := r.params.eta1, eta2 := r.params.eta2, eta3 := r.params.eta3, eta4 := r.params.eta4)
    ensures r.pos >= pos
  {
    var a := Eta12Draw(m, priors, p, u, pos);
    Eta34Draw(m, priors, a.params, u, a.pos)
  }

  /** The first two hyperparameter draws of from_prior: eta1 and eta2, on the log scale. */
  function Eta12Draw(m: Libm, priors: Priors, p: Params, u: nat -> real, pos: nat): (r: Proposed)
    ensures r.params == p.(eta1 := r.params.eta1, eta2 := r.params.eta2)
    ensures r.pos >= pos
  {
    var e1 := priors.logEta1.generate(u, pos);
    var e2 := priors.logEta2.generate(u, pos + e1.used);
    Proposed(p.(eta1 := m.exp(e1.value), eta2 := m.exp(e2.value)), pos + e1.used + e2.used)
  }

  /** The last two hyperparameter draws of from_prior: eta3 directly, eta4 on the log
      scale. */
  function Eta34Draw(m: Libm, priors: Priors, p: Params, u: nat -> real, pos: nat): (r: Proposed)
    ensures r.params == p.(eta3 := r.params.eta3, eta4 := r.params.eta4)
    ensures r.pos >= pos
  {
    var e3 := priors.eta3.generate(u, pos);
    var e4 := priors.logEta4.generate(u, pos + e3.used);
    Proposed(p.(eta3 := e3.value, eta4 := m.exp(e4.value)), pos + e3.used + e4.used)
  }

  /** The parameters from_prior draws: the planets, then the noise and systematic
      parameters, then (with a GP) the hyperparameters. */
  function FromPriorDraw(flags: Flags, m: Libm, priors: Priors, obj: PlanetObject, p: Params, u: nat -> real, pos: nat): (r: Proposed)
    ensures |r.params.offsets| == |p.offsets| && |r.params.jitters| == |p.jitters|
    ensures r.params.logEta1 == p.logEta1 && r.params.logEta2 == p.logEta2 && r.params.logEta4 == p.logEta4
    ensures !flags.gp ==> EtaOf(r.params) == EtaOf(p)
    ensures r.pos >= pos
  {
    var a := PlanetsDraw(obj, p, u, pos);
    var b := NoiseDraw(flags, priors, a.params, u, a.pos);
    if flags.gp then EtaDraw(m, priors, b.params, u, b.pos) else b
  }

  /** With a GP, from_prior draws eta1, eta2 and eta4 on the log scale, so they are
      positive and the kernel's divisions by eta2 and eta4 are defined. */
  lemma FromPriorEtaPositive(m: Libm, priors: Priors, p: Params, u: nat -> real, pos: nat)
    requires Sound(m)
    ensures var q := EtaDraw(m, priors, p, u, pos).params;
            q.eta1 > 0.0 && q.eta2 > 0.0 && q.eta4 > 0.0
  {
  }

  // ---------------------------------------------------------------------------------
  // The branches of perturb

  /** The branches of perturb. */
  datatype Move = PlanetsMove | HyperMove | JittersMove | SystematicsMove

  /** The branch the coin flips choose and the stream position after the flips. With a GP: planets
      with probability 1/2, then the hyperparameters, the jitters and the systematics;
      without one: planets with probability 3/4, then jitters and systematics. */
  function Choose(gp: bool, u: nat -> real, pos: nat): (r: (Move, nat))
    ensures !gp ==> r.0 != HyperMove
    ensures pos + 1 <= r.1 <= pos + 3
  {
    if gp then
      if u(pos) <= 0.5 then (PlanetsMove, pos + 1)
      else if u(pos + 1) <= 0.5 then (HyperMove, pos + 2)
      else if u(pos + 2) <= 0.5 then (JittersMove, pos + 3)
      else (SystematicsMove, pos + 3)
    else
      if u(pos) <= 0.75 then (PlanetsMove, pos + 1)
      else if u(pos + 1) <= 0.5 then (JittersMove, pos + 2)
      else (SystematicsMove, pos + 2)
  }

  /** The planets branch: perturb the planet set and consolidate the change. */
  function PlanetsProposal(obj: PlanetObject, p: Params, u: nat -> real, pos: nat): (r: Proposed)
    ensures r.params == p.(planets := r.params.planets)
  {
    var step := obj.perturb(p.planets, u, pos);
    Proposed(p.(planets := obj.consolidateDiff(step.next)), pos + step.used)
  }

  /** The hyperparameter the flips of the hyperparameter branch pick. */
  datatype Hyper = Eta1 | Eta2 | Eta3 | Eta4

  /** The flips of the hyperparameter branch and the stream position after them: eta1
      with probability 1/4, else eta2 with probability 0.3333, else eta3 or eta4 with
      probability 1/2 each. */
  function HyperChoice(u: nat -> real, pos: nat): (r: (Hyper, nat))
    ensures pos + 1 <= r.1 <= pos + 3
    ensures r.0 == Eta1 <==> r.1 == pos + 1
  {
    if u(pos) <= 0.25 then (Eta1, pos + 1)
    else if u(pos + 1) <= 0.33330 then (Eta2, pos + 2)
    else if u(pos + 2) <= 0.5 then (Eta3, pos + 3)
    else (Eta4, pos + 3)
  }

  /** The draw of the hyperparameter branch once `which` is chosen: eta1, eta2 and eta4
      on the log scale (log_eta is set from eta, perturbed, and eta is set back to its
      exponential), eta3 directly. Only the chosen hyperparameter and its log change. */
  function HyperPerturbed(m: Libm, priors: Priors, p: Params, which: Hyper, u: nat -> real, pos: nat): (r: Proposed)
    ensures var q := r.params;
            && (which == Eta1 ==> q == p.(eta1 := q.eta1, logEta1 := q.logEta1))
            && (which == Eta2 ==> q == p.(eta2 := q.eta2, logEta2 := q.logEta2))
            && (which == Eta3 ==> q == p.(eta3 := q.eta3))
            && (which == Eta4 ==> q == p.(eta4 := q.eta4, logEta4 := q.logEta4))
    ensures r.pos >= pos
  {
    match which
    case Eta1 =>
      var d := priors.logEta1.perturb(m.log(p.eta1), u, pos);
      Proposed(p.(logEta1 := d.value, eta1 := m.exp(d.value)), pos + d.used)
    case Eta2 =>
      var d := priors.logEta2.perturb(m.log(p.eta2), u, pos);
      Proposed(p.(logEta2 := d.value, eta2 := m.exp(d.value)), pos + d.used)
    case Eta3 =>
      var d := priors.eta3.perturb(p.eta3, u, pos);
      Proposed(p.(eta3 := d.value), pos + d.used)
    case Eta4 =>
      var d := priors.logEta4.perturb(m.log(p.eta4), u, pos);
      Proposed(p.(logEta4 := d.value, eta4 := m.exp(d.value)), pos + d.used)
  }

  /** The hyperparameter branch: the hyperparameter HyperChoice picks is perturbed.
      Exactly one hyperparameter changes, with its log, and nothing else. */
  function HyperProposal(m: Libm, priors: Priors, p: Params, u: nat -> real, pos: nat): (r: Proposed)
    ensures var q := r.params;
            || q == p.(eta1 := q.eta1, logEta1 := q.logEta1)
            || q == p.(eta2 := q.eta2, logEta2 := q.logEta2)
            || q == p.(eta3 := q.eta3)
            || q == p.(eta4 := q.eta4, logEta4 := q.logEta4)
  {
    var (which, next) := HyperChoice(u, pos);
    HyperPerturbed(m, priors, p, which, u, next)
  }

  /** The hyperparameters drawn on the log scale stay positive: after a hyperparameter
      move from positive values the kernel never divides by a zero eta2 or eta4. */
  lemma HyperProposalKeepsPositive(m: Libm, priors: Priors, p: Params, u: nat -> real, pos: nat)
    requires Sound(m)
    requires p.eta1 > 0.0 && p.eta2 > 0.0 && p.eta4 > 0.0
    ensures var q := HyperProposal(m, priors, p, u, pos).params;
            q.eta1 > 0.0 && q.eta2 > 0.0 && q.eta4 > 0.0
  {
  }

  /** The jitter branch: every jitter is perturbed in turn with more than one instrument,
      extra_sigma otherwise. */
  function JittersProposal(flags: Flags, priors: Priors, p: Params, u: nat -> real, pos: nat): (r: Proposed)
    ensures |r.params.jitters| == |p.jitters|
    ensures flags.multiInstrument ==> r.params == p.(jitters := r.params.jitters)
    ensures !flags.multiInstrument ==> r.params == p.(extraSigma := r.params.extraSigma)
  {
    if flags.multiInstrument then
      var js := PerturbSeq(priors.j, u, p.jitters, pos);
      Proposed(p.(jitters := js.values), js.pos)
    else
      var d := priors.j.perturb(p.extraSigma, u, pos);
      Proposed(p.(extraSigma := d.value), pos + d.used)
  }

  /** The first half of the systematics draws: background, then each offset when there
      are several instruments. */
  function BackgroundOffsetsProposal(flags: Flags, priors: Priors, p: Params, u: nat -> real, pos: nat): (r: Proposed)
    ensures r.params == p.(background := r.params.background, offsets := r.params.offsets)
    ensures |r.params.offsets| == |p.offsets|
    ensures !flags.multiInstrument ==> r.params.offsets == p.offsets
    ensures r.pos >= pos
  {
    var b := priors.c.perturb(p.background, u, pos);
    var o := if flags.multiInstrument then PerturbSeq(priors.offsets, u, p.offsets, pos + b.used)
             else Draws(p.offsets, pos + b.used);
    Proposed(p.(background := b.value, offsets := o.values), o.pos)
  }

  /** The second half of the systematics draws: the fiber offset with fibers, then the
      slope with a trend. */
  function FiberSlopeProposal(flags: Flags, priors: Priors, p: Params, u: nat -> real, pos: nat): (r: Proposed)
    ensures r.params == p.(fiberOffset := r.params.fiberOffset, slope := r.params.slope)
    ensures !flags.fibers ==> r.params.fiberOffset == p.fiberOffset
    ensures !flags.trend ==> r.params.slope == p.slope
    ensures r.pos >= pos
  {
    var f := if flags.fibers then priors.fiberOffset.perturb(p.fiberOffset, u, pos)
             else Draw(p.fiberOffset, 0.0, 0);
    var s := if flags.trend then priors.slope.perturb(p.slope, u, pos + f.used)
             else Draw(p.slope, 0.0, 0);
    Proposed(p.(fiberOffset := f.value, slope := s.value), pos + f.used + s.used)
  }

  /** The systematics branch: background, then each offset, the fiber offset and the
      slope, each only under its switch. */
  function SystematicsProposal(flags: Flags, priors: Priors, p: Params, u: nat -> real, pos: nat): (r: Proposed)
    ensures r.params == p.(background := r.params.background, offsets := r.params.offsets,
                           fiberOffset := r.params.fiberOffset, slope := r.params.slope)
    ensures |r.params.offsets| == |p.offsets|
    ensures !flags.multiInstrument ==> r.params.offsets == p.offsets
    ensures !flags.fibers ==> r.params.fiberOffset == p.fiberOffset
    ensures !flags.trend ==> r.params.slope == p.slope
  {
    var a := BackgroundOffsetsProposal(flags, priors, p, u, pos);
    FiberSlopeProposal(flags, priors, a.params, u, a.pos)
  }

  /** The whole of perturb on the parameters: the new parameters, the stream position, the
      returned logH and the branch taken. */
  datatype Outcome = Outcome(params: Params, pos: nat, logH: real, move: Move)

  /** The branch `move` of perturb on the parameters, from stream position pos. */
  function MoveProposal(flags: Flags, m: Libm, priors: Priors, obj: PlanetObject, move: Move, p: Params, u: nat -> real, pos: nat): (r: Proposed)
    ensures move != PlanetsMove ==> r.params.planets == p.planets
    ensures |r.params.offsets| == |p.offsets| && |r.params.jitters| == |p.jitters|
  {
    match move
    case PlanetsMove => PlanetsProposal(obj, p, u, pos)
    case HyperMove => HyperProposal(m, priors, p, u, pos)
    case JittersMove => JittersProposal(flags, priors, p, u, pos)
    case SystematicsMove => SystematicsProposal(flags, priors, p, u, pos)
  }

  /** perturb on the parameters: the coin flips choose a branch, which then runs from the
      position after them; only the planets branch contributes to logH. */
  function Proposal(flags: Flags, m: Libm, priors: Priors, obj: PlanetObject, p: Params, u: nat -> real, pos: nat): (r: Outcome)
    ensures r.move == Choose(flags.gp, u, pos).0
    ensures r.move != PlanetsMove ==> r.logH == 0.0 && r.params.planets == p.planets
    ensures r.move == PlanetsMove ==> r.logH == obj.perturb(p.planets, u, pos + 1).logH
    ensures |r.params.offsets| == |p.offsets| && |r.params.jitters| == |p.jitters|
  {
    var (move, next) := Choose(flags.gp, u, pos);
    var q := MoveProposal(flags, m, priors, obj, move, p, u, next);
    Outcome(q.params, q.pos, if move == PlanetsMove then 0.0 + obj.perturb(p.planets, u, next).logH else 0.0, move)
  }

  /** Proposal is the branch that Choose picks, run from the position after the coin flips. */
  lemma ProposalOfChoice(flags: Flags, m: Libm, priors: Priors, obj: PlanetObject, p: Params, u: nat -> real, pos: nat)
    ensures var c := Choose(flags.gp, u, pos);
            var q := MoveProposal(flags, m, priors, obj, c.0, p, u, c.1);
            var o := Proposal(flags, m, priors, obj, p, u, pos);
            && o.params == q.params && o.pos == q.pos
            && o.logH == if c.0 == PlanetsMove then obj.perturb(p.planets, u, c.1).logH else 0.0
  {
  }
}
