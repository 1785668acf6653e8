/**
 * What RVmodel writes for one sample: `print` writes the values of a line of the sample
 * file and `description` the header naming them. The two are written separately in
 * RVmodel.cpp; this module states what each produces and proves that they name the same
 * columns in the same order, and that splitting the header at its spaces gives back the
 * column names.
 *
 * The numeric formatting of print (fixed notation, 8 decimals, tab and space separators)
 * is not modelled: print is the sequence of values it writes.
 */
module Output {
  import opened Observations
  import opened Proposals
  import opened Text

  // ---------------------------------------------------------------------------------
  // Decimal numbers, as std::to_string writes a non-negative integer

  function DigitChar(d: nat): char
    requires d < 10
  {
    ['0', '1', '2', '3', '4', '5', '6', '7', '8', '9'][d]
  }

  predicate IsDigit(c: char) {
    '0' <= c <= '9'
  }

  function DigitValue(c: char): nat
    requires IsDigit(c)
  {
    (c as int - '0' as int) as nat
  }

  /** The decimal digits of n, most significant first, without leading zeros. */
  function NatToString(n: nat): (s: string)
    ensures |s| >= 1
    ensures forall k :: 0 <= k < |s| ==> IsDigit(s[k])
  {
    if n < 10 then [DigitChar(n)] else NatToString(n / 10) + [DigitChar(n % 10)]
  }

  /** The value of a string of decimal digits. */
  function ParseNat(s: string): nat
    requires forall k :: 0 <= k < |s| ==> IsDigit(s[k])
  {
    if |s| == 0 then 0 else 10 * ParseNat(s[..|s| - 1]) + DigitValue(s[|s| - 1])
  }

  lemma DigitRoundTrip(d: nat)
    requires d < 10
    ensures IsDigit(DigitChar(d)) && DigitValue(DigitChar(d)) == d
  {
  }

  /** Reading back the digits of n gives n. */
  lemma {:induction false} ParseNatToString(n: nat)
    ensures ParseNat(NatToString(n)) == n
  {
    var s := NatToString(n);
    if n < 10 {
      DigitRoundTrip(n);
    } else {
      ParseNatToString(n / 10);
      DigitRoundTrip(n % 10);
      assert s[..|s| - 1] == NatToString(n / 10);
    }
  }

  /** Different numbers are written differently. */
  lemma NatToStringInjective(a: nat, b: nat)
    requires NatToString(a) == NatToString(b)
    ensures a == b
  {
    ParseNatToString(a);
    ParseNatToString(b);
  }

  // ---------------------------------------------------------------------------------
  // The columns RVmodel itself writes, ahead of the planet set's

  /** One value RVmodel writes: jitter j or offset j (0-based, named j+1), extra_sigma,
      the slope, the fiber offset, or GP hyperparameter eta1..eta4 (k is 1..4). */
  datatype Column =
    | JitterColumn(j: nat)
    | ExtraSigmaColumn
    | SlopeColumn
    | FiberOffsetColumn
    | OffsetColumn(j: nat)
    | EtaColumn(k: nat)

  /** Jitter (or offset) columns 0 .. n-1. */
  function JitterColumns(n: nat): seq<Column> {
    seq(n, j requires 0 <= j => JitterColumn(j))
  }

  function OffsetColumns(n: nat): seq<Column> {
    seq(n, j requires 0 <= j => OffsetColumn(j))
  }

  /** The columns in the order both routines use, for nJ jitters and nO offsets: the
      jitters (or extra_sigma), the slope, the fiber offset, the offsets, eta1..eta4. */
  function Columns(flags: Flags, nJ: nat, nO: nat): seq<Column> {
    (if flags.multiInstrument then JitterColumns(nJ) else [ExtraSigmaColumn])
    + (if flags.trend then [SlopeColumn] else [])
    + (if flags.fibers then [FiberOffsetColumn] else [])
    + (if flags.multiInstrument then OffsetColumns(nO) else [])
    + (if flags.gp then [EtaColumn(1), EtaColumn(2), EtaColumn(3), EtaColumn(4)] else [])
  }

  /** The name description gives the column. */
  function Label(c: Column): (s: string)
    ensures |s| >= 1
  {
    match c
    case JitterColumn(j) => "jitter" + NatToString(j + 1)
    case ExtraSigmaColumn => "extra_sigma"
    case SlopeColumn => "slope"
    case FiberOffsetColumn => "fiber_offset"
    case OffsetColumn(j) => "offset" + NatToString(j + 1)
    case EtaColumn(k) => "eta" + NatToString(k)
  }

  /** The column exists for parameters p. */
  predicate Fits(p: Params, c: Column) {
    match c
    case JitterColumn(j) => j < |p.jitters|
    case OffsetColumn(j) => j < |p.offsets|
    case EtaColumn(k) => 1 <= k <= 4
    case _ => true
  }

  /** The value print writes in the column. */
  function ValueOf(p: Params, c: Column): real
    requires Fits(p, c)
  {
    match c
    case JitterColumn(j) => p.jitters[j]
    case ExtraSigmaColumn => p.extraSigma
    case SlopeColumn => p.slope
    case FiberOffsetColumn => p.fiberOffset
    case OffsetColumn(j) => p.offsets[j]
    case EtaColumn(k) => [p.eta1, p.eta2, p.eta3, p.eta4][k - 1]
  }

  // ---------------------------------------------------------------------------------
  // print

  /** The values print writes before planets.print, in the order of RVmodel::print. */
  function PrintedOwn(flags: Flags, p: Params): seq<real> {
    (if flags.multiInstrument then p.jitters else [p.extraSigma])
    + (if flags.trend then [p.slope] else [])
    + (if flags.fibers then [p.fiberOffset] else [])
    + (if flags.multiInstrument then p.offsets else [])
    + (if flags.gp then [p.eta1, p.eta2, p.eta3, p.eta4] else [])
  }

  /** The whole line: RVmodel's values, the planet set's values, staleness and the
      systematic velocity (background). */
  function Printed(flags: Flags, p: Params, planetValues: seq<real>, staleness: nat): seq<real> {
    PrintedOwn(flags, p) + planetValues + [staleness as real, p.background]
  }

  /** The values print writes are the values of Columns, one per column, in order. */
  lemma PrintFollowsColumns(flags: Flags, p: Params)
    ensures var cs := Columns(flags, |p.jitters|, |p.offsets|);
            && |PrintedOwn(flags, p)| == |cs|
            && forall k :: 0 <= k < |cs| ==> Fits(p, cs[k]) && PrintedOwn(flags, p)[k] == ValueOf(p, cs[k])
  {
    var js := if flags.multiInstrument then JitterColumns(|p.jitters|) else [ExtraSigmaColumn];
    var ss := if flags.trend then [SlopeColumn] else [];
    var fs := if flags.fibers then [FiberOffsetColumn] else [];
    var os := if flags.multiInstrument then OffsetColumns(|p.offsets|) else [];
    var es := if flags.gp then [EtaColumn(1), EtaColumn(2), EtaColumn(3), EtaColumn(4)] else [];
    var vj := if flags.multiInstrument then p.jitters else [p.extraSigma];
    var vs := if flags.trend then [p.slope] else [];
    var vf := if flags.fibers then [p.fiberOffset] else [];
    var vo := if flags.multiInstrument then p.offsets else [];
    var ve := if flags.gp then [p.eta1, p.eta2, p.eta3, p.eta4] else [];
    forall k | 0 <= k < |js| ensures Fits(p, js[k]) && vj[k] == ValueOf(p, js[k]) { }
    forall k | 0 <= k < |os| ensures Fits(p, os[k]) && vo[k] == ValueOf(p, os[k]) { }
    forall k | 0 <= k < |es| ensures Fits(p, es[k]) && ve[k] == ValueOf(p, es[k]) { }
    AlignConcat(p, js, vj, ss, vs);
    AlignConcat(p, js + ss, vj + vs, fs, vf);
    AlignConcat(p, js + ss + fs, vj + vs + vf, os, vo);
    AlignConcat(p, js + ss + fs + os, vj + vs + vf + vo, es, ve);
  }

  /** The values vs line up with the columns cs. */
  predicate Aligned(p: Params, cs: seq<Column>, vs: seq<real>) {
    |cs| == |vs| && forall k :: 0 <= k < |cs| ==> Fits(p, cs[k]) && vs[k] == ValueOf(p, cs[k])
  }

  lemma AlignConcat(p: Params, c1: seq<Column>, v1: seq<real>, c2: seq<Column>, v2: seq<real>)
    requires Aligned(p, c1, v1) && Aligned(p, c2, v2)
    ensures Aligned(p, c1 + c2, v1 + v2)
  {
    forall k | 0 <= k < |c1 + c2| ensures Fits(p, (c1 + c2)[k]) && (v1 + v2)[k] == ValueOf(p, (c1 + c2)[k]) {
      if k >= |c1| {
        assert (c1 + c2)[k] == c2[k - |c1|];
        assert (v1 + v2)[k] == v2[k - |c1|];
      }
    }
  }

  // ---------------------------------------------------------------------------------
  // description

  /** Each name followed by the three-space separator. */
  function Separated(names: seq<string>): string {
    if |names| == 0 then "" else names[0] + "   " + Separated(names[1..])
  }

  /** The names of n numbered columns: prefix1, prefix2, ... */
  function Numbered(prefix: string, n: nat): seq<string> {
    seq(n, j requires 0 <= j => prefix + NatToString(j + 1))
  }

  /** One more numbered name at the end of the separated list. */
  lemma NumberedStep(prefix: string, j: nat)
    ensures Separated(Numbered(prefix, j + 1)) == Separated(Numbered(prefix, j)) + (prefix + NatToString(j + 1)) + "   "
  {
    assert Numbered(prefix, j + 1) == Numbered(prefix, j) + [prefix + NatToString(j + 1)];
    SeparatedConcat(Numbered(prefix, j), [prefix + NatToString(j + 1)]);
    SeparatedOne(prefix + NatToString(j + 1));
  }

  /** The loop `for j: desc += prefix + std::to_string(j+1) + "   "` over n columns. */
  method DescribeNumbered(prefix: string, n: nat) returns (desc: string)
    ensures desc == Separated(Numbered(prefix, n))
  {
    desc := "";
    for j := 0 to n
      invariant desc == Separated(Numbered(prefix, j))
    {
      NumberedStep(prefix, j);
      desc := desc + prefix + NatToString(j + 1) + "   ";
    }
  }

  /** The names planets.print's values get: ndim, maxNp, the hyperparameters when there
      are hyperpriors, Np, and the five orbital parameters when planets are allowed. */
  function PlanetLabels(hyperpriors: bool, maxNp: nat): seq<string> {
    ["ndim", "maxNp"]
    + (if hyperpriors then ["muP", "wP", "muK"] else [])
    + ["Np"]
    + (if maxNp > 0 then ["P", "K", "phi", "ecc", "w"] else [])
  }

  /** The header RVmodel::description returns, in its order, for nJ jitters and nO offsets. */
  function DescriptionOf(flags: Flags, nJ: nat, nO: nat, maxNp: nat): string {
    (if flags.multiInstrument then Separated(Numbered("jitter", nJ)) else "extra_sigma   ")
    + (if flags.trend then "slope   " else "")
    + (if flags.fibers then "fiber_offset   " else "")
    + (if flags.multiInstrument then Separated(Numbered("offset", nO)) else "")
    + (if flags.gp then "eta1   eta2   eta3   eta4   " else "")
    + "ndim   maxNp   "
    + (if flags.hyperpriors then "muP   wP   muK   " else "")
    + "Np   "
    + (if maxNp > 0 then "P   K   phi   ecc   w   " else "")
    + "staleness   vsys"
  }

  /** The names of the columns, in order. */
  function Labels(cs: seq<Column>): (r: seq<string>)
    ensures |r| == |cs|
  {
    seq(|cs|, k requires 0 <= k < |cs| => Label(cs[k]))
  }

  /** All names of the header: RVmodel's columns, the planet set's, staleness, vsys. */
  function HeaderNames(flags: Flags, nJ: nat, nO: nat, maxNp: nat): seq<string> {
    Labels(Columns(flags, nJ, nO)) + PlanetLabels(flags.hyperpriors, maxNp) + ["staleness", "vsys"]
  }

  lemma SeparatedConcat(a: seq<string>, b: seq<string>)
    ensures Separated(a + b) == Separated(a) + Separated(b)
  {
    if |a| == 0 {
      assert a + b == b;
    } else {
      assert (a + b)[1..] == a[1..] + b;
      SeparatedConcat(a[1..], b);
    }
  }

  lemma NumberedLabels(flags: Flags, n: nat)
    ensures Labels(JitterColumns(n)) == Numbered("jitter", n)
    ensures Labels(OffsetColumns(n)) == Numbered("offset", n)
  {
  }

  /** The part of the header RVmodel's own columns make up. */
  function OwnDescription(flags: Flags, nJ: nat, nO: nat): string {
    JitterNames(flags, nJ) + SlopeName(flags) + FiberName(flags) + OffsetNames(flags, nO) + EtaNames(flags)
  }

  function JitterNames(flags: Flags, nJ: nat): string {
    if flags.multiInstrument then Separated(Numbered("jitter", nJ)) else "extra_sigma   "
  }

  function SlopeName(flags: Flags): string {
    if flags.trend then "slope   " else ""
  }

  function FiberName(flags: Flags): string {
    if flags.fibers then "fiber_offset   " else ""
  }

  function OffsetNames(flags: Flags, nO: nat): string {
    if flags.multiInstrument then Separated(Numbered("offset", nO)) else ""
  }

  function EtaNames(flags: Flags): string {
    if flags.gp then "eta1   eta2   eta3   eta4   " else ""
  }

  /** The part of the header that names the planet set's values. */
  function PlanetDescription(hyperpriors: bool, maxNp: nat): string {
    "ndim   maxNp   "
    + (if hyperpriors then "muP   wP   muK   " else "")
    + "Np   "
    + (if maxNp > 0 then "P   K   phi   ecc   w   " else "")
  }

  lemma DescriptionParts(flags: Flags, nJ: nat, nO: nat, maxNp: nat)
    ensures DescriptionOf(flags, nJ, nO, maxNp)
            == OwnDescription(flags, nJ, nO) + PlanetDescription(flags.hyperpriors, maxNp) + "staleness   vsys"
  {
    Regroup(JitterNames(flags, nJ), SlopeName(flags), FiberName(flags), OffsetNames(flags, nO), EtaNames(flags),
            "ndim   maxNp   ", if flags.hyperpriors then "muP   wP   muK   " else "", "Np   ",
            if maxNp > 0 then "P   K   phi   ecc   w   " else "", "staleness   vsys");
  }

  lemma Regroup(a: string, b: string, c: string, d: string, e: string, f: string, g: string, h: string, i: string, j: string)
    ensures a + b + c + d + e + f + g + h + i + j == (a + b + c + d + e) + (f + g + h + i) + j
  {
  }

  lemma SeparatedCons(a: string, r: seq<string>)
    ensures Separated([a] + r) == a + "   " + Separated(r)
  {
    assert ([a] + r)[1..] == r;
  }

  /** The three-space-separated literals of description. */
  lemma SeparatedOne(a: string)
    ensures Separated([a]) == a + "   "
  {
    SeparatedCons(a, []);
  }

  lemma SeparatedEtas()
    ensures Separated(["eta1", "eta2", "eta3", "eta4"]) == "eta1   eta2   eta3   eta4   "
  {
    SeparatedOne("eta4");
    SeparatedCons("eta3", ["eta4"]);
    SeparatedCons("eta2", ["eta3", "eta4"]);
    SeparatedCons("eta1", ["eta2", "eta3", "eta4"]);
  }

  lemma SeparatedPlanetHeader()
    ensures Separated(["ndim", "maxNp"]) == "ndim   maxNp   "
    ensures Separated(["muP", "wP", "muK"]) == "muP   wP   muK   "
  {
    SeparatedOne("maxNp");
    SeparatedCons("ndim", ["maxNp"]);
    SeparatedOne("muK");
    SeparatedCons("wP", ["muK"]);
    SeparatedCons("muP", ["wP", "muK"]);
  }

  lemma SeparatedOrbit()
    ensures Separated(["P", "K", "phi", "ecc", "w"]) == "P   K   phi   ecc   w   "
  {
    SeparatedOne("w");
    SeparatedCons("ecc", ["w"]);
    SeparatedCons("phi", ["ecc", "w"]);
    SeparatedCons("K", ["phi", "ecc", "w"]);
    SeparatedCons("P", ["K", "phi", "ecc", "w"]);
  }

  /** The column groups of Columns, one per switch. */
  function JitterGroup(flags: Flags, nJ: nat): seq<Column> {
    if flags.multiInstrument then JitterColumns(nJ) else [ExtraSigmaColumn]
  }

  function SlopeGroup(flags: Flags): seq<Column> {
    if flags.trend then [SlopeColumn] else []
  }

  function FiberGroup(flags: Flags): seq<Column> {
    if flags.fibers then [FiberOffsetColumn] else []
  }

  function OffsetGroup(flags: Flags, nO: nat): seq<Column> {
    if flags.multiInstrument then OffsetColumns(nO) else []
  }

  function EtaGroup(flags: Flags): seq<Column> {
    if flags.gp then [EtaColumn(1), EtaColumn(2), EtaColumn(3), EtaColumn(4)] else []
  }

  lemma GroupDescriptions(flags: Flags, nJ: nat, nO: nat)
    ensures Separated(Labels(JitterGroup(flags, nJ)))
            == if flags.multiInstrument then Separated(Numbered("jitter", nJ)) else "extra_sigma   "
    ensures Separated(Labels(SlopeGroup(flags))) == if flags.trend then "slope   " else ""
    ensures Separated(Labels(FiberGroup(flags))) == if flags.fibers then "fiber_offset   " else ""
    ensures Separated(Labels(OffsetGroup(flags, nO)))
            == if flags.multiInstrument then Separated(Numbered("offset", nO)) else ""
    ensures Separated(Labels(EtaGroup(flags))) == if flags.gp then "eta1   eta2   eta3   eta4   " else ""
  {
    NumberedLabels(flags, nJ);
    NumberedLabels(flags, nO);
    SingleColumnDescriptions();
    if flags.gp {
      EtaDescription();
    }
  }

  /** The one-column groups. */
  lemma SingleColumnDescriptions()
    ensures Separated(Labels([ExtraSigmaColumn])) == "extra_sigma   "
    ensures Separated(Labels([SlopeColumn])) == "slope   "
    ensures Separated(Labels([FiberOffsetColumn])) == "fiber_offset   "
  {
    SeparatedOne("extra_sigma");
    SeparatedOne("slope");
    SeparatedOne("fiber_offset");
  }

  /** The four GP hyperparameter columns. */
  lemma EtaDescription()
    ensures Separated(Labels([EtaColumn(1), EtaColumn(2), EtaColumn(3), EtaColumn(4)])) == "eta1   eta2   eta3   eta4   "
  {
    assert NatToString(1) == "1" && NatToString(2) == "2" && NatToString(3) == "3" && NatToString(4) == "4";
    var ls := Labels([EtaColumn(1), EtaColumn(2), EtaColumn(3), EtaColumn(4)]);
    assert ls[0] == "eta" + "1" == "eta1";
    assert ls[1] == "eta" + "2" == "eta2";
    assert ls[2] == "eta" + "3" == "eta3";
    assert ls[3] == "eta" + "4" == "eta4";
    assert ls == ["eta1", "eta2", "eta3", "eta4"];
    SeparatedEtas();
  }

  lemma OwnDescriptionFollowsColumns(flags: Flags, nJ: nat, nO: nat)
    ensures OwnDescription(flags, nJ, nO) == Separated(Labels(Columns(flags, nJ, nO)))
  {
    var js, ss, fs, os, es := JitterGroup(flags, nJ), SlopeGroup(flags), FiberGroup(flags), OffsetGroup(flags, nO), EtaGroup(flags);
    assert Columns(flags, nJ, nO) == js + ss + fs + os + es;
    LabelsConcat(js, ss);
    LabelsConcat(js + ss, fs);
    LabelsConcat(js + ss + fs, os);
    LabelsConcat(js + ss + fs + os, es);
    var lj, ls, lf, lo, le := Labels(js), Labels(ss), Labels(fs), Labels(os), Labels(es);
    SeparatedConcat(lj, ls);
    SeparatedConcat(lj + ls, lf);
    SeparatedConcat(lj + ls + lf, lo);
    SeparatedConcat(lj + ls + lf + lo, le);
    GroupDescriptions(flags, nJ, nO);
  }

  lemma PlanetDescriptionFollowsLabels(hyperpriors: bool, maxNp: nat)
    ensures PlanetDescription(hyperpriors, maxNp) + "staleness   " == Separated(PlanetLabels(hyperpriors, maxNp) + ["staleness"])
  {
    var hd: seq<string> := ["ndim", "maxNp"];
    var hy: seq<string> := if hyperpriors then ["muP", "wP", "muK"] else [];
    var pl: seq<string> := if maxNp > 0 then ["P", "K", "phi", "ecc", "w"] else [];
    assert PlanetLabels(hyperpriors, maxNp) + ["staleness"] == hd + hy + ["Np"] + pl + ["staleness"];
    SeparatedConcat5(hd, hy, ["Np"], pl, ["staleness"]);
    SeparatedPlanetHeader();
    SeparatedOrbit();
    assert Separated(hy) == if hyperpriors then "muP   wP   muK   " else "";
    assert Separated(pl) == if maxNp > 0 then "P   K   phi   ecc   w   " else "";
    SeparatedNpStaleness();
  }

  lemma SeparatedNpStaleness()
    ensures Separated(["Np"]) == "Np   "
    ensures Separated(["staleness"]) == "staleness   "
  {
    SeparatedOne("Np");
    SeparatedOne("staleness");
  }

  /** Separated distributes over five concatenated lists. */
  lemma SeparatedConcat5(a: seq<string>, b: seq<string>, c: seq<string>, d: seq<string>, e: seq<string>)
    ensures Separated(a + b + c + d + e) == Separated(a) + Separated(b) + Separated(c) + Separated(d) + Separated(e)
  {
    SeparatedConcat(a, b);
    SeparatedConcat(a + b, c);
    SeparatedConcat(a + b + c, d);
    SeparatedConcat(a + b + c + d, e);
  }

  /** description is the names of Columns, the planet set's names and staleness, each
      followed by three spaces, then vsys: the same columns, in the same order, as print
      writes their values (PrintFollowsColumns). */
  lemma DescriptionFollowsColumns(flags: Flags, nJ: nat, nO: nat, maxNp: nat)
    ensures DescriptionOf(flags, nJ, nO, maxNp)
            == Separated(Labels(Columns(flags, nJ, nO)) + PlanetLabels(flags.hyperpriors, maxNp) + ["staleness"]) + "vsys"
  {
    var own := Labels(Columns(flags, nJ, nO));
    var planet := PlanetLabels(flags.hyperpriors, maxNp);
    var rest := planet + ["staleness"];
    var a, b := OwnDescription(flags, nJ, nO), PlanetDescription(flags.hyperpriors, maxNp);
    DescriptionParts(flags, nJ, nO, maxNp);
    StalenessVsys();
    AppendRegroup(a, b, "staleness   ", "vsys");
    OwnDescriptionFollowsColumns(flags, nJ, nO);
    PlanetDescriptionFollowsLabels(flags.hyperpriors, maxNp);
    SeparatedConcat(own, rest);
    ConcatRegroup(own, planet, ["staleness"]);
  }

  lemma ConcatRegroup(a: seq<string>, b: seq<string>, c: seq<string>)
    ensures a + b + c == a + (b + c)
  {
  }

  lemma StalenessVsys()
    ensures "staleness   vsys" == "staleness   " + "vsys"
  {
  }

  lemma AppendRegroup(a: string, b: string, c: string, d: string)
    ensures a + b + (c + d) == a + (b + c) + d
  {
  }

  lemma LabelsConcat(a: seq<Column>, b: seq<Column>)
    ensures Labels(a + b) == Labels(a) + Labels(b)
  {
  }

  // ---------------------------------------------------------------------------------
  // Reading the header back

  lemma {:induction false} WordsOfSeparated(names: seq<string>, last: string)
    requires forall k :: 0 <= k < |names| ==> Token(names[k])
    requires Token(last)
    ensures Words(Separated(names) + last) == names + [last]
  {
    if |names| == 0 {
      assert Separated(names) + last == last;
      WordsOfLoneToken(last);
    } else {
      WordsOfSeparated(names[1..], last);
      WordsOfToken(names[0], Separated(names[1..]) + last);
      assert Separated(names) + last == names[0] + "   " + (Separated(names[1..]) + last);
      assert names == [names[0]] + names[1..];
    }
  }

  /** Every name in the header is a single word. */
  lemma HeaderTokens(flags: Flags, nJ: nat, nO: nat, maxNp: nat)
    ensures var ns := HeaderNames(flags, nJ, nO, maxNp);
            forall k :: 0 <= k < |ns| ==> Token(ns[k])
  {
    var ls := Labels(Columns(flags, nJ, nO));
    forall k | 0 <= k < |ls| ensures Token(ls[k]) {
      LabelToken(Columns(flags, nJ, nO)[k]);
    }
  }

  lemma LabelToken(c: Column)
    ensures Token(Label(c))
  {
    match c
    case JitterColumn(j) => DigitsToken("jitter", NatToString(j + 1));
    case OffsetColumn(j) => DigitsToken("offset", NatToString(j + 1));
    case EtaColumn(k) => DigitsToken("eta", NatToString(k));
    case ExtraSigmaColumn => VisibleToken("extra_sigma");
    case SlopeColumn => VisibleToken("slope");
    case FiberOffsetColumn => VisibleToken("fiber_offset");
  }

  lemma DigitsToken(prefix: string, digits: string)
    requires |prefix| >= 1 && forall k :: 0 <= k < |prefix| ==> Visible(prefix[k])
    requires forall k :: 0 <= k < |digits| ==> IsDigit(digits[k])
    ensures Token(prefix + digits)
  {
    forall k | 0 <= k < |prefix + digits| ensures Visible((prefix + digits)[k]) {
      if k >= |prefix| {
        assert (prefix + digits)[k] == digits[k - |prefix|];
      }
    }
    VisibleToken(prefix + digits);
  }

  /** Splitting the header at its spaces gives back all column names in order: the names
      of the columns print writes, the planet set's, staleness and vsys. */
  lemma DescriptionSplits(flags: Flags, nJ: nat, nO: nat, maxNp: nat)
    ensures Words(DescriptionOf(flags, nJ, nO, maxNp)) == HeaderNames(flags, nJ, nO, maxNp)
  {
    DescriptionFollowsColumns(flags, nJ, nO, maxNp);
    HeaderTokens(flags, nJ, nO, maxNp);
    var ns := Labels(Columns(flags, nJ, nO)) + PlanetLabels(flags.hyperpriors, maxNp) + ["staleness"];
    HeaderNamesEnd(flags, nJ, nO, maxNp);
    TokensBeforeLast(ns, "vsys");
    WordsOfSeparated(ns, "vsys");
  }

  /** The header names end with staleness and vsys. */
  lemma HeaderNamesEnd(flags: Flags, nJ: nat, nO: nat, maxNp: nat)
    ensures HeaderNames(flags, nJ, nO, maxNp)
            == Labels(Columns(flags, nJ, nO)) + PlanetLabels(flags.hyperpriors, maxNp) + ["staleness"] + ["vsys"]
  {
  }

  lemma TokensBeforeLast(ns: seq<string>, last: string)
    requires forall k :: 0 <= k < |ns + [last]| ==> Token((ns + [last])[k])
    ensures forall k :: 0 <= k < |ns| ==> Token(ns[k])
    ensures Token(last)
  {
    assert Token((ns + [last])[|ns|]);
    forall k | 0 <= k < |ns| ensures Token(ns[k]) {
      assert (ns + [last])[k] == ns[k];
    }
  }

  /** No two of RVmodel's columns share a name, so each header name picks out one value. */
  lemma LabelsDistinct(c1: Column, c2: Column)
    requires c1 != c2
    requires c1.EtaColumn? ==> 1 <= c1.k <= 4
    requires c2.EtaColumn? ==> 1 <= c2.k <= 4
    ensures Label(c1) != Label(c2)
  {
    LabelEnds(c1);
    LabelEnds(c2);
    if Label(c1) == Label(c2) {
      if c1.JitterColumn? && c2.JitterColumn? {
        assert Label(c1)[6..] == NatToString(c1.j + 1);
        assert Label(c2)[6..] == NatToString(c2.j + 1);
        NatToStringInjective(c1.j + 1, c2.j + 1);
      } else if c1.OffsetColumn? && c2.OffsetColumn? {
        assert Label(c1)[6..] == NatToString(c1.j + 1);
        assert Label(c2)[6..] == NatToString(c2.j + 1);
        NatToStringInjective(c1.j + 1, c2.j + 1);
      } else if c1.EtaColumn? && c2.EtaColumn? {
        assert Label(c1)[3..] == NatToString(c1.k);
        assert Label(c2)[3..] == NatToString(c2.k);
        NatToStringInjective(c1.k, c2.k);
      }
    }
  }

  /** A column's kind shows in the first and last characters of its name: only the
      numbered columns end in a digit, and only eta and extra_sigma share a first letter. */
  lemma LabelEnds(c: Column)
    ensures var s := Label(c);
            && (IsDigit(s[|s| - 1]) <==> c.JitterColumn? || c.OffsetColumn? || c.EtaColumn?)
            && s[0] == (match c
                        case JitterColumn(_) => 'j'
                        case ExtraSigmaColumn => 'e'
                        case SlopeColumn => 's'
                        case FiberOffsetColumn => 'f'
                        case OffsetColumn(_) => 'o'
                        case EtaColumn(_) => 'e')
  {
    match c
    case JitterColumn(j) =>
      var d := NatToString(j + 1);
      assert Label(c)[|Label(c)| - 1] == d[|d| - 1];
    case OffsetColumn(j) =>
      var d := NatToString(j + 1);
      assert Label(c)[|Label(c)| - 1] == d[|d| - 1];
    case EtaColumn(k) =>
      var d := NatToString(k);
      assert Label(c)[|Label(c)| - 1] == d[|d| - 1];
    case _ =>
  }

  /** print and description agree column by column: splitting the header at its spaces
      gives the names of Columns followed by the planet set's names, staleness and vsys,
      and print writes the values of the same Columns, in the same order, followed by
      the planet set's values, staleness and the systematic velocity. */
  lemma PrintMatchesDescription(flags: Flags, p: Params, planetValues: seq<real>, staleness: nat, maxNp: nat)
    ensures var cs := Columns(flags, |p.jitters|, |p.offsets|);
            var names := Words(DescriptionOf(flags, |p.jitters|, |p.offsets|, maxNp));
            var values := Printed(flags, p, planetValues, staleness);
            && names == Labels(cs) + PlanetLabels(flags.hyperpriors, maxNp) + ["staleness", "vsys"]
            && values == PrintedOwn(flags, p) + planetValues + [staleness as real, p.background]
            && Aligned(p, cs, PrintedOwn(flags, p))
  {
    DescriptionSplits(flags, |p.jitters|, |p.offsets|, maxNp);
    PrintFollowsColumns(flags, p);
  }
}
