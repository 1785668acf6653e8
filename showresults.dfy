/**
 * The argument handling of kima-showresults: `findpop`, which removes every occurrence of
 * a value from a list in place and says whether it was there; `_parse_args`, which sorts
 * the tokens into switches, plot numbers and an unrecognised leftover; and the mapping
 * from switches to the numbers of the plots to show.
 *
 * Printing the usage text, exiting, reading the VERSION file and everything after the
 * plot list is built are not modelled: the outcomes Help, Version and Unrecognized stand
 * for the three exits.
 */
module ShowResults {
  import opened Text
  import opened Lists

  datatype Option<T> = None | Some(value: T)

  // ---------------------------------------------------------------------------------
  // Lists of tokens

  /** xs without any occurrence of v, the others in their order. */
  function Filter(xs: seq<string>, v: string): seq<string> {
    if |xs| == 0 then []
    else if xs[0] == v then Filter(xs[1..], v)
    else [xs[0]] + Filter(xs[1..], v)
  }

  /** xs without the elements of s, the others in their order. */
  function Keep(xs: seq<string>, s: set<string>): seq<string> {
    if |xs| == 0 then []
    else if xs[0] in s then Keep(xs[1..], s)
    else [xs[0]] + Keep(xs[1..], s)
  }

  lemma {:induction false} FilterConcat(a: seq<string>, b: seq<string>, v: string)
    ensures Filter(a + b, v) == Filter(a, v) + Filter(b, v)
  {
    if |a| == 0 {
      assert a + b == b;
    } else {
      assert (a + b)[1..] == a[1..] + b;
      FilterConcat(a[1..], b, v);
    }
  }

  /** Removing one occurrence of v before filtering v out changes nothing. */
  lemma FilterRemoveAt(xs: seq<string>, i: nat, v: string)
    requires i < |xs| && xs[i] == v
    ensures Filter(xs[..i] + xs[i + 1..], v) == Filter(xs, v)
  {
    assert xs == xs[..i] + ([xs[i]] + xs[i + 1..]);
    FilterConcat(xs[..i], [xs[i]] + xs[i + 1..], v);
    FilterConcat(xs[..i], xs[i + 1..], v);
    assert ([xs[i]] + xs[i + 1..])[1..] == xs[i + 1..];
  }

  /** Filtering out a value that does not occur changes nothing. */
  lemma {:induction false} FilterAbsent(xs: seq<string>, v: string)
    requires v !in xs
    ensures Filter(xs, v) == xs
  {
    if |xs| > 0 {
      assert v !in xs[1..];
      FilterAbsent(xs[1..], v);
    }
  }

  /** What stays: exactly the elements other than v. */
  lemma {:induction false} FilterMembers(xs: seq<string>, v: string)
    ensures forall w :: w in Filter(xs, v) <==> w in xs && w != v
  {
    if |xs| > 0 {
      FilterMembers(xs[1..], v);
      assert xs == [xs[0]] + xs[1..];
    }
  }

  /** Only v is removed: every other value keeps its number of occurrences. */
  lemma {:induction false} FilterCounts(xs: seq<string>, v: string)
    ensures multiset(Filter(xs, v)) == multiset(xs)[v := 0]
  {
    if |xs| > 0 {
      FilterCounts(xs[1..], v);
      assert xs == [xs[0]] + xs[1..];
      MultisetCons(xs[0], xs[1..]);
      if xs[0] == v {
        DropSame(multiset(xs[1..]), v);
      } else {
        MultisetCons(xs[0], Filter(xs[1..], v));
        DropOther(xs[0], multiset(xs[1..]), v);
      }
    }
  }

  lemma MultisetCons(x: string, r: seq<string>)
    ensures multiset([x] + r) == multiset{x} + multiset(r)
  {
  }

  lemma DropSame(s: multiset<string>, v: string)
    ensures (multiset{v} + s)[v := 0] == s[v := 0]
  {
  }

  lemma DropOther(x: string, s: multiset<string>, v: string)
    requires x != v
    ensures (multiset{x} + s)[v := 0] == multiset{x} + s[v := 0]
  {
  }

  /** Filtering v out of what Keep left is keeping out v as well. */
  lemma {:induction false} FilterKeep(xs: seq<string>, s: set<string>, v: string)
    ensures Filter(Keep(xs, s), v) == Keep(xs, s + {v})
  {
    if |xs| > 0 {
      FilterKeep(xs[1..], s, v);
    }
  }

  /** Keeping out a value that does not occur changes nothing. */
  lemma {:induction false} KeepAbsent(xs: seq<string>, s: set<string>, v: string)
    requires v !in xs
    ensures Keep(xs, s + {v}) == Keep(xs, s)
  {
    if |xs| > 0 {
      assert v !in xs[1..];
      KeepAbsent(xs[1..], s, v);
    }
  }

  lemma {:induction false} KeepNone(xs: seq<string>)
    ensures Keep(xs, {}) == xs
  {
    if |xs| > 0 {
      KeepNone(xs[1..]);
    }
  }

  /** Keep leaves exactly the elements outside s. */
  lemma {:induction false} KeepMembers(xs: seq<string>, s: set<string>)
    ensures forall w :: w in Keep(xs, s) <==> w in xs && w !in s
  {
    if |xs| > 0 {
      KeepMembers(xs[1..], s);
      assert xs == [xs[0]] + xs[1..];
    }
  }

  /** The first element Keep leaves is the first element of xs outside s. */
  lemma {:induction false} KeepFirst(xs: seq<string>, s: set<string>)
    requires |Keep(xs, s)| > 0
    ensures exists i :: 0 <= i < |xs| && xs[i] == Keep(xs, s)[0] && xs[i] !in s && forall j :: 0 <= j < i ==> xs[j] in s
  {
    if xs[0] in s {
      KeepFirst(xs[1..], s);
      var i :| 0 <= i < |xs[1..]| && xs[1..][i] == Keep(xs[1..], s)[0] && xs[1..][i] !in s
               && forall j :: 0 <= j < i ==> xs[1..][j] in s;
      assert xs[i + 1] == Keep(xs, s)[0];
      forall j | 0 <= j < i + 1 ensures xs[j] in s {
        if j > 0 {
          assert xs[j] == xs[1..][j - 1];
        }
      }
    } else {
      assert xs[0] == Keep(xs, s)[0];
    }
  }

  /** A Python list of strings, changed in place. */
  class PyList {
    var items: seq<string>

    constructor (items: seq<string>)
      ensures this.items == items
    {
      this.items := items;
    }

    /** lst.index(value): the first position of value, or None where Python raises
        ValueError. */
    method Index(value: string) returns (r: Option<nat>)
      ensures r.None? <==> value !in items
      ensures r.Some? ==> r.value < |items| && items[r.value] == value && value !in items[..r.value]
    {
      var i := 0;
      while i < |items|
        invariant 0 <= i <= |items|
        invariant value !in items[..i]
      {
        if items[i] == value {
          return Some(i);
        }
        assert items[..i + 1] == items[..i] + [items[i]];
        i := i + 1;
      }
      assert items[..i] == items;
      return None;
    }

    /** lst.pop(i): remove and return the element at position i. */
    method Pop(i: nat) returns (x: string)
      requires i < |items|
      modifies this
      ensures x == old(items[i]) && items == old(items[..i] + items[i + 1..])
    {
      x := items[i];
      items := items[..i] + items[i + 1..];
    }
  }

  /** findpop(value, lst): whether value was in lst; every occurrence is removed, the
      other elements keep their order. */
  method FindPop(value: string, lst: PyList) returns (found: bool)
    modifies lst
    ensures found <==> value in old(lst.items)
    ensures lst.items == Filter(old(lst.items), value)
  {
    if value in lst.items {
      ghost var start := lst.items;
      while true
        invariant Filter(lst.items, value) == Filter(start, value)
        decreases |lst.items|
      {
        var i := lst.Index(value);
        if i.None? {
          FilterAbsent(lst.items, value);
          break;
        }
        FilterRemoveAt(lst.items, i.value, value);
        var _ := lst.Pop(i.value);
      }
      return true;
    } else {
      FilterAbsent(lst.items, value);
      return false;
    }
  }

  // ---------------------------------------------------------------------------------
  // _parse_args

  /** The named tuple `Arguments` _parse_args returns. */
  datatype Arguments = Arguments(
    rv: bool,
    planets: bool,
    orbital: bool,
    gp: bool,
    extra: bool,
    diagnostic: bool,
    pickle: bool,
    plotNumber: seq<string>,
    savePlots: bool)

  /** How _parse_args ends: the usage text and exit 0 (-h, --help), the version and exit 0
      (--version), the error exit naming the first token it could not place, or the
      arguments. */
  datatype ParseResult = Help | Version | Unrecognized(token: string) | Parsed(args: Arguments)

  /** number_options: the plot numbers one can ask for. */
  const NumberOptions: seq<string> := ["1", "2", "3", "4", "5", "6", "7"]

  /** The tokens _parse_args works on: the split option string, or, with no options, the
      command-line arguments when run as the kima-showresults script; otherwise `args` is
      the empty option string itself, which behaves as an empty list. */
  function ArgsOf(options: string, argv0: string, argvRest: seq<string>): seq<string> {
    if options == "" then (if Contains(argv0, "kima-showresults") then argvRest else [])
    else Words(options)
  }

  /** The plot numbers present in args, in the order of number_options (Python builds them
      from a set, whose order is not fixed). */
  function PlotsIn(args: seq<string>): (r: seq<string>)
    ensures forall n :: n in r <==> n in NumberOptions && n in args
  {
    Select(NumberOptions, args)
  }

  /** The elements of xs that occur in ys, in the order of xs. */
  function Select(xs: seq<string>, ys: seq<string>): (r: seq<string>)
    ensures forall n :: n in r <==> n in xs && n in ys
  {
    if |xs| == 0 then []
    else
      var rest := Select(xs[1..], ys);
      assert forall n :: n in xs <==> n == xs[0] || n in xs[1..];
      if xs[0] in ys then [xs[0]] + rest else rest
  }

  /** The values occurring in xs. */
  function Elems(xs: seq<string>): set<string> {
    set v | v in xs
  }

  /** xs with every value of vs filtered out, one value after the other. */
  function FilterAll(xs: seq<string>, vs: seq<string>): seq<string> {
    if |vs| == 0 then xs else Filter(FilterAll(xs, vs[..|vs| - 1]), vs[|vs| - 1])
  }

  /** The tokens left after the switches that come before the `all` test. */
  function AfterCommon(args: seq<string>): seq<string> {
    Filter(Filter(Filter(args, "--save-plots"), "pickle"), "diagnostic")
  }

  /** The tokens left after the plot switches as well. */
  function AfterSwitches(args: seq<string>): seq<string> {
    Filter(Filter(Filter(Filter(Filter(AfterCommon(args), "rv"), "gp"), "extra"), "planets"), "orbital")
  }

  /** What _parse_args returns on the tokens args. */
  function Parse(args: seq<string>): ParseResult {
    if "-h" in args || "--help" in args then Help
    else if "--version" in args then Version
    else
      var savePlots := "--save-plots" in args;
      var a1 := Filter(args, "--save-plots");
      var pick := "pickle" in a1;
      var a2 := Filter(a1, "pickle");
      var diag := "diagnostic" in a2;
      var a3 := Filter(a2, "diagnostic");
      if "all" in a3 then Parsed(Arguments(true, true, true, true, true, diag, pick, [], savePlots))
      else
        var rv := "rv" in a3;
        var a4 := Filter(a3, "rv");
        var gp := "gp" in a4;
        var a5 := Filter(a4, "gp");
        var extra := "extra" in a5;
        var a6 := Filter(a5, "extra");
        var planets := "planets" in a6;
        var a7 := Filter(a6, "planets");
        var orbital := "orbital" in a7;
        var a8 := Filter(a7, "orbital");
        var plots := PlotsIn(a8);
        var left := FilterAll(a8, plots);
        if |left| >= 1 then Unrecognized(left[0])
        else Parsed(Arguments(rv, planets, orbital, gp, extra, diag, pick, plots, savePlots))
  }

  /** _parse_args, consuming the token list in place with findpop. */
  method ParseArgs(options: string, argv0: string, argvRest: seq<string>) returns (r: ParseResult)
    ensures r == Parse(ArgsOf(options, argv0, argvRest))
  {
    var args := ArgsOf(options, argv0, argvRest);
    if "-h" in args || "--help" in args {
      return Help;
    }
    if "--version" in args {
      return Version;
    }
    var lst := new PyList(args);
    var savePlots := FindPop("--save-plots", lst);
    var pick := FindPop("pickle", lst);
    var diag := FindPop("diagnostic", lst);
    if "all" in lst.items {
      return Parsed(Arguments(true, true, true, true, true, diag, pick, [], savePlots));
    }
    var rv := FindPop("rv", lst);
    var gp := FindPop("gp", lst);
    var extra := FindPop("extra", lst);
    var planets := FindPop("planets", lst);
    var orbital := FindPop("orbital", lst);
    var plots := PlotsIn(lst.items);
    PopAll(plots, lst);
    if |lst.items| >= 1 {
      return Unrecognized(lst.items[0]);
    }
    return Parsed(Arguments(rv, planets, orbital, gp, extra, diag, pick, plots, savePlots));
  }

  /** The loop of _parse_args that findpops each of the values vs in turn. */
  method PopAll(vs: seq<string>, lst: PyList)
    modifies lst
    ensures lst.items == FilterAll(old(lst.items), vs)
  {
    ghost var a8 := lst.items;
    for k := 0 to |vs|
      invariant lst.items == FilterAll(a8, vs[..k])
    {
      assert vs[..k + 1][..k] == vs[..k];
      var _ := FindPop(vs[k], lst);
    }
    assert vs[..|vs|] == vs;
  }

  /** The switches _parse_args takes out before the plot numbers. */
  const Switches: set<string> :=
    {"--save-plots", "pickle", "diagnostic", "rv", "gp", "extra", "planets", "orbital"}

  /** The tokens _parse_args recognises once help and version are ruled out. */
  const Recognised: set<string> :=
    {"--save-plots", "pickle", "diagnostic", "rv", "gp", "extra", "planets", "orbital",
     "1", "2", "3", "4", "5", "6", "7"}

  /** The help and version exits come first and take any other token with them. */
  lemma ParseExits(args: seq<string>)
    ensures Parse(args) == Help <==> "-h" in args || "--help" in args
    ensures Parse(args) == Version <==> "--version" in args && "-h" !in args && "--help" !in args
  {
  }

  /** With `all` among the tokens left once --save-plots, pickle and diagnostic are taken
      out, every plot switch is on and there are no plot numbers, whatever else is there. */
  lemma AllShortcut(args: seq<string>)
    requires "-h" !in args && "--help" !in args && "--version" !in args
    requires "all" in AfterCommon(args)
    ensures Parse(args).Parsed?
    ensures var a := Parse(args).args;
            a.rv && a.planets && a.orbital && a.gp && a.extra && a.plotNumber == []
  {
  }

  lemma {:induction false} FilterAllKeep(xs: seq<string>, vs: seq<string>)
    ensures FilterAll(xs, vs) == Keep(xs, Elems(vs))
  {
    if |vs| == 0 {
      KeepNone(xs);
      assert Elems(vs) == {};
    } else {
      var init := vs[..|vs| - 1];
      FilterAllKeep(xs, init);
      FilterKeep(xs, Elems(init), vs[|vs| - 1]);
      assert Elems(vs) == Elems(init) + {vs[|vs| - 1]} by {
        assert vs == init + [vs[|vs| - 1]];
      }
    }
  }

  /** The switches and plot numbers taken out, one findpop after the other, leave what
      keeping out every recognised token leaves: the numbers that were not there need no
      removing. */
  lemma Leftover(args: seq<string>)
    ensures var a8 := AfterSwitches(args);
            FilterAll(a8, PlotsIn(a8)) == Keep(args, Recognised)
  {
    var a8 := AfterSwitches(args);
    SwitchesKept(args);
    var plots := PlotsIn(a8);
    FilterAllKeep(a8, plots);
    KeepKeep(args, Switches, Elems(plots));
    AbsentNumbers(args, plots);
  }

  /** The findpops of the three common switches keep those switches out. */
  lemma CommonKept(args: seq<string>)
    ensures AfterCommon(args) == Keep(args, {"--save-plots", "pickle", "diagnostic"})
  {
    var s0: set<string> := {};
    KeepNone(args);
    FilterKeep(args, s0, "--save-plots");
    FilterKeep(args, s0 + {"--save-plots"}, "pickle");
    FilterKeep(args, s0 + {"--save-plots"} + {"pickle"}, "diagnostic");
    assert s0 + {"--save-plots"} + {"pickle"} + {"diagnostic"} == {"--save-plots", "pickle", "diagnostic"};
  }

  /** The findpops of all eight switches keep the switches out. */
  lemma SwitchesKept(args: seq<string>)
    ensures AfterSwitches(args) == Keep(args, Switches)
  {
    var s3: set<string> := {"--save-plots", "pickle", "diagnostic"};
    CommonKept(args);
    FilterKeep(args, s3, "rv");
    FilterKeep(args, s3 + {"rv"}, "gp");
    FilterKeep(args, s3 + {"rv"} + {"gp"}, "extra");
    FilterKeep(args, s3 + {"rv"} + {"gp"} + {"extra"}, "planets");
    FilterKeep(args, s3 + {"rv"} + {"gp"} + {"extra"} + {"planets"}, "orbital");
    assert s3 + {"rv"} + {"gp"} + {"extra"} + {"planets"} + {"orbital"} == Switches;
  }

  lemma {:induction false} KeepKeep(xs: seq<string>, s: set<string>, t: set<string>)
    ensures Keep(Keep(xs, s), t) == Keep(xs, s + t)
  {
    if |xs| > 0 {
      KeepKeep(xs[1..], s, t);
    }
  }

  /** The numbers PlotsIn finds are all the numbers that occur: keeping out the rest as
      well changes nothing. */
  lemma AbsentNumbers(args: seq<string>, plots: seq<string>)
    requires plots == PlotsIn(Keep(args, Switches))
    ensures Keep(args, Switches + Elems(plots)) == Keep(args, Recognised)
  {
    var switches := Switches;
    KeepMembers(args, switches);
    var found := Elems(plots);
    var missing := Elems(NumberOptions) - found;
    assert Recognised == switches + found + missing;
    SwitchesAreLong();
    forall n | n in missing ensures n !in args {
      assert n in NumberOptions && n !in plots;
      NumbersAreShort(n);
    }
    KeepAbsentSet(args, switches + found, missing);
  }

  /** The plot numbers are one character long, the switches longer. */
  lemma NumbersAreShort(n: string)
    requires n in NumberOptions
    ensures |n| == 1
  {
  }

  lemma SwitchesAreLong()
    ensures forall w :: w in Switches ==> |w| >= 2
  {
  }

  /** Keeping out values none of which occurs changes nothing. */
  lemma {:induction false} KeepAbsentSet(xs: seq<string>, s: set<string>, t: set<string>)
    requires forall v :: v in t ==> v !in xs
    ensures Keep(xs, s + t) == Keep(xs, s)
  {
    if |xs| > 0 {
      assert xs[0] !in t;
      forall v | v in t ensures v !in xs[1..] {
        assert v !in xs;
      }
      KeepAbsentSet(xs[1..], s, t);
    }
  }

  /** Unless help, version or `all` ends it first, _parse_args fails exactly when some
      token is not recognised, and then names the first such token; otherwise it returns
      the arguments. */
  lemma UnrecognisedToken(args: seq<string>)
    requires "-h" !in args && "--help" !in args && "--version" !in args
    requires "all" !in AfterCommon(args)
    ensures Parse(args).Unrecognized? <==> exists w :: w in args && w !in Recognised
    ensures Parse(args).Unrecognized? ==>
              exists i :: 0 <= i < |args| && args[i] == Parse(args).token && args[i] !in Recognised
                          && forall j :: 0 <= j < i ==> args[j] in Recognised
  {
    Leftover(args);
    KeepMembers(args, Recognised);
    if Parse(args).Unrecognized? {
      KeepFirst(args, Recognised);
    }
  }

  /** Without `all`, a number 1..7 is among the plot numbers exactly when it is among the
      tokens. */
  lemma PlotNumbers(args: seq<string>)
    requires Parse(args).Parsed?
    requires "all" !in AfterCommon(args)
    ensures forall n :: n in Parse(args).args.plotNumber <==> n in NumberOptions && n in args
  {
    var a8 := AfterSwitches(args);
    assert Parse(args).args.plotNumber == PlotsIn(a8);
    SwitchesKept(args);
    KeepMembers(args, Switches);
    SwitchesAreLong();
    forall n | n in NumberOptions ensures n in a8 <==> n in args {
      NumbersAreShort(n);
    }
  }

  // ---------------------------------------------------------------------------------
  // showresults: from switches to plot numbers

  /** The plot numbers the switches ask for: 6 for rv, 1 for planets, 2 and 3 for orbital,
      4 and 5 for gp, 7 for extra. */
  function FlagPlots(a: Arguments): seq<string> {
    (if a.rv then ["6"] else [])
    + (if a.planets then ["1"] else [])
    + (if a.orbital then ["2", "3"] else [])
    + (if a.gp then ["4", "5"] else [])
    + (if a.extra then ["7"] else [])
  }

  /** The plot numbers showresults asks for: those of the switches, then the explicit
      plot numbers. */
  function PlotsOf(a: Arguments): seq<string> {
    FlagPlots(a) + a.plotNumber
  }

  /** The list `plots` showresults builds by appending. */
  method ShowResultsPlots(a: Arguments) returns (plots: seq<string>)
    ensures plots == PlotsOf(a)
  {
    plots := [];
    if a.rv {
      plots := plots + ["6"];
    }
    if a.planets {
      plots := plots + ["1"];
    }
    assert plots == (if a.rv then ["6"] else []) + (if a.planets then ["1"] else []);
    ghost var p2 := plots;
    if a.orbital {
      plots := plots + ["2"];
      plots := plots + ["3"];
    }
    assert plots == p2 + (if a.orbital then ["2", "3"] else []);
    ghost var p3 := plots;
    if a.gp {
      plots := plots + ["4"];
      plots := plots + ["5"];
    }
    assert plots == p3 + (if a.gp then ["4", "5"] else []);
    if a.extra {
      plots := plots + ["7"];
    }
    assert plots == FlagPlots(a);
    plots := AppendEach(plots, a.plotNumber);
  }

  /** Which plots are shown: a number is in the list exactly when its switch is on or it
      was asked for by number, and the explicit numbers come last, in their order. */
  lemma PlotsShown(a: Arguments)
    ensures forall n ::
              n in PlotsOf(a) <==>
                || (n == "6" && a.rv) || (n == "1" && a.planets)
                || ((n == "2" || n == "3") && a.orbital) || ((n == "4" || n == "5") && a.gp)
                || (n == "7" && a.extra) || n in a.plotNumber
    ensures |a.plotNumber| <= |PlotsOf(a)| && PlotsOf(a)[|PlotsOf(a)| - |a.plotNumber|..] == a.plotNumber
  {
    var f := FlagPlots(a);
    FlagPlotsMembers(a);
    assert PlotsOf(a)[|f|..] == a.plotNumber;
    forall n ensures n in PlotsOf(a) <==> n in f || n in a.plotNumber {
      InConcat(n, f, a.plotNumber);
    }
  }

  /** A number is among the switches' plots exactly when its switch is on. */
  lemma FlagPlotsMembers(a: Arguments)
    ensures forall n ::
              n in FlagPlots(a) <==>
                || (n == "6" && a.rv) || (n == "1" && a.planets)
                || ((n == "2" || n == "3") && a.orbital) || ((n == "4" || n == "5") && a.gp)
                || (n == "7" && a.extra)
  {
  }

  lemma InConcat(n: string, xs: seq<string>, ys: seq<string>)
    ensures n in xs + ys <==> n in xs || n in ys
  {
  }

  /** With `all`, showresults shows plots 6, 1, 2, 3, 4, 5 and 7, in that order. */
  lemma AllPlots(args: seq<string>)
    requires "-h" !in args && "--help" !in args && "--version" !in args
    requires "all" in AfterCommon(args)
    ensures PlotsOf(Parse(args).args) == ["6", "1", "2", "3", "4", "5", "7"]
  {
    AllShortcut(args);
  }
}
