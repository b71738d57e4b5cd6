/** The request builder: the command-line flags, read left to right, become
    either a placement request or a usage error. */
module Options {

  /** One parsed command-line option, in the order given. `Unrecognised` is
      an option getopt could not match; the program only skips it. */
  datatype Flag =
    | Help           // -h, --help
    | Right          // -r, --right
    | Left           // -l, --left
    | Top            // -t, --top
    | Bottom         // -b, --bottom
    | NoMax          // -n, --nomax
    | GoldenSmall    // -g, --goldenratio
    | GoldenBig      // -G, --Goldenratio
    | SwitchMonitor  // -m, --switchmonitor
    | Unrecognised

  /** The share of the monitor the window takes on a placed axis: one half,
      the small golden part 1 - 0.618, or the big golden part 0.618. */
  datatype Factor = Even | MinorGolden | MajorGolden

  function FactorValue(f: Factor): real
  {
    match f
    case Even => 1.0 / 2.0
    case MinorGolden => 382.0 / 1000.0
    case MajorGolden => 618.0 / 1000.0
  }

  /** The golden factors split the monitor into two complementary parts. */
  lemma GoldenPartsComplement()
    ensures FactorValue(MinorGolden) + FactorValue(MajorGolden) == 1.0
    ensures 1.0 - FactorValue(Even) == FactorValue(Even)
  {
  }

  /** The state of the option loop: one boolean per option, the factor, and
      whether the help text (and so a failure exit) has been requested. */
  datatype Parsed = Parsed(
    right: bool, left: bool, top: bool, bottom: bool,
    nomax: bool, switchMonitor: bool, printHelp: bool, factor: Factor)

  const Initial := Parsed(false, false, false, false, false, false, false, Even)

  function GoldenFactor(f: Flag): Factor
    requires f == GoldenSmall || f == GoldenBig
  {
    if f == GoldenSmall then MinorGolden else MajorGolden
  }

  /** One iteration of the option loop. A side flag given after its opposite,
      or a golden flag given after the factor has left one half, requests the
      help text; the flag itself is still recorded. */
  function Step(p: Parsed, f: Flag): (q: Parsed)
  {
    match f
    case Help => p.(printHelp := true)
    case Right => p.(printHelp := p.printHelp || p.left, right := true)
    case Left => p.(printHelp := p.printHelp || p.right, left := true)
    case Top => p.(printHelp := p.printHelp || p.bottom, top := true)
    case Bottom => p.(printHelp := p.printHelp || p.top, bottom := true)
    case NoMax => p.(nomax := true)
    case GoldenSmall => p.(printHelp := p.printHelp || p.factor != Even, factor := MinorGolden)
    case GoldenBig => p.(printHelp := p.printHelp || p.factor != Even, factor := MajorGolden)
    case SwitchMonitor => p.(switchMonitor := true)
    case Unrecognised => p
  }

  /** The whole option loop: a left fold of Step over the flags. */
  function Fold(fs: seq<Flag>): (p: Parsed)
  {
    if |fs| == 0 then Initial else Step(Fold(fs[..|fs| - 1]), fs[|fs| - 1])
  }

  /** The number of golden-ratio flags among the options. */
  function GoldenCount(fs: seq<Flag>): nat
  {
    multiset(fs)[GoldenSmall] + multiset(fs)[GoldenBig]
  }

  predicate IsGolden(f: Flag)
  {
    f == GoldenSmall || f == GoldenBig
  }

  /** How one step of the loop changes each field. */
  lemma StepFields(p: Parsed, f: Flag)
    ensures Step(p, f).right == (p.right || f == Right)
    ensures Step(p, f).left == (p.left || f == Left)
    ensures Step(p, f).top == (p.top || f == Top)
    ensures Step(p, f).bottom == (p.bottom || f == Bottom)
    ensures Step(p, f).nomax == (p.nomax || f == NoMax)
    ensures Step(p, f).switchMonitor == (p.switchMonitor || f == SwitchMonitor)
    ensures Step(p, f).printHelp == (
      || p.printHelp || f == Help
      || (f == Right && p.left) || (f == Left && p.right)
      || (f == Top && p.bottom) || (f == Bottom && p.top)
      || (IsGolden(f) && p.factor != Even))
    ensures Step(p, f).factor == if IsGolden(f) then GoldenFactor(f) else p.factor
  {
    match f
    case Help =>
    case Right =>
    case Left =>
    case Top =>
    case Bottom =>
    case NoMax =>
    case GoldenSmall =>
    case GoldenBig =>
    case SwitchMonitor =>
    case Unrecognised =>
  }

  /** Each option's boolean is set exactly when the option occurs. */
  lemma {:induction false} FoldRecordsFlags(fs: seq<Flag>)
    ensures Fold(fs).right <==> Right in fs
    ensures Fold(fs).left <==> Left in fs
    ensures Fold(fs).top <==> Top in fs
    ensures Fold(fs).bottom <==> Bottom in fs
    ensures Fold(fs).nomax <==> NoMax in fs
    ensures Fold(fs).switchMonitor <==> SwitchMonitor in fs
  {
    if |fs| > 0 {
      var init, f := fs[..|fs| - 1], fs[|fs| - 1];
      assert fs == init + [f];
      assert forall g :: g in fs <==> g in init || g == f;
      FoldRecordsFlags(init);
      StepFields(Fold(init), f);
    }
  }

  /** The help text is requested exactly for -h, for both sides of an axis,
      or for two golden flags, in whatever order they come. */
  lemma {:induction false} FoldRequestsHelp(fs: seq<Flag>)
    ensures Fold(fs).printHelp <==>
      Help in fs || (Left in fs && Right in fs) || (Top in fs && Bottom in fs) || GoldenCount(fs) >= 2
  {
    if |fs| > 0 {
      var init, f := fs[..|fs| - 1], fs[|fs| - 1];
      assert fs == init + [f];
      FoldRequestsHelp(init);
      FoldRecordsFlags(init);
      StepFields(Fold(init), f);
      GoldenPositive(init);
      assert multiset(fs) == multiset(init) + multiset{f};
      assert forall g :: g in fs <==> g in init || g == f;
    }
  }

  /** The factor is the one named by the last golden flag, one half when
      there is none. */
  lemma {:induction false} FoldFactor(fs: seq<Flag>)
    ensures (forall i :: 0 <= i < |fs| ==> !IsGolden(fs[i])) ==> Fold(fs).factor == Even
    ensures forall i ::
              0 <= i < |fs| && IsGolden(fs[i]) && (forall j :: i < j < |fs| ==> !IsGolden(fs[j])) ==>
                Fold(fs).factor == GoldenFactor(fs[i])
  {
    if |fs| > 0 {
      var init, f := fs[..|fs| - 1], fs[|fs| - 1];
      assert fs == init + [f];
      FoldFactor(init);
      StepFields(Fold(init), f);
      forall i | 0 <= i < |fs| && IsGolden(fs[i]) && (forall j :: i < j < |fs| ==> !IsGolden(fs[j]))
        ensures Fold(fs).factor == GoldenFactor(fs[i])
      {
        if i < |fs| - 1 {
          assert !IsGolden(f);
          assert init[i] == fs[i];
          assert forall j :: i < j < |init| ==> init[j] == fs[j];
        }
      }
      if forall i :: 0 <= i < |fs| ==> !IsGolden(fs[i]) {
        assert !IsGolden(f);
        assert forall i :: 0 <= i < |init| ==> init[i] == fs[i];
      }
    }
  }

  /** The factor has left one half exactly when some golden flag was seen. */
  lemma {:induction false} GoldenPositive(fs: seq<Flag>)
    ensures Fold(fs).factor != Even <==> GoldenCount(fs) >= 1
  {
    if |fs| > 0 {
      var init, f := fs[..|fs| - 1], fs[|fs| - 1];
      assert fs == init + [f];
      GoldenPositive(init);
      StepFields(Fold(init), f);
      assert multiset(fs) == multiset(init) + multiset{f};
      assert GoldenCount(fs) == GoldenCount(init) + (if IsGolden(f) then 1 else 0);
    }
  }

  /** Repeating an option other than -g or -G changes nothing. */
  lemma {:induction false} RepeatHarmless(fs: seq<Flag>, f: Flag)
    requires f in fs && !IsGolden(f)
    ensures Fold(fs + [f]) == Fold(fs)
  {
    assert (fs + [f])[..|fs + [f]| - 1] == fs;
    FoldRecordsFlags(fs);
    FoldRequestsHelp(fs);
  }

  /** Which side of the monitor the window is placed against on each axis. */
  datatype Horizontal = NoHorizontal | LeftEdge | RightEdge
  datatype Vertical = NoVertical | TopEdge | BottomEdge

  /** A validated placement request. */
  datatype Request = Request(
    horizontal: Horizontal, vertical: Vertical, factor: Factor,
    nomax: bool, switchMonitor: bool)

  predicate IsCorner(r: Request)
  {
    r.horizontal != NoHorizontal && r.vertical != NoVertical
  }

  datatype Verdict = Accepted(request: Request) | UsageError

  /** The help gate after the option loop, followed by the rule that corner
      placements are never maximized. Right wins over left and top over bottom
      in the order the program tests them, though the gate has already
      rejected both pairs. */
  function Build(fs: seq<Flag>): (v: Verdict)
  {
    var p := Fold(fs);
    if (!p.left && !p.right && !p.top && !p.bottom && !p.switchMonitor) || p.printHelp then
      UsageError
    else
      var h := if p.right then RightEdge else if p.left then LeftEdge else NoHorizontal;
      var v := if p.top then TopEdge else if p.bottom then BottomEdge else NoVertical;
      Accepted(Request(h, v, p.factor, p.nomax || (h != NoHorizontal && v != NoVertical),
                       p.switchMonitor))
  }

  /** The flags are rejected exactly for -h, left with right, top with bottom,
      two golden flags, or no placement option at all; an accepted request
      places the window against exactly the sides named, switches monitor
      exactly for -m, and suppresses maximizing for -n or a corner. */
  lemma BuildVerdict(fs: seq<Flag>)
    ensures Build(fs).UsageError? <==>
      || Help in fs
      || (Left in fs && Right in fs)
      || (Top in fs && Bottom in fs)
      || GoldenCount(fs) >= 2
      || (Left !in fs && Right !in fs && Top !in fs && Bottom !in fs && SwitchMonitor !in fs)
    ensures Build(fs).Accepted? ==>
      var r := Build(fs).request;
      && (r.horizontal == LeftEdge <==> Left in fs)
      && (r.horizontal == RightEdge <==> Right in fs)
      && (r.vertical == TopEdge <==> Top in fs)
      && (r.vertical == BottomEdge <==> Bottom in fs)
      && (r.switchMonitor <==> SwitchMonitor in fs)
      && (r.nomax <==> NoMax in fs || IsCorner(r))
      && (GoldenCount(fs) == 0 ==> r.factor == Even)
      && (GoldenSmall in fs ==> r.factor == MinorGolden)
      && (GoldenBig in fs ==> r.factor == MajorGolden)
  {
    FoldRecordsFlags(fs);
    FoldRequestsHelp(fs);
    FoldFactor(fs);
    GoldenPositive(fs);
    if Build(fs).Accepted? && GoldenCount(fs) == 1 {
      var i :| 0 <= i < |fs| && IsGolden(fs[i]);
      GoldenUnique(fs, i);
    }
  }

  /** With a single golden flag, no other position holds one. */
  lemma GoldenUnique(fs: seq<Flag>, i: int)
    requires 0 <= i < |fs| && IsGolden(fs[i]) && GoldenCount(fs) == 1
    ensures forall j :: 0 <= j < |fs| && j != i ==> !IsGolden(fs[j])
  {
    forall j | 0 <= j < |fs| && j != i
      ensures !IsGolden(fs[j])
    {
      if j < i && IsGolden(fs[j]) {
        TwoGoldenFlags(fs, j, i);
      } else if i < j && IsGolden(fs[j]) {
        TwoGoldenFlags(fs, i, j);
      }
    }
  }

  /** Two golden flags at different positions are counted twice. */
  lemma TwoGoldenFlags(fs: seq<Flag>, i: int, j: int)
    requires 0 <= i < j < |fs| && IsGolden(fs[i]) && IsGolden(fs[j])
    ensures GoldenCount(fs) >= 2
  {
    var a, b, c := fs[..i], fs[i + 1..j], fs[j + 1..];
    assert fs == a + [fs[i]] + b + [fs[j]] + c;
    assert multiset(fs) == multiset(a) + multiset{fs[i]} + multiset(b) + multiset{fs[j]} + multiset(c);
  }

  /** -r on its own is accepted as a plain right-half request. */
  lemma BuildExample()
    ensures Build([Right]) == Accepted(Request(RightEdge, NoVertical, Even, false, false))
    ensures Build([Right, Left]) == UsageError
    ensures Build([GoldenSmall, Right, GoldenSmall]) == UsageError
    ensures Build([NoMax, GoldenBig]) == UsageError
    ensures Build([SwitchMonitor]) == Accepted(Request(NoHorizontal, NoVertical, Even, false, true))
    ensures Build([Top, Left]).Accepted? && Build([Top, Left]).request.nomax
  {
    assert [Right, Left][..1] == [Right];
    assert [GoldenSmall, Right, GoldenSmall][..2] == [GoldenSmall, Right];
    assert [GoldenSmall, Right][..1] == [GoldenSmall];
    assert [NoMax, GoldenBig][..1] == [NoMax];
    assert [Top, Left][..1] == [Top];
  }
}
