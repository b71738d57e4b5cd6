/** The placement calculator: from a validated request and the reference
    monitor, the target rectangle, the flags word of the _NET_MOVERESIZE_WINDOW
    message and the maximize flags to set afterwards. */
module Placement {
  import opened Wrappers
  import opened Geometry
  import opened Options
  import opened Arithmetic

  /** The window manager's border width and title-bar height, in pixels. */
  const Border: int := 2
  const TitleBar: int := 13

  /** The X11 window gravities the program uses, in protocol order. */
  datatype Gravity =
    | NorthWest | North | NorthEast
    | West | Center | East
    | SouthWest | South | SouthEast
    | Static

  /** The X11 protocol value of a gravity: NorthWest = 1 through SouthEast = 9,
      Static = 10. */
  function GravityCode(g: Gravity): (c: nat)
    ensures 1 <= c <= 10
  {
    match g
    case NorthWest => 1
    case North => 2
    case NorthEast => 3
    case West => 4
    case Center => 5
    case East => 6
    case SouthWest => 7
    case South => 8
    case SouthEast => 9
    case Static => 10
  }

  /** The gravity with a given protocol value, if any. */
  function GravityOfCode(c: int): (r: Option<Gravity>)
    ensures r.Some? <==> 1 <= c <= 10
    ensures r.Some? ==> GravityCode(r.value) == c
  {
    if c == 1 then Some(NorthWest)
    else if c == 2 then Some(North)
    else if c == 3 then Some(NorthEast)
    else if c == 4 then Some(West)
    else if c == 5 then Some(Center)
    else if c == 6 then Some(East)
    else if c == 7 then Some(SouthWest)
    else if c == 8 then Some(South)
    else if c == 9 then Some(SouthEast)
    else if c == 10 then Some(Static)
    else None
  }

  /** The side of the window a gravity anchors on the horizontal axis. */
  function AnchorH(g: Gravity): Horizontal
  {
    match g
    case NorthWest | West | SouthWest => LeftEdge
    case NorthEast | East | SouthEast => RightEdge
    case _ => NoHorizontal
  }

  /** The side of the window a gravity anchors on the vertical axis. */
  function AnchorV(g: Gravity): Vertical
  {
    match g
    case NorthWest | North | NorthEast => TopEdge
    case SouthWest | South | SouthEast => BottomEdge
    case _ => NoVertical
  }

  /** The gravity chosen for a placement: Static when no side is named, a
      plain edge for one side, a corner for two. The anchor of the result
      names exactly the requested sides, so distinct requests get distinct
      gravities, and Center is never chosen. */
  function GravityFor(h: Horizontal, v: Vertical): (g: Gravity)
    ensures AnchorH(g) == h && AnchorV(g) == v
    ensures g != Center
    ensures h == NoHorizontal && v == NoVertical ==> g == Static
  {
    match v
    case TopEdge =>
      (match h case RightEdge => NorthEast case LeftEdge => NorthWest case NoHorizontal => North)
    case BottomEdge =>
      (match h case RightEdge => SouthEast case LeftEdge => SouthWest case NoHorizontal => South)
    case NoVertical =>
      (match h case RightEdge => East case LeftEdge => West case NoHorizontal => Static)
  }

  /** The flags word of a _NET_MOVERESIZE_WINDOW message: a gravity and which
      of x, y, width and height the window manager is to apply. */
  datatype MoveResizeFlags = MoveResizeFlags(gravity: Gravity, x: bool, y: bool, width: bool, height: bool)

  function Bit(b: bool): nat
  {
    if b then 1 else 0
  }

  /** Bits 8-11 of the flags word, shifted down: x, y, width, height. */
  function EnableBits(f: MoveResizeFlags): (k: nat)
    ensures k < 16
  {
    Bit(f.x) + 2 * Bit(f.y) + 4 * Bit(f.width) + 8 * Bit(f.height)
  }

  /** Splitting a number into the byte below bit 8 and the bits above. */
  lemma SplitByte(c: int, k: int)
    requires 0 <= c < 256 && 0 <= k
    ensures (c + 256 * k) % 256 == c && (c + 256 * k) / 256 == k
  {
  }

  /** The packed flags word: the gravity in bits 0-7, x, y, width and height
      in bits 8, 9, 10 and 11, and nothing above. */
  function EncodeFlags(f: MoveResizeFlags): (n: nat)
    ensures n < 4096
    ensures n % 256 == GravityCode(f.gravity)
    ensures n / 256 == EnableBits(f)
  {
    SplitByte(GravityCode(f.gravity), EnableBits(f));
    GravityCode(f.gravity) + 256 * EnableBits(f)
  }

  /** The enable bits read back one by one. */
  function FlagsOfBits(g: Gravity, k: int): MoveResizeFlags
  {
    MoveResizeFlags(g, k % 2 == 1, (k / 2) % 2 == 1, (k / 4) % 2 == 1, (k / 8) % 2 == 1)
  }

  /** The flags word in the bit positions of the _NET_MOVERESIZE_WINDOW
      message: bit 8 enables x, bit 9 y, bit 10 width, bit 11 height. */
  lemma FlagsWordBits(f: MoveResizeFlags)
    ensures var n := EncodeFlags(f);
      && ((n / 256) % 2 == 1 <==> f.x)
      && ((n / 512) % 2 == 1 <==> f.y)
      && ((n / 1024) % 2 == 1 <==> f.width)
      && ((n / 2048) % 2 == 1 <==> f.height)
  {
    var n := EncodeFlags(f);
    var c, k := n % 256, n / 256;
    DivModUnique(n, 512, k / 2, 256 * (k % 2) + c);
    DivModUnique(n, 1024, k / 4, 256 * (k % 4) + c);
    DivModUnique(n, 2048, k / 8, 256 * (k % 8) + c);
    assert FlagsOfBits(f.gravity, k) == f;
  }

  /** Reads a flags word back. Words with bits above 11 set, or with a gravity
      field outside 1..10, are refused (the program never sends 0, which
      would ask for the window's own gravity). */
  function DecodeFlags(n: int): (r: Option<MoveResizeFlags>)
  {
    if n < 0 || n >= 4096 then None
    else match GravityOfCode(n % 256)
      case None => None
      case Some(g) => Some(FlagsOfBits(g, n / 256))
  }

  /** Every flags word the program builds decodes to what it encodes. */
  lemma DecodeEncode(f: MoveResizeFlags)
    ensures DecodeFlags(EncodeFlags(f)) == Some(f)
  {
    var n := EncodeFlags(f);
    assert GravityOfCode(n % 256) == Some(f.gravity) by {
      match f.gravity
      case NorthWest =>
      case North =>
      case NorthEast =>
      case West =>
      case Center =>
      case East =>
      case SouthWest =>
      case South =>
      case SouthEast =>
      case Static =>
    }
    var k := EnableBits(f);
    assert FlagsOfBits(f.gravity, k) == f;
  }

  /** Every word the decoder accepts is the encoding of what it decodes to. */
  lemma EncodeDecode(n: int)
    requires DecodeFlags(n).Some?
    ensures EncodeFlags(DecodeFlags(n).value) == n
  {
    var f := DecodeFlags(n).value;
    var k := n / 256;
    assert 0 <= k < 16;
    assert EnableBits(f) == k;
    assert n == n % 256 + 256 * k;
  }

  /** What the program computes for the active window: target rectangle,
      move/resize flags, and the maximize flags to add afterwards. */
  datatype Placement = Placement(
    x: int, y: int, width: int, height: int,
    flags: MoveResizeFlags, maxVert: bool, maxHorz: bool)

  /** The placement calculator. `desk` is the reference monitor (the next one
      when switching); `carried` is the window geometry, already rescaled to
      that monitor when switching, whose x and y are used on an axis without
      an edge. Every real-valued expression is truncated to int as C does. */
  function Place(req: Request, desk: Monitor, carried: Window): (p: Placement)
    ensures p.flags.x == p.flags.width == (req.horizontal != NoHorizontal)
    ensures p.flags.y == p.flags.height == (req.vertical != NoVertical)
    ensures AnchorH(p.flags.gravity) == req.horizontal && AnchorV(p.flags.gravity) == req.vertical
    ensures p.maxVert <==> req.horizontal != NoHorizontal && !req.nomax
    ensures p.maxHorz <==> req.vertical != NoVertical && !req.nomax
    ensures req.horizontal == LeftEdge ==> p.x == desk.xOrg
    ensures req.vertical == TopEdge ==> p.y == desk.yOrg
    ensures req.horizontal == NoHorizontal ==> p.x == (if req.switchMonitor then carried.x else 0)
    ensures req.vertical == NoVertical ==> p.y == (if req.switchMonitor then carried.y else 0)
  {
    var f := FactorValue(req.factor);
    var width := Trunc(desk.width as real * f - (4 * Border) as real + 2.0);
    var height := Trunc(desk.height as real * f - (2 * Border) as real - (2 * TitleBar) as real);
    var x0 := if req.switchMonitor then carried.x else 0;
    var y0 := if req.switchMonitor then carried.y else 0;
    var x := match req.horizontal
      case RightEdge => Trunc(desk.xOrg as real + desk.width as real * (1.0 - f) + (3 * Border) as real)
      case LeftEdge => desk.xOrg
      case NoHorizontal => x0;
    var y := match req.vertical
      case BottomEdge =>
        Trunc(desk.yOrg as real + desk.height as real * (1.0 - f) + (2 * Border) as real + (2 * TitleBar) as real)
      case TopEdge => desk.yOrg
      case NoVertical => y0;
    var hasH, hasV := req.horizontal != NoHorizontal, req.vertical != NoVertical;
    Placement(x, y, width, height,
              MoveResizeFlags(GravityFor(req.horizontal, req.vertical), hasH, hasV, hasH, hasV),
              hasH && !req.nomax, hasV && !req.nomax)
  }

  /** The window's share of the monitor on an axis: the monitor extent times
      the factor, less the decoration (6 pixels across, 30 down), truncated
      toward zero. */
  lemma PlacedSize(req: Request, desk: Monitor, carried: Window)
    ensures var p := Place(req, desk, carried);
      var wf := desk.width as real * FactorValue(req.factor);
      && (wf >= 6.0 ==> wf - 7.0 < p.width as real <= wf - 6.0)
      && (wf < 6.0 ==> p.width <= 0 && wf - 6.0 <= p.width as real < wf - 5.0)
    ensures var p := Place(req, desk, carried);
      var hf := desk.height as real * FactorValue(req.factor);
      && (hf >= 30.0 ==> hf - 31.0 < p.height as real <= hf - 30.0)
      && (hf < 30.0 ==> p.height <= 0 && hf - 30.0 <= p.height as real < hf - 29.0)
  {
  }

  /** Against the right edge, x is the monitor's x plus the part of its width
      the window does not take, plus three borders; against the bottom edge, y
      is the monitor's y plus the part of its height the window does not take,
      plus two borders and two title bars. Both are truncated. */
  lemma FarEdgeOffsets(req: Request, desk: Monitor, carried: Window)
    ensures var p := Place(req, desk, carried);
      var f := FactorValue(req.factor);
      req.horizontal == RightEdge ==>
        p.x as real <= desk.xOrg as real + desk.width as real * (1.0 - f) + 6.0 < p.x as real + 1.0
    ensures var p := Place(req, desk, carried);
      var f := FactorValue(req.factor);
      req.vertical == BottomEdge ==>
        p.y as real <= desk.yOrg as real + desk.height as real * (1.0 - f) + 30.0 < p.y as real + 1.0
  {
  }

  /** A window placed against the right edge ends flush with the monitor's
      right edge, up to the pixel lost to truncation. */
  lemma RightFlush(req: Request, desk: Monitor, carried: Window)
    requires req.horizontal == RightEdge
    requires desk.width as real * FactorValue(req.factor) >= 6.0
    ensures var p := Place(req, desk, carried);
      desk.xOrg + desk.width - 1 <= p.x + p.width <= desk.xOrg + desk.width
  {
  }

  /** A window placed against the bottom edge ends flush with the monitor's
      bottom edge, up to the pixel lost to truncation. */
  lemma BottomFlush(req: Request, desk: Monitor, carried: Window)
    requires req.vertical == BottomEdge
    requires desk.height as real * FactorValue(req.factor) >= 30.0
    ensures var p := Place(req, desk, carried);
      desk.yOrg + desk.height - 1 <= p.y + p.height <= desk.yOrg + desk.height
  {
  }

  /** Placing one window left and another right with complementary factors
      (one half and one half, or the two golden parts) leaves them side by
      side without overlap, separated by the decoration allowance. */
  lemma LeftRightDisjoint(left: Request, right: Request, desk: Monitor, w1: Window, w2: Window)
    requires left.horizontal == LeftEdge && right.horizontal == RightEdge
    requires FactorValue(left.factor) + FactorValue(right.factor) == 1.0
    requires desk.width as real * FactorValue(left.factor) >= 6.0
    ensures var l, r := Place(left, desk, w1), Place(right, desk, w2);
      l.x + l.width + 12 <= r.x
  {
  }

  /** The coordinates the window manager is told to apply: a field whose
      enable bit is clear is ignored. */
  datatype Applied = Applied(x: Option<int>, y: Option<int>, width: Option<int>, height: Option<int>)

  function AppliedOf(p: Placement): (a: Applied)
  {
    Applied(if p.flags.x then Some(p.x) else None,
            if p.flags.y then Some(p.y) else None,
            if p.flags.width then Some(p.width) else None,
            if p.flags.height then Some(p.height) else None)
  }

  /** The carried window geometry only fills fields whose enable bit is
      clear, so what the window manager applies depends on the request and
      the monitor alone. */
  lemma AppliedIgnoresWindow(req: Request, desk: Monitor, w1: Window, w2: Window)
    ensures AppliedOf(Place(req, desk, w1)) == AppliedOf(Place(req, desk, w2))
  {
  }

  /** -r on a 1920x1080 monitor at the origin: width 954 at x 966, East
      gravity with x and width enabled (flags word 0x506), and vertical
      maximize to be set. */
  lemma RightHalfExample(carried: Window)
    ensures var p := Place(Request(RightEdge, NoVertical, Even, false, false), Monitor(0, 0, 1920, 1080), carried);
      && p.x == 966 && p.width == 954 && p.flags.gravity == East
      && EncodeFlags(p.flags) == 0x506 && p.maxVert && !p.maxHorz
  {
  }
}
