/** The window state machine: the type filter, the maximize state read from
    the window, and the three client messages sent to the root window
    (remove maximize state, move/resize, add maximize state). The whole run of
    the program is composed here from the other modules. */
module Protocol {
  import opened Wrappers
  import opened Geometry
  import opened Monitors
  import opened Options
  import opened Placement

  /** The atoms the program compares against; every other atom is `Other`. */
  datatype Atom =
    | MaximizedVert   // _NET_WM_STATE_MAXIMIZED_VERT
    | MaximizedHorz   // _NET_WM_STATE_MAXIMIZED_HORZ
    | TypeNormal      // _NET_WM_WINDOW_TYPE_NORMAL
    | Other(id: nat)

  /** Every token of the window's _NET_WM_WINDOW_TYPE is the normal type; a
      window without the property counts as normal. */
  predicate AllNormal(types: seq<Atom>)
  {
    forall i :: 0 <= i < |types| ==> types[i] == TypeNormal
  }

  /** The type filter, scanning every token of the property. */
  method IsNormalWindow(types: seq<Atom>) returns (normal: bool)
    ensures normal <==> AllNormal(types)
    ensures !normal ==> exists i :: 0 <= i < |types| && types[i] != TypeNormal
  {
    normal := true;
    var k := 0;
    while k < |types|
      invariant 0 <= k <= |types|
      invariant normal <==> forall i :: 0 <= i < k ==> types[i] == TypeNormal
    {
      if types[k] != TypeNormal {
        normal := false;
      }
      k := k + 1;
    }
  }

  /** Whether the window is maximized vertically and horizontally. */
  datatype MaxState = MaxState(vert: bool, horz: bool)

  /** Reads the maximize flags from the window's _NET_WM_STATE list: each is
      set exactly when its atom occurs in the list. */
  method ReadMaximizeState(state: seq<Atom>) returns (m: MaxState)
    ensures m.vert <==> MaximizedVert in state
    ensures m.horz <==> MaximizedHorz in state
  {
    m := MaxState(false, false);
    var k := 0;
    while k < |state|
      invariant 0 <= k <= |state|
      invariant m.vert <==> MaximizedVert in state[..k]
      invariant m.horz <==> MaximizedHorz in state[..k]
    {
      if state[k] == MaximizedVert {
        m := m.(vert := true);
      } else if state[k] == MaximizedHorz {
        m := m.(horz := true);
      }
      assert state[..k + 1] == state[..k] + [state[k]];
      k := k + 1;
    }
    assert state[..k] == state;
  }

  /** The action word of a _NET_WM_STATE message. */
  datatype StateAction = Remove | Add

  /** _NET_WM_STATE_REMOVE is 0 and _NET_WM_STATE_ADD is 1. */
  function ActionCode(a: StateAction): (c: nat)
    ensures c <= 1
    ensures (c == 0) <==> a == Remove
  {
    match a
    case Remove => 0
    case Add => 1
  }

  /** A client message sent to the root window about the active window. A
      state message names the maximize atoms it carries; an unset one is
      sent as 0. */
  datatype Message =
    | WmState(action: StateAction, vert: bool, horz: bool)
    | MoveResizeWindow(flags: nat, x: int, y: int, width: int, height: int)

  /** The move/resize message for a placement. */
  function MoveResizeOf(p: Placement): (m: Message)
    ensures m.MoveResizeWindow? && DecodeFlags(m.flags) == Some(p.flags)
    ensures m.x == p.x && m.y == p.y && m.width == p.width && m.height == p.height
  {
    DecodeEncode(p.flags);
    MoveResizeWindow(EncodeFlags(p.flags), p.x, p.y, p.width, p.height)
  }

  /** The monitor the window is placed on and the window geometry carried to
      it: the active monitor itself, or the next one in cyclic order with the
      window rescaled from the active monitor's extent to the next one's. */
  function Target(req: Request, ms: seq<Monitor>, w: Window): (t: (Monitor, Window))
    requires FindScreen(ms, w) != -1
    ensures var a := FindScreen(ms, w);
      && (!req.switchMonitor ==> t == (ms[a], w))
      && (req.switchMonitor ==>
            var n := NextScreen(a, |ms|);
            t == (ms[n], Rescale(w, ms[a], ms[n])))
  {
    var a := FindScreen(ms, w);
    if req.switchMonitor then
      var n := NextScreen(a, |ms|);
      (ms[n], Rescale(w, ms[a], ms[n]))
    else
      (ms[a], w)
  }

  /** When switching, an axis without an edge carries the window's own
      coordinate scaled by the ratio of the next monitor's extent to the
      active one's, truncated toward zero, into the move/resize message. */
  lemma SwitchCarriesScaledPosition(req: Request, ms: seq<Monitor>, w: Window)
    requires FindScreen(ms, w) != -1 && req.switchMonitor
    ensures var a := FindScreen(ms, w);
      var n := NextScreen(a, |ms|);
      var t := Target(req, ms, w);
      var m := MoveResizeOf(Place(req, t.0, t.1));
      && (req.horizontal == NoHorizontal ==> TruncQuotient(m.x, w.x * ms[n].width, ms[a].width))
      && (req.vertical == NoVertical ==> TruncQuotient(m.y, w.y * ms[n].height, ms[a].height))
  {
  }

  /** How a run of the program ends: a usage error (exit status 1), no
      monitor holding the window (the program indexes out of bounds), or
      the messages sent, none for a window that is not normal. */
  datatype Outcome = Usage | NoMonitor | Sent(messages: seq<Message>)

  /** One run of the program against the active window. `flags` are the
      parsed options; `monitors` the Xinerama screens; `w` the window's
      geometry in root coordinates; `types` and `state` its
      _NET_WM_WINDOW_TYPE and _NET_WM_STATE properties. */
  method Run(flags: seq<Flag>, monitors: seq<Monitor>, w: Window, types: seq<Atom>, state: seq<Atom>)
    returns (out: Outcome)
    ensures out.Usage? <==> Build(flags).UsageError?
    ensures out.NoMonitor? <==> Build(flags).Accepted? && FindScreen(monitors, w) == -1
    ensures out.Sent? ==> (out.messages == [] <==> !AllNormal(types))
    ensures out.Sent? && AllNormal(types) ==>
      var req := Build(flags).request;
      var t := Target(req, monitors, w);
      var p := Place(req, t.0, t.1);
      out.messages == [WmState(Remove, MaximizedVert in state, MaximizedHorz in state),
                       MoveResizeOf(p),
                       WmState(Add, p.maxVert, p.maxHorz)]
    ensures out.Sent? && out.messages != [] ==>
      var req := Build(flags).request;
      && |out.messages| == 3
      && (IsCorner(req) ==> out.messages[2] == WmState(Add, false, false))
      && (out.messages[2].vert <==> req.horizontal != NoHorizontal && !req.nomax)
      && (out.messages[2].horz <==> req.vertical != NoVertical && !req.nomax)
  {
    var verdict := Build(flags);
    if verdict.UsageError? {
      return Usage;
    }
    var req := verdict.request;
    BuildVerdict(flags);
    var active := FindScreen(monitors, w);
    if active == -1 {
      return NoMonitor;
    }
    var t := Target(req, monitors, w);
    var normal := IsNormalWindow(types);
    if !normal {
      return Sent([]);
    }
    var current := ReadMaximizeState(state);
    var p := Place(req, t.0, t.1);
    var messages := [WmState(Remove, current.vert, current.horz)];
    messages := messages + [MoveResizeOf(p)];
    messages := messages + [WmState(Add, p.maxVert, p.maxHorz)];
    out := Sent(messages);
  }

  /** -m on its own is accepted, but the move/resize message it leads to
      enables none of x, y, width and height, whatever the window geometry. */
  lemma SwitchAloneAppliesNothing(ms: seq<Monitor>, w: Window)
    requires FindScreen(ms, w) != -1
    ensures Build([SwitchMonitor]).Accepted?
    ensures var req := Build([SwitchMonitor]).request;
      var t := Target(req, ms, w);
      AppliedOf(Place(req, t.0, t.1)) == Applied(None, None, None, None)
  {
  }
}
