# winplacement placement engine, in Dafny

This project models the placement engine of `winplacement`. This one-shot X11 tool snaps the active
window to a half or a quarter of its monitor. It can use a golden-ratio split instead of halves, and
it can move the window to the next Xinerama monitor. Every step of the program's `main` that is not
an Xlib call is written here as a pure function or a small method over immutable datatypes:

- `options.dfy` (module `Options`): the option loop as a left fold of `Step` over the parsed flags,
  then the help gate and the corner rule (`Build`), giving a `Request` or a usage error.
- `monitors.dfy` (module `Monitors`): `findscreen`'s centre-point scan (`FindScreen`), the cyclic
  next monitor (`NextScreen`), and the linear rescale of the window geometry (`Rescale`).
- `placement.dfy` (module `Placement`): the target rectangle, the X11 gravity and the enable bits of
  the `_NET_MOVERESIZE_WINDOW` flags word (EWMH section "_NET_MOVERESIZE_WINDOW"), and the maximize
  flags to add afterwards.
- `protocol.dfy` (module `Protocol`): the `_NET_WM_WINDOW_TYPE` filter, the `_NET_WM_STATE`
  maximize flags, and `Run`, the whole program. `Run` returns a usage error, a missing monitor, or
  the messages sent in order: REMOVE (action 0), MOVERESIZE, then ADD (action 1).
- `geometry.dfy`, `arithmetic.dfy` and `wrappers.dfy` hold the rectangles, C's double-to-int
  truncation, and small helpers.

The factor is an enum with exact rational values 1/2, 382/1000 and 618/1000. Every C conversion of
a double result to `int` is `Trunc`, which rounds toward zero. The window's centre test is doubled
on both sides, so it stays in integers.

Three behaviours of the code are easy to miss. The model keeps each of them:

- The help gate (`winplacement.c:177`) accepts `-m` on its own. But such a request sets none of the
  enable bits, so the move/resize message changes nothing (`Protocol.SwitchAloneAppliesNothing`).
- The rescale truncates toward zero (`winplacement.c:283-286`). So a 200x200 window at (100,100)
  carried from 1920x1080 to 1280x1024 becomes (66, 94, 133, 189); rounding would give 95 and 190
  (`Monitors.RescaleExample`).
- Rescaled x and y only fill axes that have no edge, and those axes have their enable bits clear.
  So the geometry the window manager actually applies never depends on the window's position
  (`Placement.AppliedIgnoresWindow`).

## Model

| member | source | states |
|---|---|---|
| Geometry.Trunc | winplacement.c:340-341 | C's double-to-int conversion: the result lies within one of the real value, on the side of zero, for negative values as well as positive ones |
| Geometry.CentreInExact | winplacement.c:51-52 | the doubled integer test agrees, in both directions, with the source's test on the exact centre `x + 0.5*width` against the half-open box of the monitor |
| Monitors.FindFrom | winplacement.c:44-58 | the scan from index i returns the first monitor at or after i whose box holds the centre, or -1 exactly when none does |
| Monitors.FindScreen | winplacement.c:42-59 | returns the smallest index whose half-open box holds the window centre, or -1 exactly when no box does; a monitor it finds has a non-empty box |
| Monitors.SharedEdgeBelongsToStartingMonitor | winplacement.c:51-52 | with two abutting monitors, a centre on the shared edge is assigned to the monitor that starts there |
| Monitors.FindScreenExample | winplacement.c:42-59 | two 1920x1080 monitors side by side: a window centred at x=1920 is on monitor 1 |
| Monitors.NextScreen | winplacement.c:282 | (i+1) mod n stays in [0,n), maps n-1 to 0 and any other i to i+1 |
| Monitors.NextScreenInjective | winplacement.c:282 | no two monitors share a successor, so switching permutes the monitors |
| Monitors.CycleIsOffset | winplacement.c:282 | switching k times from monitor i lands on (i+k) mod n |
| Monitors.CycleVisitsEveryMonitor | winplacement.c:282 | repeated switching reaches every monitor within fewer than n steps |
| Monitors.ScaleCoord | winplacement.c:283-286 | one coordinate times dst/src, truncated toward zero, stated as an integer quotient bound; unchanged when the extents are equal |
| Monitors.Rescale | winplacement.c:283-286 | x and width are scaled by the width ratio, y and height by the height ratio, each truncated toward zero; same-size monitors leave the window unchanged |
| Monitors.RescaleExample | winplacement.c:283-286 | a 200x200 window at (100,100) carried from 1920x1080 to 1280x1024 becomes (66, 94, 133, 189) |
| Options.GoldenPartsComplement | winplacement.c:146-162 | the factors of -g and -G add up to one, and one half is its own complement |
| Options.StepFields | winplacement.c:97-173 | one option-loop step sets its own boolean; a side flag after its opposite, -h, or a golden flag after the factor left one half requests the help text; a golden flag sets the factor |
| Options.FoldRecordsFlags | winplacement.c:105-166 | after the loop, each of right, left, top, bottom, nomax and switch is set exactly when its flag occurs |
| Options.FoldRequestsHelp | winplacement.c:101-162 | the help text is requested exactly for -h, left with right, top with bottom, or two golden flags, in any order |
| Options.FoldFactor | winplacement.c:146-162 | the factor is the one named by the last golden flag, one half when there is none |
| Options.GoldenPositive | winplacement.c:146-162 | the factor differs from one half exactly when some golden flag was given |
| Options.RepeatHarmless | winplacement.c:105-166 | repeating any flag other than -g or -G leaves the loop state unchanged |
| Options.BuildVerdict | winplacement.c:177-197 | rejected exactly for -h, left with right, top with bottom, two golden flags, or none of l/r/t/b/m; an accepted request names exactly the given sides, switches exactly for -m, suppresses maximize exactly for -n or a corner, and uses the factor of the golden flag given |
| Options.BuildExample | winplacement.c:177-197 | -r is a plain right-half request; -r -l, -g -r -g and -n -G are rejected; -m alone is accepted; -t -l has maximize suppressed |
| Placement.GravityCode | winplacement.c:339-379 | the X11 gravity values lie in 1..10 (NorthWest=1 … SouthEast=9, Static=10) |
| Placement.GravityOfCode | winplacement.c:339-379 | a protocol value 1..10 names the gravity whose code it is, and no other value names one |
| Placement.GravityFor | winplacement.c:349-379 | the gravity's anchor names exactly the requested sides (East/West, North/South, the four corners), Static when none is requested, never Center |
| Placement.EncodeFlags | winplacement.c:339-395 | the flags word is below 4096, holds the gravity code in bits 0-7 and the enable bits above |
| Placement.FlagsWordBits | winplacement.c:386-394 | bit 8 is set iff x is enabled, bit 9 y, bit 10 width, bit 11 height |
| Placement.DecodeEncode | winplacement.c:339-395 | every flags word built decodes back to its gravity and enable bits |
| Placement.EncodeDecode | winplacement.c:339-395 | every word the decoder accepts is the encoding of what it decodes to |
| Placement.Place | winplacement.c:338-395 | bits 8 and 10 are set iff left or right is requested, bits 9 and 11 iff top or bottom; the anchor matches the sides; vertical maximize iff left/right without nomax, horizontal maximize iff top/bottom without nomax; left gives x = monitor x, top gives y = monitor y; an axis with no edge takes the rescaled coordinate when switching and 0 otherwise |
| Placement.PlacedSize | winplacement.c:340-341 | width is W·f − 6 truncated toward zero: in (W·f − 7, W·f − 6] when W·f ≥ 6, in [W·f − 6, W·f − 5) and non-positive otherwise; height likewise with H·f − 30 |
| Placement.FarEdgeOffsets | winplacement.c:349-371 | against the right edge x is xOrg + W·(1−f) + 6 truncated; against the bottom edge y is yOrg + H·(1−f) + 30 truncated |
| Placement.RightFlush | winplacement.c:340-353 | a window placed right ends flush with the monitor's right edge, within one pixel |
| Placement.BottomFlush | winplacement.c:341-379 | a window placed at the bottom ends flush with the monitor's bottom edge, within one pixel |
| Placement.LeftRightDisjoint | winplacement.c:340-358 | left and right placements with complementary factors do not overlap and leave the 12-pixel decoration gap |
| Placement.AppliedIgnoresWindow | winplacement.c:342-395 | the fields the window manager applies do not depend on the window's carried geometry |
| Placement.RightHalfExample | winplacement.c:338-395 | -r on a 1920-wide monitor at x=0 gives width 954 at x 966, East gravity, flags word 0x506, vertical maximize only |
| Protocol.IsNormalWindow | winplacement.c:294-307 | the window is normal iff every type token is the NORMAL atom; an empty list is normal |
| Protocol.ReadMaximizeState | winplacement.c:316-335 | each maximize flag is set iff its atom occurs in the state list |
| Protocol.ActionCode | winplacement.c:409-433 | REMOVE is 0 and ADD is 1, and they are the only action values |
| Protocol.MoveResizeOf | winplacement.c:415-420 | the move/resize message carries the placement's rectangle and a flags word that decodes to its flags |
| Protocol.Target | winplacement.c:272-292 | without switching, the active monitor and the unchanged window; with switching, monitor (active+1) mod n and the window rescaled from the active monitor to it |
| Protocol.SwitchCarriesScaledPosition | winplacement.c:283-286 | when switching, the move/resize x of an axis without an edge is w.x·dstW/srcW truncated toward zero, and y is w.y·dstH/srcH truncated |
| Protocol.Run | winplacement.c:177-436 | a usage error iff the flags are rejected; no monitor iff accepted and no box holds the centre; no messages iff the window is not normal; otherwise exactly REMOVE with the current flags, MOVERESIZE, ADD with the computed flags, and ADD carries no maximize flag for a corner |
| Protocol.SwitchAloneAppliesNothing | winplacement.c:163-166 | -m alone is accepted, yet its move/resize message enables none of x, y, width and height |

## Left out

- Xlib, Xinerama and transport calls (`XOpenDisplay`, `XInternAtom`, `XGetWindowProperty`, `XGetWindowAttributes`, `XTranslateCoordinates`, `XineramaQueryScreens`, `XSendEvent`, `XCloseDisplay`): their results are inputs of `Protocol.Run`, and the sent events are its output sequence. A failure to open the display is not modelled.
- `getopt_long`, the help text, and the `v_printf`/`fputs` diagnostics: these are I/O. The parsed options are the input sequence. An unrecognised option is the no-op flag `Unrecognised`.
- The `_NET_WORKAREA` fetch (lines 244-255): its values are overwritten by the monitor box before any use.
- The `XGetGeometry` readback (lines 425-429): it only feeds debug output.
- IEEE-754 rounding of 0.618, 1.0 − 0.618 and the rescale quotients: the exact rational model can differ from the program by one pixel where a product falls exactly on an integer boundary.
- The undefined behaviour when no monitor holds the centre (line 275 indexes with −1), which also covers a zero monitor count: it is the `NoMonitor` outcome, not a default monitor.
- The unchecked dereference of the active-window property (line 225): the window geometry is given.
- Atom values: atoms are abstract constructors, so the interned numbers of the atoms, and the 0 sent for an unset flag, are not modelled.
- Monitors.ScaleCoord: the equal-extent clause (src == dst gives v back) holds in exact arithmetic only; in IEEE doubles `(double)v/src*dst` can land just below v, so the program can give v − 1 (for instance v = 123 with extent 1920).
- Monitors.Rescale: the clause that same-size monitors leave the window unchanged holds in exact arithmetic only; the program can give a coordinate one pixel lower, as for `Monitors.ScaleCoord`.
- The extra data words of the `_NET_WM_STATE` messages: the program reuses one uninitialised `XEvent` (line 399), so REMOVE sends undefined `data.l[3]` and `data.l[4]`, and ADD still carries the width and height written for MOVERESIZE there (lines 419-420). `data.l[3]` is the source indication in the EWMH `_NET_WM_STATE` message. `Message.WmState` holds only the action and the two maximize flags.
- The 32-bit wire format of the client message (`format = 32`, the `unsigned long` casts of x, y, width and height): message fields are unbounded integers.
- The `short` range of Xinerama fields: monitor origin and extent are `nat`. The program copies them into `unsigned long` variables, so a negative origin is already outside what it handles.
