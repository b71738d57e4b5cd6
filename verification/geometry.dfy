/** Rectangles of the window-placement engine: physical monitors, the active
    window's geometry in root-window coordinates, the centre-point test used to
    decide which monitor holds a window, and C's double-to-int conversion. */
module Geometry {

  /** One Xinerama screen. The program copies the origin and extent into
      unsigned long variables before using them, so they are non-negative here. */
  datatype Monitor = Monitor(xOrg: nat, yOrg: nat, width: nat, height: nat)

  /** The active window's geometry, translated into root-window coordinates. */
  datatype Window = Window(x: int, y: int, width: int, height: int)

  /** C's conversion of a double to int: the fractional part is discarded,
      rounding toward zero for negative values as well as positive ones. */
  function Trunc(r: real): (t: int)
    ensures 0.0 <= r ==> 0 <= t && t as real <= r < t as real + 1.0
    ensures r < 0.0 ==> t <= 0 && t as real - 1.0 < r <= t as real
  {
    if r >= 0.0 then r.Floor else -((-r).Floor)
  }

  /** The window's centre lies in the monitor's half-open box
      [xOrg, xOrg+width) x [yOrg, yOrg+height). Both sides are doubled so that
      the half-pixel centre stays integral. */
  predicate CentreIn(m: Monitor, w: Window)
  {
    && 2 * m.xOrg <= 2 * w.x + w.width < 2 * (m.xOrg + m.width)
    && 2 * m.yOrg <= 2 * w.y + w.height < 2 * (m.yOrg + m.height)
  }

  /** The doubled integer test agrees with the program's test on the exact
      centre `x + 0.5 * width`, in both directions. */
  lemma CentreInExact(m: Monitor, w: Window)
    ensures CentreIn(m, w) <==>
      && m.xOrg as real <= w.x as real + 0.5 * w.width as real < (m.xOrg + m.width) as real
      && m.yOrg as real <= w.y as real + 0.5 * w.height as real < (m.yOrg + m.height) as real
  {
  }
}
