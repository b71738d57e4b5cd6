/** The monitor registry: which Xinerama screen holds the active window, which
    screen comes next in cyclic order, and how a window's geometry is carried
    over from one screen to another of a different size. */
module Monitors {
  import opened Geometry
  import opened Arithmetic

  /** The scan of `findscreen` from index `i` on: the first monitor at or after
      `i` whose box holds the window's centre, or -1 when there is none. */
  function FindFrom(ms: seq<Monitor>, w: Window, i: nat): (r: int)
    requires i <= |ms|
    ensures r == -1 || i <= r < |ms|
    ensures r == -1 <==> forall j :: i <= j < |ms| ==> !CentreIn(ms[j], w)
    ensures r != -1 ==> CentreIn(ms[r], w) && forall j :: i <= j < r ==> !CentreIn(ms[j], w)
    decreases |ms| - i
  {
    if i == |ms| then -1
    else if CentreIn(ms[i], w) then i
    else FindFrom(ms, w, i + 1)
  }

  /** The index of the monitor that holds the window: the smallest index whose
      half-open box contains the centre, or -1 when no box does. The monitor
      found always has a non-empty box. */
  function FindScreen(ms: seq<Monitor>, w: Window): (r: int)
    ensures -1 <= r < |ms|
    ensures r == -1 <==> forall j :: 0 <= j < |ms| ==> !CentreIn(ms[j], w)
    ensures r != -1 ==> CentreIn(ms[r], w) && forall j :: 0 <= j < r ==> !CentreIn(ms[j], w)
    ensures r != -1 ==> ms[r].width > 0 && ms[r].height > 0
  {
    FindFrom(ms, w, 0)
  }

  /** With two abutting monitors, a centre on the shared vertical edge belongs
      to the monitor that starts there, not to the one that ends there. */
  lemma SharedEdgeBelongsToStartingMonitor(m0: Monitor, m1: Monitor, w: Window)
    requires m1.xOrg == m0.xOrg + m0.width && m1.width > 0
    requires 2 * w.x + w.width == 2 * m1.xOrg
    requires 2 * m1.yOrg <= 2 * w.y + w.height < 2 * (m1.yOrg + m1.height)
    ensures FindScreen([m0, m1], w) == 1
  {
    var ms := [m0, m1];
    assert ms[0] == m0 && ms[1] == m1;
    assert !CentreIn(ms[0], w);
    assert CentreIn(ms[1], w);
  }

  /** Two 1920x1080 monitors side by side; a 200x200 window whose centre is at
      x = 1920 is on the second one. */
  lemma FindScreenExample()
    ensures FindScreen([Monitor(0, 0, 1920, 1080), Monitor(1920, 0, 1920, 1080)],
                       Window(1820, 100, 200, 200)) == 1
  {
    SharedEdgeBelongsToStartingMonitor(Monitor(0, 0, 1920, 1080), Monitor(1920, 0, 1920, 1080),
                                       Window(1820, 100, 200, 200));
  }

  /** The monitor after `i` in cyclic order, among `n` monitors. */
  function NextScreen(i: int, n: int): (r: int)
    requires 0 <= i < n
    ensures 0 <= r < n
    ensures i == n - 1 ==> r == 0
    ensures i < n - 1 ==> r == i + 1
  {
    (i + 1) % n
  }

  /** No two monitors have the same successor: NextScreen permutes [0, n). */
  lemma NextScreenInjective(i: int, j: int, n: int)
    requires 0 <= i < n && 0 <= j < n
    requires NextScreen(i, n) == NextScreen(j, n)
    ensures i == j
  {
  }

  /** The monitor reached from `i` after `k` switches. */
  function Cycle(i: int, k: nat, n: int): (r: int)
    requires 0 <= i < n
    ensures 0 <= r < n
  {
    if k == 0 then i else NextScreen(Cycle(i, k - 1, n), n)
  }

  /** Adding one to a number advances its remainder cyclically. */
  lemma ModSuccessor(a: int, n: int)
    requires n > 0
    ensures (a + 1) % n == if a % n == n - 1 then 0 else a % n + 1
  {
    var q, r := a / n, a % n;
    assert a == q * n + r;
    if r == n - 1 {
      assert a + 1 == (q + 1) * n + 0;
      DivModUnique(a + 1, n, q + 1, 0);
    } else {
      assert a + 1 == q * n + (r + 1);
      DivModUnique(a + 1, n, q, r + 1);
    }
  }

  /** Switching `k` times from monitor `i` lands on monitor (i + k) mod n. */
  lemma {:induction false} CycleIsOffset(i: int, k: nat, n: int)
    requires 0 <= i < n
    ensures Cycle(i, k, n) == (i + k) % n
  {
    if k > 0 {
      CycleIsOffset(i, k - 1, n);
      ModSuccessor(i + k - 1, n);
    }
  }

  /** Repeated switching visits every monitor, each within fewer than n steps. */
  lemma CycleVisitsEveryMonitor(i: int, j: int, n: int)
    requires 0 <= i < n && 0 <= j < n
    ensures exists k: nat :: k < n && Cycle(i, k, n) == j
  {
    var k: nat := if i <= j then j - i else j - i + n;
    CycleIsOffset(i, k, n);
    if i <= j {
      DivModUnique(i + k, n, 0, j);
    } else {
      DivModUnique(i + k, n, 1, j);
    }
  }

  /** `r` is num / den rounded toward zero, stated with integers only. */
  predicate TruncQuotient(r: int, num: int, den: int)
    requires den > 0
  {
    if num >= 0 then r * den <= num < (r + 1) * den
    else (r - 1) * den < num <= r * den
  }

  /** One coordinate carried from a screen of extent `src` to one of extent
      `dst`: v / src * dst in double arithmetic, then converted back to int. */
  function ScaleCoord(v: int, src: nat, dst: nat): (r: int)
    requires src > 0
    ensures TruncQuotient(r, v * dst, src)
    ensures src == dst ==> r == v
  {
    var q := v as real / src as real * dst as real;
    var t := Trunc(q);
    assert q * src as real == (v * dst) as real;
    TruncScaled(q, t, src);
    t
  }

  /** Multiplying both sides of a comparison of q with k by a positive integer. */
  lemma ScaleCompare(q: real, k: int, s: nat)
    requires s > 0
    ensures q < k as real ==> q * (s as real) < (k * s) as real
    ensures q <= k as real ==> q * (s as real) <= (k * s) as real
    ensures k as real < q ==> (k * s) as real < q * (s as real)
    ensures k as real <= q ==> (k * s) as real <= q * (s as real)
  {
    assert (k * s) as real == k as real * s as real;
    if q < k as real {
      assert (k as real - q) * s as real > 0.0;
    } else {
      assert (q - k as real) * s as real >= 0.0;
    }
  }

  /** Multiplying the bounds of a truncation by a positive integer. */
  lemma TruncScaled(q: real, t: int, s: nat)
    requires s > 0
    requires 0.0 <= q ==> t as real <= q < (t + 1) as real
    requires q < 0.0 ==> (t - 1) as real < q <= t as real
    ensures 0.0 <= q ==> (t * s) as real <= q * (s as real) < ((t + 1) * s) as real
    ensures q < 0.0 ==> ((t - 1) * s) as real < q * (s as real) <= (t * s) as real
  {
    ScaleCompare(q, t, s);
    ScaleCompare(q, t + 1, s);
    ScaleCompare(q, t - 1, s);
  }

  /** The window geometry rescaled from the active monitor to the next one:
      each coordinate is multiplied by the ratio of the destination extent to
      the source extent on its axis and truncated toward zero. Between monitors
      of the same size the window is unchanged. */
  function Rescale(w: Window, src: Monitor, dst: Monitor): (r: Window)
    requires src.width > 0 && src.height > 0
    ensures TruncQuotient(r.x, w.x * dst.width, src.width)
    ensures TruncQuotient(r.width, w.width * dst.width, src.width)
    ensures TruncQuotient(r.y, w.y * dst.height, src.height)
    ensures TruncQuotient(r.height, w.height * dst.height, src.height)
    ensures src.width == dst.width && src.height == dst.height ==> r == w
  {
    Window(ScaleCoord(w.x, src.width, dst.width),
           ScaleCoord(w.y, src.height, dst.height),
           ScaleCoord(w.width, src.width, dst.width),
           ScaleCoord(w.height, src.height, dst.height))
  }

  /** A 200x200 window at (100, 100) carried from a 1920x1080 monitor to a
      1280x1024 one: every coordinate is truncated, so y and height come out
      as 94 and 189. */
  lemma RescaleExample()
    ensures Rescale(Window(100, 100, 200, 200), Monitor(0, 0, 1920, 1080), Monitor(1920, 0, 1280, 1024))
            == Window(66, 94, 133, 189)
  {
  }
}
