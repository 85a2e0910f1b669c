/**
 * Coordinate scaling from a model's normalised space onto a screen.
 *
 * `RoundHalfEven` is Python's `round` on an exact real. `Scaler` is the
 * handler's coordinate scaler: round `v * target / source`, clamp onto the
 * screen, optionally keep off the outermost pixel row and column (so that
 * PyAutoGUI's fail-safe corner is never reached), then add the screen's
 * origin.
 */
module Scaling {

  /** `round(r)`: the nearest integer, and the even one on a tie. */
  function RoundHalfEven(r: real): (n: int)
    ensures r - 0.5 <= n as real <= r + 0.5
    ensures n as real == r - 0.5 || n as real == r + 0.5 ==> n % 2 == 0
  {
    var f := r.Floor;
    var d := r - f as real;
    if d < 0.5 then f
    else if d > 0.5 then f + 1
    else if f % 2 == 0 then f
    else f + 1
  }

  /** Rounding an integer gives it back. */
  lemma RoundOfInteger(k: int)
    ensures RoundHalfEven(k as real) == k
  {
  }

  /** Rounding never reverses the order of two values. */
  lemma RoundMonotone(a: real, b: real)
    requires a <= b
    ensures RoundHalfEven(a) <= RoundHalfEven(b)
  {
    if a < b {
      assert RoundHalfEven(a) as real <= a + 0.5 < b + 0.5 <= RoundHalfEven(b) as real + 1.0;
    }
  }

  function Clamp(v: int, lo: int, hi: int): (r: int)
    requires lo <= hi
    ensures lo <= r <= hi
    ensures lo <= v <= hi ==> r == v
  {
    if v < lo then lo else if v > hi then hi else v
  }

  /** `CoordinateScaler`: a source space, a target screen and the screen's origin. */
  datatype Scaler = Scaler(sourceWidth: int, sourceHeight: int, targetWidth: int, targetHeight: int,
                           originX: int, originY: int)
  {
    predicate Valid() { sourceWidth > 0 && sourceHeight > 0 && targetWidth >= 3 && targetHeight >= 3 }

    /** `set_target_size`: only the target size changes. */
    function WithTargetSize(width: int, height: int): (s: Scaler)
      ensures s.targetWidth == width && s.targetHeight == height
      ensures s.sourceWidth == sourceWidth && s.sourceHeight == sourceHeight
      ensures s.originX == originX && s.originY == originY
    {
      this.(targetWidth := width, targetHeight := height)
    }

    /** `set_origin`: only the origin changes. */
    function WithOrigin(x: int, y: int): (s: Scaler)
      ensures s.originX == x && s.originY == y
      ensures s.sourceWidth == sourceWidth && s.sourceHeight == sourceHeight
      ensures s.targetWidth == targetWidth && s.targetHeight == targetHeight
    {
      this.(originX := x, originY := y)
    }

    /** `scale(x, y, prevent_failsafe)`: the screen point for a source point. */
    function Scale(x: real, y: real, preventFailsafe: bool): (p: (int, int))
      requires Valid()
      ensures preventFailsafe ==> originX + 1 <= p.0 <= originX + targetWidth - 2
      ensures preventFailsafe ==> originY + 1 <= p.1 <= originY + targetHeight - 2
      ensures !preventFailsafe ==> originX <= p.0 <= originX + targetWidth - 1
      ensures !preventFailsafe ==> originY <= p.1 <= originY + targetHeight - 1
    {
      (originX + ScaleAxis(x, sourceWidth, targetWidth, preventFailsafe),
       originY + ScaleAxis(y, sourceHeight, targetHeight, preventFailsafe))
    }
  }

  /**
   * One axis: round, clamp onto `[0, target - 1]`, and with
   * `preventFailsafe` move the first pixel to the second and the last
   * pixel to the one before it.
   */
  function ScaleAxis(v: real, source: int, target: int, preventFailsafe: bool): (r: int)
    requires source > 0 && target >= 3
    ensures 0 <= r <= target - 1
    ensures preventFailsafe ==> 1 <= r <= target - 2
  {
    var c := Clamp(RoundHalfEven(v * target as real / source as real), 0, target - 1);
    if !preventFailsafe then c
    else if c == 0 then 1
    else if c == target - 1 then target - 2
    else c
  }

  /** Away from the screen's edges, the fail-safe adjustment changes nothing. */
  lemma FailsafeOnlyAtEdges(v: real, source: int, target: int)
    requires source > 0 && target >= 3
    requires 1 <= ScaleAxis(v, source, target, false) <= target - 2
    ensures ScaleAxis(v, source, target, true) == ScaleAxis(v, source, target, false)
  {
  }

  /**
   * Without the fail-safe adjustment a non-negative coordinate lands on the
   * nearest pixel, or on the last pixel when it lies beyond it.
   */
  lemma ScaleAxisNearest(v: real, source: int, target: int)
    requires source > 0 && target >= 3 && v >= 0.0
    ensures var e := v * target as real / source as real;
      var p := ScaleAxis(v, source, target, false);
      && (e <= (target - 1) as real ==> e - 0.5 <= p as real <= e + 0.5)
      && (e >= (target - 1) as real ==> p == target - 1)
  {
    var e := v * target as real / source as real;
    ScaledMonotone(0.0, v, target as real, source as real);
    assert 0.0 <= e;
    var r := RoundHalfEven(e);
    assert 0 <= r;
    if e <= (target - 1) as real {
      assert r as real <= (target - 1) as real + 0.5;
      assert r <= target - 1;
      assert Clamp(r, 0, target - 1) == r;
    } else {
      assert r as real >= (target - 1) as real - 0.5;
      assert r >= target - 1;
    }
  }

  /** A larger source coordinate never lands on an earlier pixel. */
  lemma ScaleAxisMonotone(a: real, b: real, source: int, target: int, preventFailsafe: bool)
    requires source > 0 && target >= 3 && a <= b
    ensures ScaleAxis(a, source, target, preventFailsafe) <= ScaleAxis(b, source, target, preventFailsafe)
  {
    var sa, sb := a * target as real / source as real, b * target as real / source as real;
    ScaledMonotone(a, b, target as real, source as real);
    RoundMonotone(sa, sb);
    assert Clamp(RoundHalfEven(sa), 0, target - 1) <= Clamp(RoundHalfEven(sb), 0, target - 1);
  }

  lemma ScaledMonotone(a: real, b: real, t: real, s: real)
    requires a <= b && t > 0.0 && s > 0.0
    ensures a * t / s <= b * t / s
  {
    assert b * t - a * t == (b - a) * t;
    assert b * t / s - a * t / s == (b * t - a * t) / s;
  }

  /** The handler's scaler: the 0-1000 model space onto a screen at the origin. */
  function HandlerScaler(width: int, height: int): Scaler
  {
    Scaler(1000, 1000, width, height, 0, 0)
  }

  /**
   * The corner table on a 1920x1080 screen: corners and points next to
   * them move one pixel inwards, points in the middle are only scaled.
   */
  lemma CornerSafeTable()
    ensures HandlerScaler(1920, 1080).Valid()
    ensures HandlerScaler(1920, 1080).Scale(0.0, 0.0, true) == (1, 1)
    ensures HandlerScaler(1920, 1080).Scale(1.0, 1.0, true) == (2, 1)
    ensures HandlerScaler(1920, 1080).Scale(1000.0, 0.0, true) == (1918, 1)
    ensures HandlerScaler(1920, 1080).Scale(999.0, 1.0, true) == (1918, 1)
    ensures HandlerScaler(1920, 1080).Scale(0.0, 1000.0, true) == (1, 1078)
    ensures HandlerScaler(1920, 1080).Scale(1.0, 999.0, true) == (2, 1078)
    ensures HandlerScaler(1920, 1080).Scale(1000.0, 1000.0, true) == (1918, 1078)
    ensures HandlerScaler(1920, 1080).Scale(999.0, 999.0, true) == (1918, 1078)
    ensures HandlerScaler(1920, 1080).Scale(500.0, 500.0, true) == (960, 540)
    ensures HandlerScaler(1920, 1080).Scale(250.0, 750.0, true) == (480, 810)
  {
    AxisValue(0.0, 1920, 0);
    AxisValue(1.0, 1920, 2);
    AxisValue(999.0, 1920, 1918);
    AxisValue(1000.0, 1920, 1920);
    AxisValue(500.0, 1920, 960);
    AxisValue(250.0, 1920, 480);
    AxisValue(0.0, 1080, 0);
    AxisValue(1.0, 1080, 1);
    AxisValue(999.0, 1080, 1079);
    AxisValue(1000.0, 1080, 1080);
    AxisValue(500.0, 1080, 540);
    AxisValue(750.0, 1080, 810);
  }

  /** The rounded, unclamped pixel of `v` on a 1000-wide source. */
  lemma AxisValue(v: real, target: int, n: int)
    requires target >= 3
    requires n as real - 0.5 < v * target as real / 1000.0 < n as real + 0.5
    ensures RoundHalfEven(v * target as real / 1000.0) == n
  {
  }
}
