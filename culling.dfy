/**
 * The culling rectangle of `diffractNotEncodedRS` and `diffractNotEncodedFrsn`:
 * the pixel range a point can reach within the diffraction angle the pixel
 * pitch allows, clamped to the frame.
 */
module Culling {
  import opened Numeric
  import opened Field

  /**
   * The pixel loops run `xLo <= xxtr < xHi` (`Xbound[_Y]` to `Xbound[_X]`) and
   * `yLo <= yytr < yHi` (`Ybound[_Y]` to `Ybound[_X]`).
   */
  datatype Window = Window(xLo: int, xHi: int, yLo: int, yHi: int)

  predicate InWindow(w: Window, x: int, y: int)
  {
    w.xLo <= x < w.xHi && w.yLo <= y < w.yHi
  }

  /** A window whose range is inverted or empty on either axis. */
  predicate IsEmpty(w: Window)
  {
    w.xLo >= w.xHi || w.yLo >= w.yHi
  }

  lemma FloorMonotone(a: real, b: real)
    requires a <= b
    ensures a.Floor <= b.Floor
  {
  }

  lemma DivMonotone(u: real, v: real, p: real)
    requires u <= v && 0.0 < p
    ensures u / p <= v / p
  {
    assert v / p - u / p == (v - u) / p;
  }

  /**
   * The bounds before clamping, from the point `pc` and its lateral
   * half-widths `hx`, `hy` (x grows with the pixel index, y is flipped).
   */
  function RawWindow(pn: IVec2, pp: Vec2, ss: Vec2, pc: Vec3, hx: real, hy: real): Window
    requires pp.x != 0.0 && pp.y != 0.0
  {
    Window(
      ((pc.x - hx + ss.x / 2.0) / pp.x).Floor + 1,
      ((pc.x + hx + ss.x / 2.0) / pp.x).Floor + 1,
      pn.y - ((pc.y + hy + ss.y / 2.0) / pp.y).Floor,
      pn.y - ((pc.y - hy + ss.y / 2.0) / pp.y).Floor)
  }

  /** With non-negative half-widths and positive pitch, lower <= upper on each axis. */
  lemma RawWindowOrdered(pn: IVec2, pp: Vec2, ss: Vec2, pc: Vec3, hx: real, hy: real)
    requires 0.0 < pp.x && 0.0 < pp.y && 0.0 <= hx && 0.0 <= hy
    ensures var w := RawWindow(pn, pp, ss, pc, hx, hy); w.xLo <= w.xHi && w.yLo <= w.yHi
  {
    DivMonotone(pc.x - hx + ss.x / 2.0, pc.x + hx + ss.x / 2.0, pp.x);
    FloorMonotone((pc.x - hx + ss.x / 2.0) / pp.x, (pc.x + hx + ss.x / 2.0) / pp.x);
    DivMonotone(pc.y - hy + ss.y / 2.0, pc.y + hy + ss.y / 2.0, pp.y);
    FloorMonotone((pc.y - hy + ss.y / 2.0) / pp.y, (pc.y + hy + ss.y / 2.0) / pp.y);
  }

  /** A zero half-width leaves an empty range on that axis. */
  lemma RawWindowDegenerate(pn: IVec2, pp: Vec2, ss: Vec2, pc: Vec3, hy: real)
    requires pp.x != 0.0 && pp.y != 0.0
    ensures var w := RawWindow(pn, pp, ss, pc, 0.0, hy); w.xLo == w.xHi
  {
  }

  /**
   * The clamping in `diffractNotEncodedRS` and `diffractNotEncodedFrsn`: only the upper bounds are
   * lowered to the pixel count and only the lower bounds raised to zero.
   * The result is the original rectangle cut down to the frame.
   */
  function Clamp(w: Window, pn: IVec2): (c: Window)
    ensures 0 <= c.xLo && c.xHi <= pn.x && 0 <= c.yLo && c.yHi <= pn.y
    ensures forall x, y :: InWindow(c, x, y) <==> InWindow(w, x, y) && 0 <= x < pn.x && 0 <= y < pn.y
    ensures IsEmpty(w) ==> IsEmpty(c)
  {
    Window(
      if w.xLo < 0 then 0 else w.xLo,
      if w.xHi > pn.x then pn.x else w.xHi,
      if w.yLo < 0 then 0 else w.yLo,
      if w.yHi > pn.y then pn.y else w.yHi)
  }

  /** Every pixel of a clamped window has its slot inside the `pn.x * pn.y` buffer. */
  lemma ClampedSlotInBuffer(w: Window, pn: IVec2, x: int, y: int)
    requires InWindow(Clamp(w, pn), x, y)
    ensures 0 <= PixelIndex(x, y, pn.x) < pn.x * pn.y
  {
    PixelIndexInFrame(x, y, pn.x, pn.y);
  }

  /** Fresnel half-width `|wavelength * z / (2 * pp)|` of `diffractNotEncodedFrsn`. */
  function FresnelHalfWidth(wavelength: real, z: real, pp: real): (h: real)
    requires pp != 0.0
    ensures h >= 0.0 && (h == 0.0 <==> wavelength * z == 0.0)
  {
    Abs(wavelength * z / (2.0 * pp))
  }

  /** The Fresnel culling window of point `pc` in `diffractNotEncodedFrsn`. */
  function FresnelWindow(pn: IVec2, pp: Vec2, ss: Vec2, pc: Vec3, wavelength: real): Window
    requires pp.x != 0.0 && pp.y != 0.0
  {
    Clamp(RawWindow(pn, pp, ss, pc, FresnelHalfWidth(wavelength, pc.z, pp.x), FresnelHalfWidth(wavelength, pc.z, pp.y)), pn)
  }

  /**
   * A point on the hologram plane (`z == 0`), or a zero wavelength, has an
   * empty Fresnel window: the kernel's division by `wavelength * z` is never
   * reached.
   */
  lemma FresnelWindowEmptyOnPlane(pn: IVec2, pp: Vec2, ss: Vec2, pc: Vec3, wavelength: real)
    requires pp.x != 0.0 && pp.y != 0.0 && wavelength * pc.z == 0.0
    ensures IsEmpty(FresnelWindow(pn, pp, ss, pc, wavelength))
  {
    RawWindowDegenerate(pn, pp, ss, pc, FresnelHalfWidth(wavelength, pc.z, pp.y));
  }

  /** A pixel inside the Fresnel window implies `wavelength * z != 0`. */
  lemma FresnelWindowNonEmpty(pn: IVec2, pp: Vec2, ss: Vec2, pc: Vec3, wavelength: real, x: int, y: int)
    requires pp.x != 0.0 && pp.y != 0.0
    requires InWindow(FresnelWindow(pn, pp, ss, pc, wavelength), x, y)
    ensures wavelength * pc.z != 0.0
  {
    if wavelength * pc.z == 0.0 {
      FresnelWindowEmptyOnPlane(pn, pp, ss, pc, wavelength);
      assert false;
    }
  }

  /** `tx = wavelength / (2 * pp)`, the sine of the largest diffraction angle. */
  function MaxSine(wavelength: real, pp: real): real
    requires pp != 0.0
  {
    wavelength / (2.0 * pp)
  }

  /** Rayleigh-Sommerfeld half-width `|tx / sqrt(1 - tx*tx) * z|` of `diffractNotEncodedRS`. */
  function RSHalfWidth(num: Numerics, wavelength: real, z: real, pp: real): (h: real)
    requires pp != 0.0
    ensures h >= 0.0
  {
    Abs(num.halfAngleSlope(MaxSine(wavelength, pp)) * z)
  }

  /** The Rayleigh-Sommerfeld culling window of point `pc` in `diffractNotEncodedRS`. */
  function RSWindow(num: Numerics, pn: IVec2, pp: Vec2, ss: Vec2, pc: Vec3, wavelength: real): Window
    requires pp.x != 0.0 && pp.y != 0.0
  {
    Clamp(RawWindow(pn, pp, ss, pc, RSHalfWidth(num, wavelength, pc.z, pp.x), RSHalfWidth(num, wavelength, pc.z, pp.y)), pn)
  }
}
