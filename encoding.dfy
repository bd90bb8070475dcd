/**
 * The value side of single-side-band encoding (`encodeHologram`) and of the
 * encoded Rayleigh-Sommerfeld accumulation (`diffractEncodedRS`): the output
 * coordinate grids, the phase-ramp correction and the per-pixel real samples.
 */
module Encoding {
  import opened Numeric
  import opened Field

  // ---------------------------------------------------------------------------
  // Output coordinate grids

  /** `x_o[i] = -ss.x / 2 + pp.x * i + pp.x / 2`: the centre of column `i`. */
  function XGrid(ss: Vec2, pp: Vec2, i: int): real
  {
    -ss.x / 2.0 + pp.x * i as real + pp.x / 2.0
  }

  /** `y_o[j] = (ss.y - pp.y) - pp.y * j`: row `j`, counted from the top. */
  function YGrid(ss: Vec2, pp: Vec2, j: int): real
  {
    (ss.y - pp.y) - pp.y * j as real
  }

  /** Columns are one pitch apart, rows one pitch apart going down. */
  lemma GridSteps(ss: Vec2, pp: Vec2, i: int)
    ensures XGrid(ss, pp, i + 1) - XGrid(ss, pp, i) == pp.x
    ensures YGrid(ss, pp, i + 1) - YGrid(ss, pp, i) == -pp.y
  {
  }

  /** With `ss.x = pn.x * pp.x` the x grid is symmetric about zero. */
  lemma XGridCentred(pnX: int, ss: Vec2, pp: Vec2, i: int)
    requires ss.x == pnX as real * pp.x
    ensures XGrid(ss, pp, i) + XGrid(ss, pp, pnX - 1 - i) == 0.0
  {
  }

  /**
   * With `ss.y = pn.y * pp.y` the y grid runs from `ss.y - pp.y` on the top
   * row down to exactly zero on the bottom row: it is not centred.
   */
  lemma YGridSpan(pnY: int, ss: Vec2, pp: Vec2)
    requires ss.y == pnY as real * pp.y
    ensures YGrid(ss, pp, 0) == ss.y - pp.y
    ensures YGrid(ss, pp, pnY - 1) == 0.0
  {
  }

  // ---------------------------------------------------------------------------
  // The phase-ramp correction

  /** The phase `M_PI * xo * shift.x / pp.x` of the ramp at grid abscissa `xo`. */
  function XAngle(pp: Vec2, shift: Vec2, xo: real): real
    requires pp.x != 0.0
  {
    MPi * xo * shift.x / pp.x
  }

  /** The phase `M_PI * yo * shift.y / pp.y` of the ramp at grid ordinate `yo`. */
  function YAngle(pp: Vec2, shift: Vec2, yo: real): real
    requires pp.y != 0.0
  {
    MPi * yo * shift.y / pp.y
  }

  /** `cos X cos Y - sin X sin Y`: the real part of the shift factor. */
  function ShiftFactor(num: Numerics, pp: Vec2, shift: Vec2, xo: real, yo: real): real
    requires pp.x != 0.0 && pp.y != 0.0
  {
    var X := XAngle(pp, shift, xo);
    var Y := YAngle(pp, shift, yo);
    num.cos(X) * num.cos(Y) - num.sin(X) * num.sin(Y)
  }

  /** The unit phase `cos a + i sin a`. */
  function UnitPhase(num: Numerics, a: real): Complex
  {
    Complex(num.cos(a), num.sin(a))
  }

  /**
   * The shift factor is the real part of the product of the column phase
   * `e^{iX}` and the row phase `e^{iY}`: the x part depends only on the
   * column, the y part only on the row.
   */
  lemma ShiftFactorIsPhaseProduct(num: Numerics, pp: Vec2, shift: Vec2, xo: real, yo: real)
    requires pp.x != 0.0 && pp.y != 0.0
    ensures ShiftFactor(num, pp, shift, xo, yo) ==
            Mul(UnitPhase(num, XAngle(pp, shift, xo)), UnitPhase(num, YAngle(pp, shift, yo))).re
  {
  }

  /** `(a + b * d) / d == a / d + b` for a non-zero `d`. */
  lemma DivShift(a: real, b: real, d: real)
    requires d != 0.0
    ensures (a + b * d) / d == a / d + b
  {
    assert (a + b * d) / d * d == a + b * d;
    assert (a / d + b) * d == a / d * d + b * d;
  }

  /**
   * The ramp is linear across the frame: the x phase of column `i` is the
   * phase of column 0 plus `i * M_PI * shift.x`, and the y phase of row `j`
   * is the phase of row 0 minus `j * M_PI * shift.y`.
   */
  lemma RampIsLinear(ss: Vec2, pp: Vec2, shift: Vec2, i: int, j: int)
    requires pp.x != 0.0 && pp.y != 0.0
    ensures XAngle(pp, shift, XGrid(ss, pp, i)) == XAngle(pp, shift, XGrid(ss, pp, 0)) + i as real * MPi * shift.x
    ensures YAngle(pp, shift, YGrid(ss, pp, j)) == YAngle(pp, shift, YGrid(ss, pp, 0)) - j as real * MPi * shift.y
  {
    var x0 := XGrid(ss, pp, 0);
    assert XGrid(ss, pp, i) == x0 + i as real * pp.x;
    assert MPi * (x0 + i as real * pp.x) * shift.x == MPi * x0 * shift.x + (i as real * MPi * shift.x) * pp.x;
    DivShift(MPi * x0 * shift.x, i as real * MPi * shift.x, pp.x);
    var y0 := YGrid(ss, pp, 0);
    assert YGrid(ss, pp, j) == y0 + (-j as real) * pp.y;
    assert MPi * (y0 + (-j as real) * pp.y) * shift.y == MPi * y0 * shift.y + (-j as real * MPi * shift.y) * pp.y;
    DivShift(MPi * y0 * shift.y, -j as real * MPi * shift.y, pp.y);
  }

  /**
   * Output sample `i` of the encoder: the real part of the round-tripped
   * field times the shift factor, at the grid point of column `i % pn.x`
   * and row `i / pn.x`.
   */
  function EncodedSample(num: Numerics, field: seq<Complex>, pn: IVec2, pp: Vec2, ss: Vec2, shift: Vec2, i: int): (v: real)
    requires pp.x != 0.0 && pp.y != 0.0 && 0 < pn.x
    ensures v == num.encodeRoundTrip(field, pn.x, pn.y, i).re *
                 ShiftFactor(num, pp, shift, XGrid(ss, pp, i % pn.x), YGrid(ss, pp, i / pn.x))
  {
    var h := num.encodeRoundTrip(field, pn.x, pn.y, i);
    var f := ShiftFactor(num, pp, shift, XGrid(ss, pp, i % pn.x), YGrid(ss, pp, i / pn.x));
    MulByRealFactor(h, f);
    Mul(h, Complex(f, 0.0)).re
  }

  /** A sample built from the stored grid values and round-tripped field is the encoder's sample. */
  lemma EncodedSampleFromGrids(num: Numerics, field: seq<Complex>, pn: IVec2, pp: Vec2, ss: Vec2, shift: Vec2,
                               i: int, h: Complex, xo: real, yo: real)
    requires pp.x != 0.0 && pp.y != 0.0 && 0 < pn.x
    requires h == num.encodeRoundTrip(field, pn.x, pn.y, i)
    requires xo == XGrid(ss, pp, i % pn.x) && yo == YGrid(ss, pp, i / pn.x)
    ensures h.re * ShiftFactor(num, pp, shift, xo, yo) == EncodedSample(num, field, pn, pp, ss, shift, i)
  {
  }

  /**
   * Without a spectrum shift the correction is the identity: each sample is
   * the real part of the round-tripped field.
   */
  lemma UnshiftedSampleIsRealPart(num: Numerics, field: seq<Complex>, pn: IVec2, pp: Vec2, ss: Vec2, i: int)
    requires pp.x != 0.0 && pp.y != 0.0 && 0 < pn.x
    requires num.cos(0.0) == 1.0 && num.sin(0.0) == 0.0
    ensures EncodedSample(num, field, pn, pp, ss, Vec2(0.0, 0.0), i) == num.encodeRoundTrip(field, pn.x, pn.y, i).re
  {
    var X := MPi * XGrid(ss, pp, i % pn.x) * 0.0 / pp.x;
    var Y := MPi * YGrid(ss, pp, i / pn.x) * 0.0 / pp.y;
    assert X == 0.0 && Y == 0.0;
  }

  /**
   * Output sample `i` is the round-tripped field at `i` times the real part
   * of the linear phase ramp at column `i % pn.x` and row `i / pn.x`.
   */
  lemma EncodedSampleIsRamp(num: Numerics, field: seq<Complex>, pn: IVec2, pp: Vec2, ss: Vec2, shift: Vec2, i: int)
    requires pp.x != 0.0 && pp.y != 0.0 && 0 < pn.x
    ensures var X0 := XAngle(pp, shift, XGrid(ss, pp, 0));
            var Y0 := YAngle(pp, shift, YGrid(ss, pp, 0));
            EncodedSample(num, field, pn, pp, ss, shift, i) ==
            num.encodeRoundTrip(field, pn.x, pn.y, i).re *
            Mul(UnitPhase(num, X0 + (i % pn.x) as real * MPi * shift.x),
                UnitPhase(num, Y0 - (i / pn.x) as real * MPi * shift.y)).re
  {
    var c, r := i % pn.x, i / pn.x;
    var xo, yo := XGrid(ss, pp, c), YGrid(ss, pp, r);
    RampIsLinear(ss, pp, shift, c, r);
    ShiftFactorIsPhaseProduct(num, pp, shift, xo, yo);
    var X := XAngle(pp, shift, XGrid(ss, pp, 0)) + (i % pn.x) as real * MPi * shift.x;
    var Y := YAngle(pp, shift, YGrid(ss, pp, 0)) - (i / pn.x) as real * MPi * shift.y;
    assert XAngle(pp, shift, xo) == XAngle(pp, shift, XGrid(ss, pp, 0)) + c as real * MPi * shift.x;
    assert c as real == (i % pn.x) as real;
    assert XAngle(pp, shift, xo) == X;
    assert UnitPhase(num, XAngle(pp, shift, xo)) == UnitPhase(num, X);
    assert YAngle(pp, shift, yo) == YAngle(pp, shift, YGrid(ss, pp, 0)) - r as real * MPi * shift.y;
    assert r as real == (i / pn.x) as real;
    assert YAngle(pp, shift, yo) == Y;
    assert UnitPhase(num, YAngle(pp, shift, yo)) == UnitPhase(num, Y);
  }

  // ---------------------------------------------------------------------------
  // Encoded Rayleigh-Sommerfeld accumulation

  /** `(x + 0.5) * pp.x - ss.x / 2`: the centre of column `x` in `diffractEncodedRS`. */
  function CentreX(ss: Vec2, pp: Vec2, x: int): real
  {
    (x as real + 0.5) * pp.x - ss.x / 2.0
  }

  /** `ss.y / 2 - (y + 0.5) * pp.y`: the centre of row `y`, y pointing up, in `diffractEncodedRS`. */
  function CentreY(ss: Vec2, pp: Vec2, y: int): real
  {
    ss.y / 2.0 - (y as real + 0.5) * pp.y
  }

  /** With `ss = pn * pp` the pixel centres are symmetric about the optical axis on both axes. */
  lemma CentresSymmetric(pn: IVec2, ss: Vec2, pp: Vec2, x: int, y: int)
    requires ss.x == pn.x as real * pp.x && ss.y == pn.y as real * pp.y
    ensures CentreX(ss, pp, x) + CentreX(ss, pp, pn.x - 1 - x) == 0.0
    ensures CentreY(ss, pp, y) + CentreY(ss, pp, pn.y - 1 - y) == 0.0
  {
  }

  /**
   * The real term `A * cos(k * (r - xxx sin(theta.x) - yyy sin(theta.y)))` of
   * point `pc` at pixel `(x, y)`, with `r` the distance to the pixel centre
   * (the loop body of `diffractEncodedRS`).
   */
  function EncodedRSTerm(num: Numerics, pp: Vec2, ss: Vec2, pc: Vec3, k: real, amplitude: real, theta: Vec2,
                         x: int, y: int): real
  {
    var xxx := CentreX(ss, pp, x);
    var yyy := CentreY(ss, pp, y);
    var r := num.sqrt((xxx - pc.x) * (xxx - pc.x) + (yyy - pc.y) * (yyy - pc.y) + pc.z * pc.z);
    amplitude * num.cos(k * (r - xxx * num.sin(theta.x) - yyy * num.sin(theta.y)))
  }

  /** Element-wise `+=` on a real buffer. */
  function AddReal(a: seq<real>, d: seq<real>): (r: seq<real>)
    requires |a| == |d|
    ensures |r| == |a| && forall i :: 0 <= i < |a| ==> r[i] == a[i] + d[i]
  {
    seq(|a|, i requires 0 <= i < |a| => a[i] + d[i])
  }

  /**
   * The contribution of one point to a real buffer of `len` slots: every
   * pixel of the frame gets its term, the slots past it nothing.
   */
  function EncodedRSField(len: nat, num: Numerics, pn: IVec2, pp: Vec2, ss: Vec2, pc: Vec3, k: real,
                          amplitude: real, theta: Vec2): (f: seq<real>)
    ensures |f| == len
  {
    seq(len, i => if 0 <= i < pn.x * pn.y then EncodedRSTerm(num, pp, ss, pc, k, amplitude, theta, i % pn.x, i / pn.x)
                  else 0.0)
  }

  /** Every pixel of the frame receives its term exactly once, at its row-major slot. */
  lemma EncodedRSFieldAt(len: nat, num: Numerics, pn: IVec2, pp: Vec2, ss: Vec2, pc: Vec3, k: real,
                         amplitude: real, theta: Vec2, x: int, y: int)
    requires 0 <= x < pn.x && 0 <= y < pn.y && pn.x * pn.y <= len
    ensures 0 <= PixelIndex(x, y, pn.x) < len
    ensures EncodedRSField(len, num, pn, pp, ss, pc, k, amplitude, theta)[PixelIndex(x, y, pn.x)] ==
            EncodedRSTerm(num, pp, ss, pc, k, amplitude, theta, x, y)
  {
    PixelIndexInFrame(x, y, pn.x, pn.y);
    PixelIndexDecode(x, y, pn.x);
  }

  /** Slots past the frame receive nothing. */
  lemma EncodedRSFieldPastFrame(len: nat, num: Numerics, pn: IVec2, pp: Vec2, ss: Vec2, pc: Vec3, k: real,
                                amplitude: real, theta: Vec2)
    ensures var f := EncodedRSField(len, num, pn, pp, ss, pc, k, amplitude, theta);
            forall i :: 0 <= i && pn.y * pn.x <= i < len ==> f[i] == 0.0
  {
  }

  /** The slots `rowStart .. rowStart + pn.x - 1` of `f` hold the terms of row `y`, left to right. */
  ghost predicate RowHolds(f: seq<real>, num: Numerics, pn: IVec2, pp: Vec2, ss: Vec2, pc: Vec3, k: real,
                           amplitude: real, theta: Vec2, y: int, rowStart: int)
  {
    0 <= rowStart && rowStart + pn.x <= |f| &&
    forall i :: rowStart <= i < rowStart + pn.x ==>
      f[i] == EncodedRSTerm(num, pp, ss, pc, k, amplitude, theta, i - rowStart, y)
  }

  /** The slots of row `y` hold the terms of that row's pixels, left to right. */
  lemma EncodedRSFieldRow(len: nat, num: Numerics, pn: IVec2, pp: Vec2, ss: Vec2, pc: Vec3, k: real,
                          amplitude: real, theta: Vec2, y: int, rowStart: int)
    requires 0 <= y < pn.y && 0 <= pn.x && pn.x * pn.y <= len && rowStart == y * pn.x
    ensures RowHolds(EncodedRSField(len, num, pn, pp, ss, pc, k, amplitude, theta), num, pn, pp, ss, pc, k,
                     amplitude, theta, y, rowStart)
  {
    MulNonNeg(y, pn.x);
    MulMonotone(y + 1, pn.y, pn.x);
    assert (y + 1) * pn.x == rowStart + pn.x;
    forall i | rowStart <= i < rowStart + pn.x
      ensures EncodedRSField(len, num, pn, pp, ss, pc, k, amplitude, theta)[i] ==
              EncodedRSTerm(num, pp, ss, pc, k, amplitude, theta, i - rowStart, y)
    {
      var x := i - rowStart;
      assert PixelIndex(x, y, pn.x) == i;
      EncodedRSFieldAt(len, num, pn, pp, ss, pc, k, amplitude, theta, x, y);
    }
  }

  /** Every row of the frame is laid out in its slots: the field in row form. */
  lemma EncodedRSFieldRows(len: nat, num: Numerics, pn: IVec2, pp: Vec2, ss: Vec2, pc: Vec3, k: real,
                           amplitude: real, theta: Vec2)
    requires 0 <= pn.x && 0 <= pn.y && pn.x * pn.y <= len
    ensures forall y: nat :: y < pn.y ==>
              RowHolds(EncodedRSField(len, num, pn, pp, ss, pc, k, amplitude, theta), num, pn, pp, ss, pc, k,
                       amplitude, theta, y, Offset(y, pn.x))
  {
    forall y: nat | y < pn.y
      ensures RowHolds(EncodedRSField(len, num, pn, pp, ss, pc, k, amplitude, theta), num, pn, pp, ss, pc, k,
                       amplitude, theta, y, Offset(y, pn.x))
    {
      OffsetIsProduct(y, pn.x);
      EncodedRSFieldRow(len, num, pn, pp, ss, pc, k, amplitude, theta, y, Offset(y, pn.x));
    }
  }
}
