/**
 * What one scene point contributes to one channel buffer of the point-cloud
 * generator, and what all points contribute together: the per-pixel values of
 * `diffractNotEncodedRS` and `diffractNotEncodedFrsn`, the per-point record of
 * `genCghPointCloudCPU`, and the viewing-window remap `transVW`.
 */
module Kernels {
  import opened Numeric
  import opened Field
  import opened Gen
  import opened Culling

  // ---------------------------------------------------------------------------
  // Viewing-window remap

  /** `-f * z / (z - f)`, undefined at the field lens distance `f`. */
  function ViewingWindow(f: real, z: real): (r: real)
    requires z != f
    ensures r * (z - f) == -f * z
  {
    -f * z / (z - f)
  }

  /** The inverse remap `f * w / (w + f)`. */
  function ViewingWindowInverse(f: real, w: real): (r: real)
    requires w != -f
    ensures r * (w + f) == f * w
  {
    f * w / (w + f)
  }

  /** The remap keeps the origin fixed. */
  lemma ViewingWindowFixesOrigin(f: real)
    requires f != 0.0
    ensures ViewingWindow(f, 0.0) == 0.0
  {
  }

  /** A non-zero square is positive. */
  lemma SquareIsPositive(f: real)
    requires f != 0.0
    ensures f * f > 0.0
  {
    if f < 0.0 {
      assert f * f == (-f) * (-f);
    }
  }

  /** A factor of a non-zero product is non-zero. */
  lemma NonZeroFactor(a: real, b: real, c: real)
    requires a * b == c && c != 0.0
    ensures a != 0.0
  {
  }

  /** The remap is one-to-one away from the lens: the inverse undoes it. */
  lemma ViewingWindowRoundTrip(f: real, z: real)
    requires f != 0.0 && z != f
    ensures ViewingWindow(f, z) != -f
    ensures ViewingWindowInverse(f, ViewingWindow(f, z)) == z
  {
    var w := ViewingWindow(f, z);
    assert w * (z - f) == -f * z;
    assert (w + f) * (z - f) == -f * f;
    SquareIsPositive(f);
    NonZeroFactor(w + f, z - f, -f * f);
    var v := ViewingWindowInverse(f, w);
    assert v * (w + f) == f * w;
    assert v * (w + f) * (z - f) == f * w * (z - f);
    assert -v * f * f == -f * f * z;
  }

  // ---------------------------------------------------------------------------
  // Kernels

  /** `switch (diff_flag)`: the two modelled modes, and any other value. */
  datatype DiffFlag = PcDiffRS | PcDiffFresnel | OtherFlag(code: nat)

  /** A transformed scene point and its amplitude. */
  datatype Sample = Sample(pc: Vec3, amplitude: real)

  /**
   * The x coordinate of pixel column `x` on the hologram plane,
   * `-ss.x / 2 + (x - 1) * pp.x`, in both unencoded kernels.
   */
  function PixelX(ss: Vec2, pp: Vec2, x: int): real
  {
    -ss.x / 2.0 + (x - 1) as real * pp.x
  }

  /** The y coordinate of pixel row `y`, `-ss.y / 2 + (pn.y - y) * pp.y`, in both unencoded kernels. */
  function PixelY(pn: IVec2, ss: Vec2, pp: Vec2, y: int): real
  {
    -ss.y / 2.0 + (pn.y - y) as real * pp.y
  }

  /** Neighbouring columns are one pitch apart; rows run downwards by one pitch. */
  lemma PixelGridSteps(pn: IVec2, ss: Vec2, pp: Vec2, x: int, y: int)
    ensures PixelX(ss, pp, x + 1) - PixelX(ss, pp, x) == pp.x
    ensures PixelY(pn, ss, pp, y + 1) - PixelY(pn, ss, pp, y) == -pp.y
  {
  }

  /** Fresnel phase `p` at pixel `(x, y)` in `diffractNotEncodedFrsn`. */
  function FresnelPhase(pn: IVec2, pp: Vec2, ss: Vec2, k: real, pc: Vec3, x: int, y: int): real
    requires pc.z != 0.0
  {
    var xxx := PixelX(ss, pp, x) - pc.x;
    var yyy := PixelY(pn, ss, pp, y) - pc.y;
    k * (xxx * xxx + yyy * yyy + 2.0 * pc.z * pc.z) / (2.0 * pc.z)
  }

  /** The Fresnel term `A * (sin p, -cos p) / (wavelength * z)` of `diffractNotEncodedFrsn`. */
  function FresnelTerm(num: Numerics, pn: IVec2, pp: Vec2, ss: Vec2, k: real, pc: Vec3, amplitude: real,
                       wavelength: real, x: int, y: int): (c: Complex)
    requires wavelength * pc.z != 0.0
    ensures c.re * (wavelength * pc.z) == amplitude * num.sin(FresnelPhase(pn, pp, ss, k, pc, x, y))
    ensures c.im * (wavelength * pc.z) == -amplitude * num.cos(FresnelPhase(pn, pp, ss, k, pc, x, y))
  {
    var p := FresnelPhase(pn, pp, ss, k, pc, x, y);
    Complex(amplitude * num.sin(p) / (wavelength * pc.z), amplitude * (-num.cos(p)) / (wavelength * pc.z))
  }

  /** What the Fresnel loop adds at pixel `(x, y)`: the term inside the window, nothing outside. */
  function FresnelPixel(num: Numerics, pn: IVec2, pp: Vec2, ss: Vec2, k: real, pc: Vec3, amplitude: real,
                        wavelength: real, x: int, y: int): Complex
    requires pp.x != 0.0 && pp.y != 0.0
  {
    if InWindow(FresnelWindow(pn, pp, ss, pc, wavelength), x, y) then
      FresnelWindowNonEmpty(pn, pp, ss, pc, wavelength, x, y);
      FresnelTerm(num, pn, pp, ss, k, pc, amplitude, wavelength, x, y)
    else Zero
  }

  /** The whole contribution of one point to a buffer of `len` slots (Fresnel). */
  function FresnelField(len: nat, num: Numerics, pn: IVec2, pp: Vec2, ss: Vec2, k: real, pc: Vec3,
                        amplitude: real, wavelength: real): (f: seq<Complex>)
    requires pp.x != 0.0 && pp.y != 0.0
    ensures |f| == len
  {
    PixelField(len, pn.x, pn.y, (x, y) => FresnelPixel(num, pn, pp, ss, k, pc, amplitude, wavelength, x, y))
  }

  /**
   * Every pixel of the Fresnel window receives the Fresnel term once; every
   * other pixel and the slots past the frame receive nothing.
   */
  lemma FresnelFieldAt(len: nat, num: Numerics, pn: IVec2, pp: Vec2, ss: Vec2, k: real, pc: Vec3,
                       amplitude: real, wavelength: real, x: int, y: int)
    requires pp.x != 0.0 && pp.y != 0.0 && pn.x * pn.y <= len
    requires 0 <= x < pn.x && 0 <= y < pn.y
    ensures var w := FresnelWindow(pn, pp, ss, pc, wavelength);
            var f := FresnelField(len, num, pn, pp, ss, k, pc, amplitude, wavelength);
            0 <= PixelIndex(x, y, pn.x) < len &&
            (InWindow(w, x, y) ==>
               wavelength * pc.z != 0.0 &&
               f[PixelIndex(x, y, pn.x)] == FresnelTerm(num, pn, pp, ss, k, pc, amplitude, wavelength, x, y)) &&
            (!InWindow(w, x, y) ==> f[PixelIndex(x, y, pn.x)] == Zero)
  {
    PixelFieldAt(len, pn.x, pn.y, (x, y) => FresnelPixel(num, pn, pp, ss, k, pc, amplitude, wavelength, x, y), x, y);
    if InWindow(FresnelWindow(pn, pp, ss, pc, wavelength), x, y) {
      FresnelWindowNonEmpty(pn, pp, ss, pc, wavelength, x, y);
    }
  }

  /** Outside the Fresnel window, and past the frame, the contribution is zero. */
  lemma FresnelFieldOutsideWindow(len: nat, num: Numerics, pn: IVec2, pp: Vec2, ss: Vec2, k: real, pc: Vec3,
                                  amplitude: real, wavelength: real)
    requires pp.x != 0.0 && pp.y != 0.0
    ensures var w := FresnelWindow(pn, pp, ss, pc, wavelength);
            var f := FresnelField(len, num, pn, pp, ss, k, pc, amplitude, wavelength);
            forall i :: 0 <= i < |f| && !(i < pn.x * pn.y && InWindow(w, i % pn.x, i / pn.x)) ==> f[i] == Zero
  {
    var w := FresnelWindow(pn, pp, ss, pc, wavelength);
    var f := FresnelField(len, num, pn, pp, ss, k, pc, amplitude, wavelength);
    forall i | 0 <= i < |f| && !(i < pn.x * pn.y && InWindow(w, i % pn.x, i / pn.x))
      ensures f[i] == Zero
    {
      PixelFieldIndex(len, pn.x, pn.y, (x, y) => FresnelPixel(num, pn, pp, ss, k, pc, amplitude, wavelength, x, y), i);
    }
  }

  /** An empty Fresnel window leaves the buffer as it was. */
  lemma FresnelFieldEmpty(len: nat, num: Numerics, pn: IVec2, pp: Vec2, ss: Vec2, k: real, pc: Vec3,
                          amplitude: real, wavelength: real)
    requires pp.x != 0.0 && pp.y != 0.0
    requires IsEmpty(FresnelWindow(pn, pp, ss, pc, wavelength))
    ensures FresnelField(len, num, pn, pp, ss, k, pc, amplitude, wavelength) == Zeros(len)
  {
    var f := FresnelField(len, num, pn, pp, ss, k, pc, amplitude, wavelength);
    forall i | 0 <= i < len
      ensures f[i] == Zeros(len)[i]
    {
      PixelFieldIndex(len, pn.x, pn.y, (x, y) => FresnelPixel(num, pn, pp, ss, k, pc, amplitude, wavelength, x, y), i);
    }
  }

  /**
   * The strict cone test of `diffractNotEncodedRS`: the pixel lies strictly inside the
   * lateral range the diffraction angle allows at its distance from the point.
   */
  predicate RSCone(num: Numerics, pc: Vec3, tx: real, ty: real, xxx: real, yyy: real)
  {
    var ax := Abs(num.halfAngleSlope(tx) * num.sqrt((yyy - pc.y) * (yyy - pc.y) + pc.z * pc.z));
    var ay := Abs(num.halfAngleSlope(ty) * num.sqrt((xxx - pc.x) * (xxx - pc.x) + pc.z * pc.z));
    (xxx < pc.x + ax && xxx > pc.x - ax) && (yyy < pc.y + ay && yyy > pc.y - ay)
  }

  /** Pixel `(x, y)` lies in the RS window and passes the cone test. */
  predicate RSHit(num: Numerics, pn: IVec2, pp: Vec2, ss: Vec2, pc: Vec3, wavelength: real, x: int, y: int)
    requires pp.x != 0.0 && pp.y != 0.0
  {
    InWindow(RSWindow(num, pn, pp, ss, pc, wavelength), x, y) &&
    RSCone(num, pc, MaxSine(wavelength, pp.x), MaxSine(wavelength, pp.y), PixelX(ss, pp, x), PixelY(pn, ss, pp, y))
  }

  /** What the RS loop adds at pixel `(x, y)`: the term inside the window and the cone. */
  function RSPixel(num: Numerics, pn: IVec2, pp: Vec2, ss: Vec2, k: real, pc: Vec3, amplitude: real,
                   wavelength: real, x: int, y: int): Complex
    requires pp.x != 0.0 && pp.y != 0.0
  {
    var xxx := PixelX(ss, pp, x);
    var yyy := PixelY(pn, ss, pp, y);
    if RSHit(num, pn, pp, ss, pc, wavelength, x, y)
    then num.rsTerm(pc, k, amplitude, wavelength, xxx, yyy)
    else Zero
  }

  /** The whole contribution of one point to a buffer of `len` slots (Rayleigh-Sommerfeld). */
  function RSField(len: nat, num: Numerics, pn: IVec2, pp: Vec2, ss: Vec2, k: real, pc: Vec3,
                   amplitude: real, wavelength: real): (f: seq<Complex>)
    requires pp.x != 0.0 && pp.y != 0.0
    ensures |f| == len
  {
    PixelField(len, pn.x, pn.y, (x, y) => RSPixel(num, pn, pp, ss, k, pc, amplitude, wavelength, x, y))
  }

  /**
   * Exactly the pixels of the RS window that pass the cone test receive the
   * RS term, once; every other slot receives nothing.
   */
  lemma RSFieldAt(len: nat, num: Numerics, pn: IVec2, pp: Vec2, ss: Vec2, k: real, pc: Vec3,
                  amplitude: real, wavelength: real, x: int, y: int)
    requires pp.x != 0.0 && pp.y != 0.0 && pn.x * pn.y <= len
    requires 0 <= x < pn.x && 0 <= y < pn.y
    ensures 0 <= PixelIndex(x, y, pn.x) < len
    ensures RSField(len, num, pn, pp, ss, k, pc, amplitude, wavelength)[PixelIndex(x, y, pn.x)] ==
            if RSHit(num, pn, pp, ss, pc, wavelength, x, y)
            then num.rsTerm(pc, k, amplitude, wavelength, PixelX(ss, pp, x), PixelY(pn, ss, pp, y))
            else Zero
  {
    PixelFieldAt(len, pn.x, pn.y, (x, y) => RSPixel(num, pn, pp, ss, k, pc, amplitude, wavelength, x, y), x, y);
  }

  /** Outside the RS window, and past the frame, the contribution is zero. */
  lemma RSFieldOutsideWindow(len: nat, num: Numerics, pn: IVec2, pp: Vec2, ss: Vec2, k: real, pc: Vec3,
                             amplitude: real, wavelength: real)
    requires pp.x != 0.0 && pp.y != 0.0
    ensures var w := RSWindow(num, pn, pp, ss, pc, wavelength);
            var f := RSField(len, num, pn, pp, ss, k, pc, amplitude, wavelength);
            forall i :: 0 <= i < |f| && !(i < pn.x * pn.y && InWindow(w, i % pn.x, i / pn.x)) ==> f[i] == Zero
  {
    var w := RSWindow(num, pn, pp, ss, pc, wavelength);
    var f := RSField(len, num, pn, pp, ss, k, pc, amplitude, wavelength);
    forall i | 0 <= i < |f| && !(i < pn.x * pn.y && InWindow(w, i % pn.x, i / pn.x))
      ensures f[i] == Zero
    {
      PixelFieldIndex(len, pn.x, pn.y, (x, y) => RSPixel(num, pn, pp, ss, k, pc, amplitude, wavelength, x, y), i);
    }
  }

  /** Slots past the `pn.x * pn.y` frame never receive anything. */
  lemma FieldsVanishPastFrame(len: nat, num: Numerics, pn: IVec2, pp: Vec2, ss: Vec2, k: real, pc: Vec3,
                              amplitude: real, wavelength: real, i: int)
    requires pp.x != 0.0 && pp.y != 0.0
    requires 0 <= i && pn.x * pn.y <= i < len
    ensures RSField(len, num, pn, pp, ss, k, pc, amplitude, wavelength)[i] == Zero
    ensures FresnelField(len, num, pn, pp, ss, k, pc, amplitude, wavelength)[i] == Zero
  {
    PixelFieldIndex(len, pn.x, pn.y, (x, y) => RSPixel(num, pn, pp, ss, k, pc, amplitude, wavelength, x, y), i);
    PixelFieldIndex(len, pn.x, pn.y, (x, y) => FresnelPixel(num, pn, pp, ss, k, pc, amplitude, wavelength, x, y), i);
  }

  // ---------------------------------------------------------------------------
  // Points

  lemma ReadablePrefix(d: PointCloudData, n: int, m: int)
    requires Readable(d, n) && m <= n
    ensures Readable(d, m)
  {
    if m > 0 {
      OffsetIsProduct(m - 1, d.nColors);
      OffsetIsProduct(n - 1, d.nColors);
      MulMonotone(m - 1, n - 1, d.nColors);
    }
  }

  /**
   * A point built from its raw coordinates and colour entry: through the
   * viewing-window remap when that is on, scaled axis by axis, the depth
   * offset added to z (the per-point read of `genCghPointCloudCPU`).
   */
  function Place(num: Numerics, cfg: PointCloudConfig, viewingWindow: bool, x: real, y: real, z: real,
                 amplitude: real): Sample
  {
    var vx := if viewingWindow then num.transVW(x) else x;
    var vy := if viewingWindow then num.transVW(y) else y;
    var vz := if viewingWindow then num.transVW(z) else z;
    Sample(Vec3(vx * cfg.scale.x, vy * cfg.scale.y, vz * cfg.scale.z + cfg.offsetDepth), amplitude)
  }

  /**
   * Point `i` as the points loop of `genCghPointCloudCPU` builds it: its three coordinates
   * `vertex[3 * i ..]` and the amplitude `color[nColors * i]`, placed.
   */
  function SampleAt(d: PointCloudData, cfg: PointCloudConfig, viewingWindow: bool, num: Numerics, i: int): Sample
    requires 0 <= i && Readable(d, i + 1)
  {
    var v := d.vertex.value;
    OffsetIsProduct(i, d.nColors);
    Place(num, cfg, viewingWindow, v[3 * i], v[3 * i + 1], v[3 * i + 2], d.color.value[d.nColors * i])
  }

  /** Point `i` depends only on its own three coordinates and its colour entry. */
  lemma SampleIsLocal(d: PointCloudData, e: PointCloudData, cfg: PointCloudConfig, vw: bool, num: Numerics, i: int)
    requires 0 <= i && Readable(d, i + 1) && Readable(e, i + 1) && d.nColors == e.nColors
    requires d.vertex.value[3 * i .. 3 * i + 3] == e.vertex.value[3 * i .. 3 * i + 3]
    requires d.color.value[Offset(i, d.nColors)] == e.color.value[Offset(i, e.nColors)]
    ensures SampleAt(d, cfg, vw, num, i) == SampleAt(e, cfg, vw, num, i)
  {
    OffsetIsProduct(i, d.nColors);
    var dv, ev := d.vertex.value, e.vertex.value;
    var ds, es := dv[3 * i .. 3 * i + 3], ev[3 * i .. 3 * i + 3];
    assert dv[3 * i] == ds[0] == es[0] == ev[3 * i];
    assert dv[3 * i + 1] == ds[1] == es[1] == ev[3 * i + 1];
    assert dv[3 * i + 2] == ds[2] == es[2] == ev[3 * i + 2];
  }

  /** The depth offset moves z only, by exactly the offset. */
  lemma SampleOffsetMovesDepthOnly(d: PointCloudData, cfg: PointCloudConfig, vw: bool, num: Numerics, i: int, o: real)
    requires 0 <= i && Readable(d, i + 1)
    ensures var s := SampleAt(d, cfg, vw, num, i);
            var t := SampleAt(d, cfg.(offsetDepth := o), vw, num, i);
            t.pc.x == s.pc.x && t.pc.y == s.pc.y && t.amplitude == s.amplitude &&
            t.pc.z - s.pc.z == o - cfg.offsetDepth
  {
  }

  /** The points `0 .. n-1` in loop order. */
  function Samples(d: PointCloudData, cfg: PointCloudConfig, viewingWindow: bool, num: Numerics, n: int): (s: seq<Sample>)
    requires Readable(d, n)
    ensures |s| == if n < 0 then 0 else n
    decreases if n < 0 then 0 else n
  {
    if n <= 0 then []
    else
      ReadablePrefix(d, n, n - 1);
      Samples(d, cfg, viewingWindow, num, n - 1) + [SampleAt(d, cfg, viewingWindow, num, n - 1)]
  }

  /** Entry `i` of the loop-order points is point `i`. */
  lemma {:induction false} SamplesAt(d: PointCloudData, cfg: PointCloudConfig, viewingWindow: bool, num: Numerics,
                                     n: int, i: int)
    requires Readable(d, n) && 0 <= i < n
    ensures Readable(d, i + 1)
    ensures Samples(d, cfg, viewingWindow, num, n)[i] == SampleAt(d, cfg, viewingWindow, num, i)
    decreases n
  {
    ReadablePrefix(d, n, i + 1);
    ReadablePrefix(d, n, n - 1);
    if i < n - 1 {
      SamplesAt(d, cfg, viewingWindow, num, n - 1, i);
    }
  }

  /** The `switch (diff_flag)` of `genCghPointCloudCPU`; a flag matching neither case contributes nothing. */
  function PointField(flag: DiffFlag, len: nat, num: Numerics, pn: IVec2, pp: Vec2, ss: Vec2, k: real,
                      wavelength: real, s: Sample): (f: seq<Complex>)
    requires pp.x != 0.0 && pp.y != 0.0
    ensures |f| == len
    ensures flag.OtherFlag? ==> f == Zeros(len)
  {
    match flag
    case PcDiffRS => RSField(len, num, pn, pp, ss, k, s.pc, s.amplitude, wavelength)
    case PcDiffFresnel => FresnelField(len, num, pn, pp, ss, k, s.pc, s.amplitude, wavelength)
    case OtherFlag(_) => Zeros(len)
  }

  /**
   * The total contribution of the points `samples` to the buffer of the
   * channel of the given `wavelength`, with sensor size `ss` and wave number `k`
   * (`genCghPointCloudCPU` passes `pn * pp` and `2 * M_PI / wavelength`).
   */
  function ChannelField(flag: DiffFlag, len: nat, num: Numerics, pn: IVec2, pp: Vec2, ss: Vec2, k: real, wavelength: real,
                        samples: seq<Sample>): (f: seq<Complex>)
    requires pp.x != 0.0 && pp.y != 0.0
    ensures |f| == len
    decreases |samples|, 1
  {
    if |samples| == 0 then Zeros(len) else WithLastSample(flag, len, num, pn, pp, ss, k, wavelength, samples)
  }

  /** The channel field of all samples but the last, plus the last sample's contribution. */
  function WithLastSample(flag: DiffFlag, len: nat, num: Numerics, pn: IVec2, pp: Vec2, ss: Vec2, k: real,
                          wavelength: real, samples: seq<Sample>): (f: seq<Complex>)
    requires pp.x != 0.0 && pp.y != 0.0 && |samples| > 0
    ensures |f| == len
    decreases |samples|, 0
  {
    AddField(ChannelField(flag, len, num, pn, pp, ss, k, wavelength, samples[..|samples| - 1]),
             PointField(flag, len, num, pn, pp, ss, k, wavelength, samples[|samples| - 1]))
  }

  // ---------------------------------------------------------------------------
  // Accumulating many points

  /** What one point contributes to a buffer. */
  type SampleField = Sample -> seq<Complex>

  ghost predicate SameLength(len: nat, field: SampleField)
  {
    forall p :: |field(p)| == len
  }

  /** The buffer contribution of the points `ps`, added in the order of the loop. */
  function FieldSum(len: nat, ps: seq<Sample>, field: SampleField): (r: seq<Complex>)
    requires SameLength(len, field)
    ensures |r| == len
    decreases |ps|
  {
    if ps == [] then Zeros(len)
    else AddField(FieldSum(len, ps[..|ps| - 1], field), field(ps[|ps| - 1]))
  }

  /** Taking any one point out and adding it last gives the same sum. */
  lemma {:induction false} FieldSumRemove(len: nat, ps: seq<Sample>, j: int, field: SampleField)
    requires SameLength(len, field)
    requires 0 <= j < |ps|
    ensures FieldSum(len, ps, field) == AddField(FieldSum(len, ps[..j] + ps[j + 1..], field), field(ps[j]))
    decreases |ps|
  {
    var n := |ps|;
    var rest := ps[..j] + ps[j + 1..];
    if j == n - 1 {
      assert rest == ps[..n - 1];
    } else {
      var init := ps[..n - 1];
      var initRest := init[..j] + init[j + 1..];
      FieldSumRemove(len, init, j, field);
      assert rest[..|rest| - 1] == initRest;
      assert rest[|rest| - 1] == ps[n - 1];
      var a := FieldSum(len, initRest, field);
      AddFieldAssociates(a, field(ps[j]), field(ps[n - 1]));
      AddFieldCommutes(field(ps[j]), field(ps[n - 1]));
      AddFieldAssociates(a, field(ps[n - 1]), field(ps[j]));
    }
  }

  /** Removing the element at `j` removes one occurrence of it from the multiset. */
  lemma MultisetRemoveAt(qs: seq<Sample>, j: int)
    requires 0 <= j < |qs|
    ensures multiset(qs[..j] + qs[j + 1..]) == multiset(qs) - multiset{qs[j]}
  {
    assert qs == qs[..j] + [qs[j]] + qs[j + 1..];
    assert multiset(qs) == multiset(qs[..j]) + multiset{qs[j]} + multiset(qs[j + 1..]);
  }

  /** The accumulated buffer does not depend on the order of the points. */
  lemma {:induction false} FieldSumPermutation(len: nat, ps: seq<Sample>, qs: seq<Sample>, field: SampleField)
    requires SameLength(len, field)
    requires multiset(ps) == multiset(qs)
    ensures FieldSum(len, ps, field) == FieldSum(len, qs, field)
    decreases |ps|
  {
    if ps != [] {
      var n := |ps|;
      var last := ps[n - 1];
      assert ps == ps[..n - 1] + [last];
      assert last in multiset(qs);
      var j :| 0 <= j < |qs| && qs[j] == last;
      var qrest := qs[..j] + qs[j + 1..];
      MultisetRemoveAt(qs, j);
      MultisetRemoveAt(ps, n - 1);
      assert ps[..n - 1] + ps[n..] == ps[..n - 1];
      FieldSumPermutation(len, ps[..n - 1], qrest, field);
      FieldSumRemove(len, qs, j, field);
    } else {
      assert |qs| == |multiset(qs)| == 0;
    }
  }

  /**
   * Splitting the points into two groups (two threads, say) and adding the
   * groups' sums gives the sum of all points.
   */
  lemma {:induction false} FieldSumSplit(len: nat, ps: seq<Sample>, qs: seq<Sample>, field: SampleField)
    requires SameLength(len, field)
    ensures FieldSum(len, ps + qs, field) == AddField(FieldSum(len, ps, field), FieldSum(len, qs, field))
    decreases |qs|
  {
    if qs == [] {
      assert ps + qs == ps;
      AddFieldZeros(FieldSum(len, ps, field));
    } else {
      var m := |qs|;
      assert (ps + qs)[..|ps + qs| - 1] == ps + qs[..m - 1];
      assert (ps + qs)[|ps + qs| - 1] == qs[m - 1];
      FieldSumSplit(len, ps, qs[..m - 1], field);
      AddFieldAssociates(FieldSum(len, ps, field), FieldSum(len, qs[..m - 1], field), field(qs[m - 1]));
    }
  }

  /** The channel field is the generic sum of the per-point contributions. */
  lemma {:induction false} ChannelFieldIsFieldSum(flag: DiffFlag, len: nat, num: Numerics, pn: IVec2, pp: Vec2,
                                                  ss: Vec2, k: real, wavelength: real, samples: seq<Sample>)
    requires pp.x != 0.0 && pp.y != 0.0
    ensures SameLength(len, (s: Sample) => PointField(flag, len, num, pn, pp, ss, k, wavelength, s))
    ensures ChannelField(flag, len, num, pn, pp, ss, k, wavelength, samples) ==
            FieldSum(len, samples, s => PointField(flag, len, num, pn, pp, ss, k, wavelength, s))
    decreases |samples|
  {
    if |samples| > 0 {
      ChannelFieldIsFieldSum(flag, len, num, pn, pp, ss, k, wavelength, samples[..|samples| - 1]);
      assert ChannelField(flag, len, num, pn, pp, ss, k, wavelength, samples) ==
             WithLastSample(flag, len, num, pn, pp, ss, k, wavelength, samples);
    }
  }

  /** `h` is the buffer `h0` with the channel field of `samples` added. */
  predicate ChannelAdded(h: seq<Complex>, h0: seq<Complex>, flag: DiffFlag, len: nat, num: Numerics, pn: IVec2,
                         pp: Vec2, ss: Vec2, k: real, wavelength: real, samples: seq<Sample>)
    requires pp.x != 0.0 && pp.y != 0.0 && |h0| == len
  {
    h == AddField(h0, ChannelField(flag, len, num, pn, pp, ss, k, wavelength, samples))
  }

  /** The channel buffer does not depend on the order in which the points are processed. */
  lemma ChannelFieldOrderFree(flag: DiffFlag, len: nat, num: Numerics, pn: IVec2, pp: Vec2, ss: Vec2, k: real, wavelength: real,
                              samples: seq<Sample>, reordered: seq<Sample>)
    requires pp.x != 0.0 && pp.y != 0.0
    requires multiset(samples) == multiset(reordered)
    ensures ChannelField(flag, len, num, pn, pp, ss, k, wavelength, samples) == ChannelField(flag, len, num, pn, pp, ss, k, wavelength, reordered)
  {
    ChannelFieldIsFieldSum(flag, len, num, pn, pp, ss, k, wavelength, samples);
    ChannelFieldIsFieldSum(flag, len, num, pn, pp, ss, k, wavelength, reordered);
    FieldSumPermutation(len, samples, reordered,
      s => PointField(flag, len, num, pn, pp, ss, k, wavelength, s));
  }

  /**
   * Points split between two workers: the sum of the two workers' buffers is
   * the buffer of all points.
   */
  lemma ChannelFieldSplits(flag: DiffFlag, len: nat, num: Numerics, pn: IVec2, pp: Vec2, ss: Vec2, k: real, wavelength: real,
                           first: seq<Sample>, second: seq<Sample>)
    requires pp.x != 0.0 && pp.y != 0.0
    ensures ChannelField(flag, len, num, pn, pp, ss, k, wavelength, first + second) ==
            AddField(ChannelField(flag, len, num, pn, pp, ss, k, wavelength, first), ChannelField(flag, len, num, pn, pp, ss, k, wavelength, second))
  {
    ChannelFieldIsFieldSum(flag, len, num, pn, pp, ss, k, wavelength, first + second);
    ChannelFieldIsFieldSum(flag, len, num, pn, pp, ss, k, wavelength, first);
    ChannelFieldIsFieldSum(flag, len, num, pn, pp, ss, k, wavelength, second);
    FieldSumSplit(len, first, second,
      s => PointField(flag, len, num, pn, pp, ss, k, wavelength, s));
  }

  /** Processing point `i` adds its contribution to the buffer of the points before it. */
  lemma ChannelFieldStep(flag: DiffFlag, len: nat, num: Numerics, pn: IVec2, pp: Vec2, ss: Vec2, k: real, wavelength: real,
                         d: PointCloudData, cfg: PointCloudConfig, viewingWindow: bool, i: int)
    requires pp.x != 0.0 && pp.y != 0.0
    requires 0 <= i && Readable(d, i + 1)
    ensures Readable(d, i)
    ensures ChannelField(flag, len, num, pn, pp, ss, k, wavelength, Samples(d, cfg, viewingWindow, num, i + 1)) ==
            AddField(ChannelField(flag, len, num, pn, pp, ss, k, wavelength, Samples(d, cfg, viewingWindow, num, i)),
                     PointField(flag, len, num, pn, pp, ss, k, wavelength,
                                SampleAt(d, cfg, viewingWindow, num, i)))
  {
    ReadablePrefix(d, i + 1, i);
    var ps := Samples(d, cfg, viewingWindow, num, i + 1);
    assert ps[..|ps| - 1] == Samples(d, cfg, viewingWindow, num, i);
    assert ChannelField(flag, len, num, pn, pp, ss, k, wavelength, ps) == WithLastSample(flag, len, num, pn, pp, ss, k, wavelength, ps);
  }

  /**
   * A buffer that held `h0`, after points `0 .. n-1` have been added to it one
   * by one in the order of the points loop of `genCghPointCloudCPU`.
   */
  function Accumulated(flag: DiffFlag, len: nat, num: Numerics, pn: IVec2, pp: Vec2, ss: Vec2, k: real, wavelength: real,
                       d: PointCloudData, cfg: PointCloudConfig, viewingWindow: bool, h0: seq<Complex>,
                       n: int): (h: seq<Complex>)
    requires pp.x != 0.0 && pp.y != 0.0
    requires Readable(d, n) && |h0| == len
    ensures |h| == len
    decreases if n < 0 then 0 else n, 0
  {
    if n <= 0 then h0
    else
      ReadablePrefix(d, n, n - 1);
      WithPoint(flag, len, num, pn, pp, ss, k, wavelength, d, cfg, viewingWindow, h0, n - 1)
  }

  /** The same buffer once points `0 .. i-1` and then point `i` have been added. */
  function WithPoint(flag: DiffFlag, len: nat, num: Numerics, pn: IVec2, pp: Vec2, ss: Vec2, k: real, wavelength: real,
                     d: PointCloudData, cfg: PointCloudConfig, viewingWindow: bool, h0: seq<Complex>,
                     i: nat): (h: seq<Complex>)
    requires pp.x != 0.0 && pp.y != 0.0
    requires Readable(d, i + 1) && |h0| == len
    ensures |h| == len
    decreases i, 1
  {
    ReadablePrefix(d, i + 1, i);
    AddField(Accumulated(flag, len, num, pn, pp, ss, k, wavelength, d, cfg, viewingWindow, h0, i),
             PointField(flag, len, num, pn, pp, ss, k, wavelength, SampleAt(d, cfg, viewingWindow, num, i)))
  }

  /** `h` is the buffer `h0` with points `0 .. n-1` added in loop order. */
  predicate Accumulates(h: seq<Complex>, flag: DiffFlag, len: nat, num: Numerics, pn: IVec2, pp: Vec2, ss: Vec2,
                        k: real, wavelength: real, d: PointCloudData, cfg: PointCloudConfig, viewingWindow: bool,
                        h0: seq<Complex>, n: int)
    requires pp.x != 0.0 && pp.y != 0.0
    requires Readable(d, n) && |h0| == len
  {
    h == Accumulated(flag, len, num, pn, pp, ss, k, wavelength, d, cfg, viewingWindow, h0, n)
  }

  /** Adding point `i` to the buffer of the points before it gives the buffer of the points up to `i`. */
  lemma AccumulatedStep(flag: DiffFlag, len: nat, num: Numerics, pn: IVec2, pp: Vec2, ss: Vec2, k: real, wavelength: real,
                        d: PointCloudData, cfg: PointCloudConfig, viewingWindow: bool, h0: seq<Complex>, i: nat)
    requires pp.x != 0.0 && pp.y != 0.0
    requires Readable(d, i + 1) && |h0| == len
    ensures Readable(d, i)
    ensures Accumulated(flag, len, num, pn, pp, ss, k, wavelength, d, cfg, viewingWindow, h0, i + 1) ==
            AddField(Accumulated(flag, len, num, pn, pp, ss, k, wavelength, d, cfg, viewingWindow, h0, i),
                     PointField(flag, len, num, pn, pp, ss, k, wavelength, SampleAt(d, cfg, viewingWindow, num, i)))
  {
    ReadablePrefix(d, i + 1, i);
    assert Accumulated(flag, len, num, pn, pp, ss, k, wavelength, d, cfg, viewingWindow, h0, i + 1) ==
           WithPoint(flag, len, num, pn, pp, ss, k, wavelength, d, cfg, viewingWindow, h0, i);
  }

  /** Adding point `i` keeps the accumulated buffer equal to `h0` plus the channel field so far. */
  lemma AccumulatedChannelStep(flag: DiffFlag, len: nat, num: Numerics, pn: IVec2, pp: Vec2, ss: Vec2, k: real,
                               wavelength: real, d: PointCloudData, cfg: PointCloudConfig, viewingWindow: bool,
                               h0: seq<Complex>, i: nat)
    requires pp.x != 0.0 && pp.y != 0.0
    requires Readable(d, i + 1) && Readable(d, i) && |h0| == len
    requires Accumulates(AddField(h0, ChannelField(flag, len, num, pn, pp, ss, k, wavelength, Samples(d, cfg, viewingWindow, num, i))),
                         flag, len, num, pn, pp, ss, k, wavelength, d, cfg, viewingWindow, h0, i)
    ensures Accumulates(AddField(h0, ChannelField(flag, len, num, pn, pp, ss, k, wavelength, Samples(d, cfg, viewingWindow, num, i + 1))),
                        flag, len, num, pn, pp, ss, k, wavelength, d, cfg, viewingWindow, h0, i + 1)
  {
    AccumulatedStep(flag, len, num, pn, pp, ss, k, wavelength, d, cfg, viewingWindow, h0, i);
    ChannelFieldStep(flag, len, num, pn, pp, ss, k, wavelength, d, cfg, viewingWindow, i);
    AddFieldRegroup(h0, ChannelField(flag, len, num, pn, pp, ss, k, wavelength, Samples(d, cfg, viewingWindow, num, i)),
                    PointField(flag, len, num, pn, pp, ss, k, wavelength, SampleAt(d, cfg, viewingWindow, num, i)),
                    Accumulated(flag, len, num, pn, pp, ss, k, wavelength, d, cfg, viewingWindow, h0, i),
                    Accumulated(flag, len, num, pn, pp, ss, k, wavelength, d, cfg, viewingWindow, h0, i + 1),
                    ChannelField(flag, len, num, pn, pp, ss, k, wavelength, Samples(d, cfg, viewingWindow, num, i + 1)));
  }

  /** Adding the points one by one adds the channel field of the loop-order points. */
  lemma {:induction false} AccumulatedIsChannelField(flag: DiffFlag, len: nat, num: Numerics, pn: IVec2, pp: Vec2,
                                                     ss: Vec2, k: real, wavelength: real, d: PointCloudData,
                                                     cfg: PointCloudConfig, viewingWindow: bool, h0: seq<Complex>, n: int)
    requires pp.x != 0.0 && pp.y != 0.0
    requires Readable(d, n) && |h0| == len
    ensures Accumulates(AddField(h0, ChannelField(flag, len, num, pn, pp, ss, k, wavelength, Samples(d, cfg, viewingWindow, num, n))),
                        flag, len, num, pn, pp, ss, k, wavelength, d, cfg, viewingWindow, h0, n)
    decreases if n < 0 then 0 else n
  {
    if n <= 0 {
      AddFieldZeros(h0);
    } else {
      ReadablePrefix(d, n, n - 1);
      AccumulatedIsChannelField(flag, len, num, pn, pp, ss, k, wavelength, d, cfg, viewingWindow, h0, n - 1);
      AccumulatedChannelStep(flag, len, num, pn, pp, ss, k, wavelength, d, cfg, viewingWindow, h0, n - 1);
    }
  }



  /** A flag matching neither case leaves the buffer untouched, whatever the points. */
  lemma {:induction false} OtherFlagContributesNothing(code: nat, len: nat, num: Numerics, pn: IVec2, pp: Vec2, ss: Vec2, k: real, wavelength: real,
                                   samples: seq<Sample>)
    requires pp.x != 0.0 && pp.y != 0.0
    ensures ChannelField(OtherFlag(code), len, num, pn, pp, ss, k, wavelength, samples) == Zeros(len)
    decreases |samples|
  {
    if samples != [] {
      OtherFlagContributesNothing(code, len, num, pn, pp, ss, k, wavelength, samples[..|samples| - 1]);
      assert ChannelField(OtherFlag(code), len, num, pn, pp, ss, k, wavelength, samples) ==
             WithLastSample(OtherFlag(code), len, num, pn, pp, ss, k, wavelength, samples);
      AddFieldZeros(Zeros(len));
    }
  }
}
