/**
 * `ophPointCloud`: the per-channel complex buffers `complex_H` and the loops
 * that fill them point by point, the encoded accumulation into
 * `holo_encoded`, the viewing-window remap, and single-side-band encoding.
 */
module PointCloud {
  import opened Numeric
  import opened Field
  import opened Gen
  import opened Culling
  import opened Kernels
  import opened Encoding
  import opened Scan

  /** Every slot of a `pnX * pnY` frame is the slot of pixel `(i % pnX, i / pnX)`. */
  lemma AllSlotsDecode(pnX: int, pnY: int)
    requires 0 <= pnX && 0 <= pnY
    ensures forall i :: 0 <= i < pnX * pnY ==>
              0 <= i % pnX < pnX && 0 <= i / pnX < pnY && PixelIndex(i % pnX, i / pnX, pnX) == i
  {
    forall i | 0 <= i < pnX * pnY
      ensures 0 <= i % pnX < pnX && 0 <= i / pnX < pnY && PixelIndex(i % pnX, i / pnX, pnX) == i
    {
      SlotDecode(i, pnX, pnY);
    }
  }

  /**
   * The body of the pixel loop of `diffractNotEncodedRS`: pixel `(xxtr, yytr)` of
   * the window gets the RS term when it passes the cone test, which is the
   * next step of the column-major scan.
   */
  method AddRSPixel(num: Numerics, h: array<Complex>, pn: IVec2, pp: Vec2, ss: Vec2, pc: Vec3, k: real,
                    amplitude: real, wavelength: real, tx: real, ty: real, w: Window, xxtr: int, yytr: int,
                    ghost h0: seq<Complex>, ghost f: seq<Complex>)
    requires pp.x != 0.0 && pp.y != 0.0 && 0 <= pn.x && 0 <= pn.y && pn.x * pn.y <= h.Length
    requires tx == MaxSine(wavelength, pp.x) && ty == MaxSine(wavelength, pp.y)
    requires w == RSWindow(num, pn, pp, ss, pc, wavelength) && InWindow(w, xxtr, yytr)
    requires |h0| == h.Length && f == RSField(h.Length, num, pn, pp, ss, k, pc, amplitude, wavelength)
    requires h[..] == Partial(h0, f, pn.x, pn.y, w, ColumnMajor, xxtr, yytr)
    modifies h
    ensures h[..] == Partial(h0, f, pn.x, pn.y, w, ColumnMajor, xxtr, yytr + 1)
  {
    var xxx := PixelX(ss, pp, xxtr);
    var yyy := PixelY(pn, ss, pp, yytr);
    var idx := xxtr + yytr * pn.x;
    PartialStep(h0, f, pn.x, pn.y, w, ColumnMajor, xxtr, yytr);
    RSFieldAt(h.Length, num, pn, pp, ss, k, pc, amplitude, wavelength, xxtr, yytr);
    if RSCone(num, pc, tx, ty, xxx, yyy) {
      h[idx] := Add(h[idx], num.rsTerm(pc, k, amplitude, wavelength, xxx, yyy));
    }
  }

  /**
   * One row of `diffractEncodedRS`: every pixel of row
   * `yytr` gets its real term, which extends the done prefix of the buffer
   * by one row.
   */
  method AddEncodedRow(num: Numerics, e: array<real>, pn: IVec2, pp: Vec2, ss: Vec2, pc: Vec3, k: real,
                       amplitude: real, theta: Vec2, yytr: int, ghost rowStart: int,
                       ghost e0: seq<real>, ghost f: seq<real>)
    requires 0 <= pn.x && rowStart == yytr * pn.x && |e0| == e.Length && |f| == e.Length
    requires RowHolds(f, num, pn, pp, ss, pc, k, amplitude, theta, yytr, rowStart)
    requires forall i :: 0 <= i < e.Length ==> e[i] == if i < rowStart then e0[i] + f[i] else e0[i]
    modifies e
    ensures forall i :: 0 <= i < e.Length ==> e[i] == if i < rowStart + pn.x then e0[i] + f[i] else e0[i]
  {
    var xxtr := 0;
    while xxtr < pn.x
      invariant 0 <= xxtr <= pn.x
      invariant forall i :: 0 <= i < e.Length ==> e[i] == if i < rowStart + xxtr then e0[i] + f[i] else e0[i]
    {
      var res := EncodedRSTerm(num, pp, ss, pc, k, amplitude, theta, xxtr, yytr);
      e[xxtr + yytr * pn.x] := e[xxtr + yytr * pn.x] + res;
      xxtr := xxtr + 1;
    }
  }

  /**
   * The row loop of `diffractEncodedRS`: after it, the rows
   * of the frame hold their terms added, and every slot past the frame is as
   * it was.
   */
  method AddEncodedRows(num: Numerics, e: array<real>, pn: IVec2, pp: Vec2, ss: Vec2, pc: Vec3, k: real,
                        amplitude: real, theta: Vec2, ghost f: seq<real>)
    requires 0 <= pn.x && 0 <= pn.y && |f| == e.Length
    requires forall y: nat :: y < pn.y ==>
               RowHolds(f, num, pn, pp, ss, pc, k, amplitude, theta, y, Offset(y, pn.x))
    modifies e
    ensures forall i :: 0 <= i < e.Length ==>
              e[i] == if i < Offset(pn.y, pn.x) then old(e[i]) + f[i] else old(e[i])
  {
    ghost var e0 := e[..];
    ghost var rowStart := 0;
    var yytr := 0;
    while yytr < pn.y
      invariant 0 <= yytr <= pn.y && rowStart == Offset(yytr, pn.x)
      invariant forall i :: 0 <= i < e.Length ==> e[i] == if i < rowStart then e0[i] + f[i] else e0[i]
    {
      OffsetIsProduct(yytr, pn.x);
      AddEncodedRow(num, e, pn, pp, ss, pc, k, amplitude, theta, yytr, rowStart, e0, f);
      rowStart := rowStart + pn.x;
      yytr := yytr + 1;
    }
  }

  class PointCloud {
    /** The inherited `ophGen` state. */
    const gen: Generator
    /** `complex_H[channel]`; a null entry is a channel not yet allocated. */
    var complexH: seq<array?<Complex>>
    /** `pc_data_` */
    var data: PointCloudData
    /** `pc_config_` */
    var config: PointCloudConfig
    /** `n_points`, -1 when loading failed */
    var nPoints: int
    /** `is_ViewingWindow` */
    var isViewingWindow: bool
    /** `getFieldLens()` */
    var fieldLens: real

    constructor (gen: Generator, complexH: seq<array?<Complex>>, data: PointCloudData, config: PointCloudConfig,
                 nPoints: int, isViewingWindow: bool, fieldLens: real)
      ensures this.gen == gen && this.complexH == complexH && this.data == data && this.config == config
      ensures this.nPoints == nPoints && this.isViewingWindow == isViewingWindow && this.fieldLens == fieldLens
    {
      this.gen := gen;
      this.complexH := complexH;
      this.data := data;
      this.config := config;
      this.nPoints := nPoints;
      this.isViewingWindow := isViewingWindow;
      this.fieldLens := fieldLens;
    }

    /**
     * `transVW(nSize, dst, src)`: every one of the first `nSize` entries goes
     * through the viewing-window remap; `dst` may be `src` itself.
     */
    method TransVW(nSize: int, dst: array<real>, src: array<real>)
      requires nSize <= dst.Length && nSize <= src.Length
      requires forall i :: 0 <= i < nSize ==> src[i] != fieldLens
      modifies dst
      ensures forall i :: 0 <= i < nSize ==> dst[i] == ViewingWindow(fieldLens, old(src[i]))
      ensures forall i :: 0 <= i < dst.Length && !(i < nSize) ==> dst[i] == old(dst[i])
    {
      var f := fieldLens;
      var i := 0;
      while i < nSize
        invariant 0 <= i && (i <= nSize || i == 0)
        invariant forall j :: 0 <= j < i ==> dst[j] == ViewingWindow(f, old(src[j]))
        invariant forall j :: i <= j < src.Length ==> src[j] == old(src[j])
        invariant forall j :: i <= j < dst.Length ==> dst[j] == old(dst[j])
      {
        dst[i] := -f * src[i] / (src[i] - f);
        i := i + 1;
      }
    }

    /**
     * `diffractNotEncodedRS`: point `pc` adds the RS term to every pixel of
     * its clamped window that passes the cone test, columns outer and rows
     * inner, and leaves every other slot of the channel buffer as it was.
     */
    method DiffractNotEncodedRS(num: Numerics, channel: nat, pn: IVec2, pp: Vec2, ss: Vec2, pc: Vec3,
                                k: real, amplitude: real, wavelength: real)
      requires channel < |complexH| && complexH[channel] != null
      requires pp.x != 0.0 && pp.y != 0.0
      requires 0 <= pn.x && 0 <= pn.y && pn.x * pn.y <= complexH[channel].Length
      modifies complexH[channel]
      ensures complexH[channel][..] ==
              AddField(old(complexH[channel][..]),
                       RSField(complexH[channel].Length, num, pn, pp, ss, k, pc, amplitude, wavelength))
    {
      var h := complexH[channel];
      var tx := MaxSine(wavelength, pp.x);
      var ty := MaxSine(wavelength, pp.y);
      var w := Clamp(RawWindow(pn, pp, ss, pc, RSHalfWidth(num, wavelength, pc.z, pp.x),
                               RSHalfWidth(num, wavelength, pc.z, pp.y)), pn);
      ghost var h0 := h[..];
      ghost var f := RSField(h.Length, num, pn, pp, ss, k, pc, amplitude, wavelength);
      PartialStart(h0, f, pn.x, pn.y, w, ColumnMajor);
      var xxtr := w.xLo;
      while xxtr < w.xHi
        invariant w.xLo <= xxtr
        invariant h[..] == Partial(h0, f, pn.x, pn.y, w, ColumnMajor, xxtr, w.yLo)
      {
        var yytr := w.yLo;
        while yytr < w.yHi
          invariant w.yLo <= yytr
          invariant h[..] == Partial(h0, f, pn.x, pn.y, w, ColumnMajor, xxtr, yytr)
        {
          AddRSPixel(num, h, pn, pp, ss, pc, k, amplitude, wavelength, tx, ty, w, xxtr, yytr, h0, f);
          yytr := yytr + 1;
        }
        PartialLineEnd(h0, f, pn.x, pn.y, w, ColumnMajor, xxtr, yytr);
        xxtr := xxtr + 1;
      }
      RSFieldOutsideWindow(h.Length, num, pn, pp, ss, k, pc, amplitude, wavelength);
      PartialEnd(h0, f, pn.x, pn.y, w, ColumnMajor, xxtr, w.yLo);
    }

    /**
     * `diffractNotEncodedFrsn`: point `pc` adds the Fresnel term to every
     * pixel of its clamped window, rows outer and columns inner, with the
     * wave number and sensor size taken from the context.
     */
    method DiffractNotEncodedFrsn(num: Numerics, channel: nat, pn: IVec2, pp: Vec2, pc: Vec3,
                                  amplitude: real, wavelength: real)
      requires channel < |complexH| && complexH[channel] != null
      requires pp.x != 0.0 && pp.y != 0.0
      requires 0 <= pn.x && 0 <= pn.y && pn.x * pn.y <= complexH[channel].Length
      modifies complexH[channel]
      ensures complexH[channel][..] ==
              AddField(old(complexH[channel][..]),
                       FresnelField(complexH[channel].Length, num, pn, pp, gen.context.ss, gen.context.k, pc,
                                    amplitude, wavelength))
    {
      var h := complexH[channel];
      var k := gen.context.k;
      var ss := gen.context.ss;
      var w := Clamp(RawWindow(pn, pp, ss, pc, FresnelHalfWidth(wavelength, pc.z, pp.x),
                               FresnelHalfWidth(wavelength, pc.z, pp.y)), pn);
      ghost var h0 := h[..];
      ghost var f := FresnelField(h.Length, num, pn, pp, ss, k, pc, amplitude, wavelength);
      PartialStart(h0, f, pn.x, pn.y, w, RowMajor);
      var yytr := w.yLo;
      while yytr < w.yHi
        invariant w.yLo <= yytr
        invariant h[..] == Partial(h0, f, pn.x, pn.y, w, RowMajor, w.xLo, yytr)
      {
        var xxtr := w.xLo;
        while xxtr < w.xHi
          invariant w.xLo <= xxtr
          invariant h[..] == Partial(h0, f, pn.x, pn.y, w, RowMajor, xxtr, yytr)
        {
          FresnelWindowNonEmpty(pn, pp, ss, pc, wavelength, xxtr, yytr);
          var res := FresnelTerm(num, pn, pp, ss, k, pc, amplitude, wavelength, xxtr, yytr);
          var idx := xxtr + yytr * pn.x;
          PartialStep(h0, f, pn.x, pn.y, w, RowMajor, xxtr, yytr);
          FresnelFieldAt(h.Length, num, pn, pp, ss, k, pc, amplitude, wavelength, xxtr, yytr);
          h[idx] := Add(h[idx], res);
          xxtr := xxtr + 1;
        }
        PartialLineEnd(h0, f, pn.x, pn.y, w, RowMajor, xxtr, yytr);
        yytr := yytr + 1;
      }
      FresnelFieldOutsideWindow(h.Length, num, pn, pp, ss, k, pc, amplitude, wavelength);
      PartialEnd(h0, f, pn.x, pn.y, w, RowMajor, w.xLo, yytr);
    }

    /**
     * `diffractEncodedRS`: point `pc` adds its real term to every pixel of
     * the frame of `holo_encoded`, rows outer and columns inner.
     */
    method DiffractEncodedRS(num: Numerics, pn: IVec2, pp: Vec2, ss: Vec2, pc: Vec3, k: real, amplitude: real,
                             theta: Vec2)
      requires 0 <= pn.x && 0 <= pn.y && pn.x * pn.y <= gen.holoEncoded.Length
      modifies gen.holoEncoded
      ensures gen.holoEncoded[..] ==
              AddReal(old(gen.holoEncoded[..]),
                      EncodedRSField(gen.holoEncoded.Length, num, pn, pp, ss, pc, k, amplitude, theta))
    {
      var e := gen.holoEncoded;
      ghost var f := EncodedRSField(e.Length, num, pn, pp, ss, pc, k, amplitude, theta);
      EncodedRSFieldRows(e.Length, num, pn, pp, ss, pc, k, amplitude, theta);
      AddEncodedRows(num, e, pn, pp, ss, pc, k, amplitude, theta, f);
      OffsetIsProduct(pn.y, pn.x);
      EncodedRSFieldPastFrame(e.Length, num, pn, pp, ss, pc, k, amplitude, theta);
    }

    /**
     * The first `n` channel buffers are allocated, hold at least `len` slots
     * each, and are distinct from every other channel buffer.
     */
    predicate ChannelsReady(n: int, len: int)
      reads this
    {
      n <= |complexH| &&
      (forall c :: 0 <= c < n ==> complexH[c] != null && len <= complexH[c].Length) &&
      (forall c, d :: 0 <= c < n && 0 <= d < |complexH| && c != d ==> complexH[c] != complexH[d])
    }

    /**
     * Point `i` as the points loop of `genCghPointCloudCPU` reads it: coordinates `vertex[3i .. 3i+2]`,
     * remapped when the viewing window is on, scaled, the depth offset added;
     * amplitude `color[n_colors * i]`.
     */
    method ReadPoint(num: Numerics, i: int) returns (pc: Vec3, amplitude: real)
      requires 0 <= i && Readable(data, i + 1)
      ensures Sample(pc, amplitude) == SampleAt(data, config, isViewingWindow, num, i)
    {
      var v := data.vertex.value;
      var idx := 3 * i;
      OffsetIsProduct(i, data.nColors);
      var colorIdx := data.nColors * i;
      var pcx := if isViewingWindow then num.transVW(v[idx]) else v[idx];
      var pcy := if isViewingWindow then num.transVW(v[idx + 1]) else v[idx + 1];
      var pcz := if isViewingWindow then num.transVW(v[idx + 2]) else v[idx + 2];
      pcx := pcx * config.scale.x;
      pcy := pcy * config.scale.y;
      pcz := pcz * config.scale.z;
      pcz := pcz + config.offsetDepth;
      amplitude := data.color.value[colorIdx];
      pc := Vec3(pcx, pcy, pcz);
    }

    /** The `switch (diff_flag)` of `genCghPointCloudCPU`: one point added to one channel. */
    method AddPoint(num: Numerics, flag: DiffFlag, channel: nat, pn: IVec2, pp: Vec2, ss: Vec2, k: real,
                    wavelength: real, pc: Vec3, amplitude: real)
      requires pp.x != 0.0 && pp.y != 0.0
      requires 0 <= pn.x && 0 <= pn.y
      requires channel < |complexH| && complexH[channel] != null && pn.x * pn.y <= complexH[channel].Length
      requires gen.context.ss == ss && gen.context.k == k
      modifies complexH[channel]
      ensures complexH[channel][..] ==
              AddField(old(complexH[channel][..]),
                       PointField(flag, complexH[channel].Length, num, pn, pp, ss, k, wavelength, Sample(pc, amplitude)))
    {
      match flag {
        case PcDiffRS =>
          DiffractNotEncodedRS(num, channel, pn, pp, ss, pc, k, amplitude, wavelength);
        case PcDiffFresnel =>
          DiffractNotEncodedFrsn(num, channel, pn, pp, pc, amplitude, wavelength);
        case OtherFlag(_) =>
          AddFieldZeros(complexH[channel][..]);
      }
    }

    /**
     * What the points loop of one channel relies on: the channel's buffer
     * covers the frame, and the context holds the sensor size and the wave
     * number of the channel's wavelength.
     */
    predicate ChannelSetUp(channel: nat, pn: IVec2, pp: Vec2, ss: Vec2, k: real, wavelength: real)
      reads this, gen
    {
      pp.x != 0.0 && pp.y != 0.0 && 0 <= pn.x && 0 <= pn.y &&
      channel < |complexH| && complexH[channel] != null && Offset(pn.y, pn.x) <= complexH[channel].Length &&
      gen.context.ss == ss && gen.context.k == k
    }

    /** One iteration of the points loop: point `i` is read and added to the channel's buffer. */
    method AccumulatePoint(num: Numerics, flag: DiffFlag, channel: nat, pn: IVec2, pp: Vec2, ss: Vec2,
                           k: real, wavelength: real, i: int, h: array<Complex>, ghost h0: seq<Complex>,
                           ghost n: int, ghost d: PointCloudData, ghost cfg: PointCloudConfig, ghost vw: bool)
      requires ChannelSetUp(channel, pn, pp, ss, k, wavelength) && h == complexH[channel]
      requires d == data && cfg == config && vw == isViewingWindow
      requires 0 <= i < nPoints == n && Readable(d, n) && |h0| == h.Length
      requires (ReadablePrefix(d, n, i);
                Accumulates(h[..], flag, h.Length, num, pn, pp, ss, k, wavelength, d, cfg, vw, h0, i))
      modifies h
      ensures (ReadablePrefix(d, n, i + 1);
               Accumulates(h[..], flag, h.Length, num, pn, pp, ss, k, wavelength, d, cfg, vw, h0, i + 1))
    {
      ReadablePrefix(d, n, i + 1);
      var pc, amplitude := ReadPoint(num, i);
      OffsetIsProduct(pn.y, pn.x);
      AddPoint(num, flag, channel, pn, pp, ss, k, wavelength, pc, amplitude);
      AccumulatedStep(flag, h.Length, num, pn, pp, ss, k, wavelength, d, cfg, vw, h0, i);
    }

    /**
     * The points loop of `genCghPointCloudCPU` for one channel: the buffer
     * receives the contributions of points `0 .. n_points-1`, one after the
     * other.
     */
    method AccumulatePoints(num: Numerics, flag: DiffFlag, channel: nat, pn: IVec2, pp: Vec2, ss: Vec2,
                            k: real, wavelength: real, h: array<Complex>, ghost n: int,
                            ghost d: PointCloudData, ghost cfg: PointCloudConfig, ghost vw: bool)
      requires ChannelSetUp(channel, pn, pp, ss, k, wavelength) && h == complexH[channel]
      requires d == data && cfg == config && vw == isViewingWindow
      requires n == (if nPoints < 0 then 0 else nPoints) && Readable(d, n)
      modifies h
      ensures Accumulates(h[..], flag, h.Length, num, pn, pp, ss, k, wavelength, d, cfg, vw, old(h[..]), n)
    {
      ghost var h0 := h[..];
      var i := 0;
      while i < nPoints
        invariant 0 <= i <= n
        invariant (ReadablePrefix(d, n, i);
                   Accumulates(h[..], flag, h.Length, num, pn, pp, ss, k, wavelength, d, cfg, vw, h0, i))
      {
        AccumulatePoint(num, flag, channel, pn, pp, ss, k, wavelength, i, h, h0, n, d, cfg, vw);
        i := i + 1;
      }
      assert i == n && h0 == old(h[..]);
    }

    /**
     * The points loop of one channel, stated as the channel field of the
     * loop-order points.
     */
    method AccumulateChannel(num: Numerics, flag: DiffFlag, channel: nat, pn: IVec2, pp: Vec2, ss: Vec2,
                             k: real, wavelength: real)
      requires ChannelSetUp(channel, pn, pp, ss, k, wavelength)
      requires Readable(data, nPoints)
      modifies complexH[channel]
      ensures ChannelAdded(complexH[channel][..], old(complexH[channel][..]), flag, complexH[channel].Length,
                           num, pn, pp, ss, k, wavelength, Samples(data, config, isViewingWindow, num, nPoints))
    {
      ghost var n := if nPoints < 0 then 0 else nPoints;
      AccumulatePoints(num, flag, channel, pn, pp, ss, k, wavelength, complexH[channel], n, data, config, isViewingWindow);
      AccumulatedIsChannelField(flag, complexH[channel].Length, num, pn, pp, ss, k, wavelength,
                                data, config, isViewingWindow, old(complexH[channel][..]), n);
      assert Samples(data, config, isViewingWindow, num, n) == Samples(data, config, isViewingWindow, num, nPoints);
    }

    /**
     * One pass of the channel loop of `genCghPointCloudCPU`: sets
     * `k = 2 * M_PI / wave_length[channel]` in the context and adds every
     * point's contribution to that channel's buffer; no other buffer changes.
     */
    method GenChannel(num: Numerics, flag: DiffFlag, channel: nat, pn: IVec2, pp: Vec2, ss: Vec2)
      requires pp.x != 0.0 && pp.y != 0.0 && 0 <= pn.x && 0 <= pn.y
      requires channel < |gen.context.waveLength| && gen.context.waveLength[channel] != 0.0
      requires ChannelsReady(|gen.context.waveLength|, pn.x * pn.y) && gen.context.ss == ss
      requires Readable(data, nPoints)
      modifies gen`context, complexH[channel]
      ensures var wavelength := old(gen.context).waveLength[channel];
              gen.context == old(gen.context).(k := WaveNumber(wavelength)) &&
              ChannelAdded(complexH[channel][..], old(complexH[channel][..]), flag, complexH[channel].Length, num,
                           pn, pp, ss, WaveNumber(wavelength), wavelength, Samples(data, config, isViewingWindow, num, nPoints))
      ensures forall c :: 0 <= c < |complexH| && c != channel && complexH[c] != null ==>
                complexH[c][..] == old(complexH[c][..])
    {
      var wavelength := gen.context.waveLength[channel];
      var k := WaveNumber(wavelength);
      gen.context := gen.context.(k := k);
      OffsetIsProduct(pn.y, pn.x);
      AccumulateChannel(num, flag, channel, pn, pp, ss, k, wavelength);
    }

    /**
     * `genCghPointCloudCPU`: sets `ss = pn * pp` in the context; then for each
     * channel sets `k = 2 * M_PI / wave_length[channel]` and adds every
     * point's contribution to that channel's buffer. Channel buffers past the
     * wavelength list are left as they were.
     */
    method GenCghPointCloudCPU(num: Numerics, flag: DiffFlag)
      requires gen.context.pixelPitch.x != 0.0 && gen.context.pixelPitch.y != 0.0
      requires 0 <= gen.context.pixelNumber.x && 0 <= gen.context.pixelNumber.y
      requires forall c :: 0 <= c < |gen.context.waveLength| ==> gen.context.waveLength[c] != 0.0
      requires ChannelsReady(|gen.context.waveLength|, gen.context.pixelNumber.x * gen.context.pixelNumber.y)
      requires Readable(data, nPoints)
      modifies gen`context, complexH
      ensures var c0 := old(gen.context);
              var wl := c0.waveLength;
              gen.context == c0.(ss := SensorSize(c0.pixelNumber, c0.pixelPitch),
                                 k := if |wl| == 0 then c0.k else WaveNumber(wl[|wl| - 1]))
      ensures forall c :: 0 <= c < |gen.context.waveLength| ==>
                ChannelAdded(complexH[c][..], old(complexH[c][..]), flag, complexH[c].Length, num,
                             gen.context.pixelNumber, gen.context.pixelPitch, gen.context.ss,
                             WaveNumber(gen.context.waveLength[c]), gen.context.waveLength[c],
                             Samples(data, config, isViewingWindow, num, nPoints))
      ensures forall c :: |gen.context.waveLength| <= c < |complexH| && complexH[c] != null ==>
                complexH[c][..] == old(complexH[c][..])
    {
      var pn := gen.context.pixelNumber;
      var pp := gen.context.pixelPitch;
      var ss := SensorSize(pn, pp);
      gen.context := gen.context.(ss := ss);
      ghost var samples := Samples(data, config, isViewingWindow, num, nPoints);
      var wl := gen.context.waveLength;
      var channel := 0;
      while channel < |wl|
        invariant 0 <= channel <= |wl|
        invariant gen.context == old(gen.context).(ss := ss, k := if channel == 0 then old(gen.context).k
                                                                   else WaveNumber(wl[channel - 1]))
        invariant forall c :: 0 <= c < channel ==>
                    ChannelAdded(complexH[c][..], old(complexH[c][..]), flag, complexH[c].Length, num, pn, pp, ss,
                                 WaveNumber(wl[c]), wl[c], samples)
        invariant forall c :: channel <= c < |complexH| && complexH[c] != null ==>
                    complexH[c][..] == old(complexH[c][..])
      {
        GenChannel(num, flag, channel, pn, pp, ss);
        channel := channel + 1;
      }
    }

    /** `x_o`: the centre of every column. */
    method ColumnGrid(pnX: int, ss: Vec2, pp: Vec2) returns (xo: array<real>)
      requires 0 <= pnX
      ensures fresh(xo) && xo.Length == pnX
      ensures forall i :: 0 <= i < pnX ==> xo[i] == XGrid(ss, pp, i)
    {
      xo := new real[pnX];
      var i := 0;
      while i < pnX
        invariant 0 <= i <= pnX
        invariant forall j :: 0 <= j < i ==> xo[j] == XGrid(ss, pp, j)
      {
        xo[i] := (-ss.x / 2.0) + (pp.x * i as real) + (pp.x / 2.0);
        i := i + 1;
      }
    }

    /** `y_o`: every row, from the top. */
    method RowGrid(pnY: int, ss: Vec2, pp: Vec2) returns (yo: array<real>)
      requires 0 <= pnY
      ensures fresh(yo) && yo.Length == pnY
      ensures forall j :: 0 <= j < pnY ==> yo[j] == YGrid(ss, pp, j)
    {
      yo := new real[pnY];
      var i := 0;
      while i < pnY
        invariant 0 <= i <= pnY
        invariant forall j :: 0 <= j < i ==> yo[j] == YGrid(ss, pp, j)
      {
        yo[i] := (ss.y - pp.y) - (pp.y * i as real);
        i := i + 1;
      }
    }

    /** `xx_o[i] = x_o[i % pn.x]`: the column grid broadcast over the frame. */
    method BroadcastColumns(pn: IVec2, ss: Vec2, pp: Vec2, xo: array<real>) returns (xxo: array<real>)
      requires 0 <= pn.x && 0 <= pn.y && xo.Length == pn.x
      requires forall i :: 0 <= i < pn.x ==> xo[i] == XGrid(ss, pp, i)
      ensures fresh(xxo) && xxo.Length == pn.x * pn.y
      ensures forall i :: 0 <= i < pn.x * pn.y ==> xxo[i] == XGrid(ss, pp, i % pn.x)
    {
      MulNonNeg(pn.x, pn.y);
      xxo := new real[pn.x * pn.y];
      var i := 0;
      while i < pn.x * pn.y
        invariant 0 <= i <= pn.x * pn.y
        invariant forall j :: 0 <= j < i ==> xxo[j] == XGrid(ss, pp, j % pn.x)
      {
        xxo[i] := xo[i % pn.x];
        i := i + 1;
      }
    }

    /**
     * `yy_o[i + j * pn.x] = y_o[j]`, columns outer and rows inner: the row
     * grid broadcast over the frame.
     */
    method BroadcastRows(pn: IVec2, ss: Vec2, pp: Vec2, yo: array<real>) returns (yyo: array<real>)
      requires 0 <= pn.x && 0 <= pn.y && yo.Length == pn.y
      requires forall j :: 0 <= j < pn.y ==> yo[j] == YGrid(ss, pp, j)
      ensures fresh(yyo) && yyo.Length == pn.x * pn.y
      ensures forall s :: 0 <= s < pn.x * pn.y ==> yyo[s] == YGrid(ss, pp, s / pn.x)
    {
      MulNonNeg(pn.x, pn.y);
      yyo := new real[pn.x * pn.y];
      AllSlotsDecode(pn.x, pn.y);
      var i := 0;
      while i < pn.x
        invariant 0 <= i <= pn.x
        invariant forall s :: 0 <= s < pn.x * pn.y && s % pn.x < i ==> yyo[s] == YGrid(ss, pp, s / pn.x)
      {
        var j := 0;
        while j < pn.y
          invariant 0 <= j <= pn.y
          invariant forall s :: 0 <= s < pn.x * pn.y && (s % pn.x < i || (s % pn.x == i && s / pn.x < j)) ==>
                      yyo[s] == YGrid(ss, pp, s / pn.x)
        {
          PixelIndexInFrame(i, j, pn.x, pn.y);
          PixelIndexDecode(i, j, pn.x);
          yyo[i + j * pn.x] := yo[j];
          j := j + 1;
        }
        i := i + 1;
      }
    }

    /**
     * `encodeHologram`: with no field in channel 0 nothing happens. Otherwise
     * `encode_size` becomes the pixel count, the context's `ss` becomes
     * `pn * pp`, and every pixel of the frame of `holo_encoded` receives the
     * real part of the round-tripped field of channel 0 times the phase-ramp
     * correction at its grid point; slots past the frame keep their value.
     */
    method EncodeHologram(num: Numerics, bandLimit: Vec2, spectrumShift: Vec2)
      requires |complexH| >= 1
      requires complexH[0] != null ==>
                 var pn := gen.context.pixelNumber;
                 gen.context.pixelPitch.x != 0.0 && gen.context.pixelPitch.y != 0.0 &&
                 0 <= pn.x && 0 <= pn.y && pn.x * pn.y <= gen.holoEncoded.Length
      modifies gen`context, gen`encodeSize, gen.holoEncoded
      ensures gen.holoEncoded == old(gen.holoEncoded)
      ensures complexH[0] == null ==>
                gen.context == old(gen.context) && gen.encodeSize == old(gen.encodeSize) &&
                gen.holoEncoded[..] == old(gen.holoEncoded[..])
      ensures complexH[0] != null ==>
                var c0 := old(gen.context);
                var pn := c0.pixelNumber;
                var ss := SensorSize(pn, c0.pixelPitch);
                gen.encodeSize == pn && gen.context == c0.(ss := ss) &&
                (forall i :: 0 <= i < pn.x * pn.y ==>
                   gen.holoEncoded[i] == EncodedSample(num, old(complexH[0][..]), pn, c0.pixelPitch, ss, spectrumShift, i)) &&
                (forall i :: pn.x * pn.y <= i < gen.holoEncoded.Length ==> gen.holoEncoded[i] == old(gen.holoEncoded[i]))
    {
      var field := complexH[0];
      if field == null {
        return;
      }
      var pn := gen.context.pixelNumber;
      gen.encodeSize := pn;
      var pp := gen.context.pixelPitch;
      gen.context := gen.context.(ss := SensorSize(pn, pp));
      var ss := gen.context.ss;

      var xo := ColumnGrid(pn.x, ss, pp);
      var yo := RowGrid(pn.y, ss, pp);
      var xxo := BroadcastColumns(pn, ss, pp, xo);
      var yyo := BroadcastRows(pn, ss, pp, yo);

      var n := pn.x * pn.y;
      var f0 := field[..];
      var h := new Complex[n](i => num.encodeRoundTrip(f0, pn.x, pn.y, i));

      ApplyShift(num, f0, pn, ss, h, xxo, yyo, pp, spectrumShift, gen.holoEncoded);
    }

    /**
     * The final loop of `encodeHologram`: sample `i` is the real
     * part of `h[i]` times the shift factor `(cos X cos Y - sin X sin Y, 0)`
     * at grid point `(xx_o[i], yy_o[i])`.
     */
    method ApplyShift(num: Numerics, ghost field: seq<Complex>, pn: IVec2, ss: Vec2, h: array<Complex>,
                      xxo: array<real>, yyo: array<real>, pp: Vec2, shift: Vec2, e: array<real>)
      requires pp.x != 0.0 && pp.y != 0.0 && 0 <= pn.x && 0 <= pn.y
      requires h.Length == pn.x * pn.y == xxo.Length == yyo.Length <= e.Length
      requires e != xxo && e != yyo
      requires forall j :: 0 <= j < h.Length ==>
                 h[j] == num.encodeRoundTrip(field, pn.x, pn.y, j) &&
                 xxo[j] == XGrid(ss, pp, j % pn.x) && yyo[j] == YGrid(ss, pp, j / pn.x)
      modifies e
      ensures forall j :: 0 <= j < h.Length ==> e[j] == EncodedSample(num, field, pn, pp, ss, shift, j)
      ensures forall j :: h.Length <= j < e.Length ==> e[j] == old(e[j])
    {
      var i := 0;
      while i < h.Length
        invariant 0 <= i <= h.Length
        invariant forall j :: 0 <= j < i ==> e[j] == EncodedSample(num, field, pn, pp, ss, shift, j)
        invariant forall j :: h.Length <= j < e.Length ==> e[j] == old(e[j])
      {
        var shiftPhase := Complex(1.0, 0.0);
        shiftPhase := shiftPhase.(re := shiftPhase.re * ShiftFactor(num, pp, shift, xxo[i], yyo[i]));
        MulByRealFactor(h[i], shiftPhase.re);
        EncodedSampleFromGrids(num, field, pn, pp, ss, shift, i, h[i], xxo[i], yyo[i]);
        e[i] := Mul(h[i], shiftPhase).re;
        i := i + 1;
      }
    }
  }
}
