/**
 * The light-field generator (`ophLF`): the derived context fields of
 * `readLFConfig`, the view buffers allocated by `initializeLF`, and
 * `convertLF2ComplexField`, which gathers one complex image from the views
 * for every pixel position, transforms it, multiplies it by a random diffuser
 * phase and scatters it into a four-deep, mixed-radix output buffer.
 *
 * Names: `nx`, `ny` are `num_image` (the number of views on each axis), `rx`,
 * `ry` are `resolution_image` (the pixels of one view on each axis).
 */
module LightField {
  import opened Numeric
  import opened Field
  import opened Gen
  import opened Culling
  import opened Scan

  // ---------------------------------------------------------------------------
  // Derived context (the end of readLFConfig)

  /**
   * The context after the configuration has been read: the pixel count is
   * views times pixels per view on each axis, `k = 2 * M_PI / wavelength` and
   * `ss = pixel_number * pixel_pitch`. Afterwards the context is consistent,
   * and its pixel count is exactly the size of the converted field.
   */
  function DerivedContext(c: Context, numImage: IVec2, resolutionImage: IVec2): (d: Context)
    requires c.lambda != 0.0
    ensures d.pixelNumber == IVec2(numImage.x * resolutionImage.x, numImage.y * resolutionImage.y)
    ensures d.pixelPitch == c.pixelPitch && d.lambda == c.lambda && d.waveLength == c.waveLength
    ensures SizeConsistent(d) && WaveNumberConsistent(d)
    ensures d.pixelNumber.x * d.pixelNumber.y ==
            numImage.x * numImage.y * resolutionImage.x * resolutionImage.y
  {
    var pn := IVec2(numImage.x * resolutionImage.x, numImage.y * resolutionImage.y);
    assert pn.x * pn.y == numImage.x * numImage.y * resolutionImage.x * resolutionImage.y;
    c.(pixelNumber := pn, k := WaveNumber(c.lambda), ss := SensorSize(pn, c.pixelPitch))
  }

  // ---------------------------------------------------------------------------
  // The scatter index

  /** The loop counters `idxRx`, `idxRy`, `idxNx`, `idxNy` of the four-deep nest, outermost first. */
  datatype Coord = Coord(pixelX: int, pixelY: int, imageX: int, imageY: int)

  predicate InRange(nx: int, ny: int, rx: int, ry: int, p: Coord)
  {
    0 <= p.pixelX < rx && 0 <= p.pixelY < ry && 0 <= p.imageX < nx && 0 <= p.imageY < ny
  }

  /** `nx*rx*ny*idxRy + nx*rx*idxNy + nx*idxRx + idxNx`, the store index of `convertLF2ComplexField`. */
  function ScatterIndex(nx: int, ny: int, rx: int, p: Coord): int
  {
    nx * rx * ny * p.pixelY + nx * rx * p.imageY + nx * p.pixelX + p.imageX
  }

  /**
   * The digits of the index, least significant first, are `idxNx` (radix
   * `nx`), `idxRx` (radix `rx`), `idxNy` (radix `ny`) and `idxRy`.
   */
  lemma ScatterIndexNested(nx: int, ny: int, rx: int, p: Coord)
    ensures ScatterIndex(nx, ny, rx, p) ==
            PixelIndex(p.imageX, PixelIndex(p.pixelX, PixelIndex(p.imageY, p.pixelY, ny), rx), nx)
  {
    var inner := p.imageY + p.pixelY * ny;
    var mid := p.pixelX + inner * rx;
    assert mid * nx == p.pixelX * nx + inner * rx * nx;
    assert inner * rx * nx == p.imageY * rx * nx + p.pixelY * ny * rx * nx;
  }

  /** The counters read back from an output slot. */
  function Digits(nx: int, ny: int, rx: int, s: int): Coord
    requires 0 < nx && 0 < rx && 0 < ny
  {
    Coord((s / nx) % rx, s / nx / rx / ny, s % nx, (s / nx / rx) % ny)
  }

  /** Every counter tuple of the nest writes inside the `nx*ny*rx*ry` output buffer. */
  lemma ScatterIndexInBounds(nx: int, ny: int, rx: int, ry: int, p: Coord)
    requires InRange(nx, ny, rx, ry, p)
    ensures 0 <= ScatterIndex(nx, ny, rx, p) < nx * ny * rx * ry
  {
    ScatterIndexNested(nx, ny, rx, p);
    var inner := PixelIndex(p.imageY, p.pixelY, ny);
    PixelIndexInFrame(p.imageY, p.pixelY, ny, ry);
    var mid := PixelIndex(p.pixelX, inner, rx);
    PixelIndexInFrame(p.pixelX, inner, rx, ny * ry);
    PixelIndexInFrame(p.imageX, mid, nx, rx * (ny * ry));
    assert nx * (rx * (ny * ry)) == nx * ny * rx * ry;
  }

  /** The counters can be read back from the slot they write. */
  lemma ScatterIndexDecode(nx: int, ny: int, rx: int, ry: int, p: Coord)
    requires InRange(nx, ny, rx, ry, p)
    ensures Digits(nx, ny, rx, ScatterIndex(nx, ny, rx, p)) == p
  {
    ScatterIndexNested(nx, ny, rx, p);
    var inner := PixelIndex(p.imageY, p.pixelY, ny);
    MulNonNeg(p.pixelY, ny);
    var mid := PixelIndex(p.pixelX, inner, rx);
    MulNonNeg(inner, rx);
    PixelIndexDecode(p.imageX, mid, nx);
    PixelIndexDecode(p.pixelX, inner, rx);
    PixelIndexDecode(p.imageY, p.pixelY, ny);
  }

  /** Two different counter tuples never write the same slot. */
  lemma ScatterIndexInjective(nx: int, ny: int, rx: int, ry: int, p: Coord, q: Coord)
    requires InRange(nx, ny, rx, ry, p) && InRange(nx, ny, rx, ry, q)
    requires ScatterIndex(nx, ny, rx, p) == ScatterIndex(nx, ny, rx, q)
    ensures p == q
  {
    ScatterIndexDecode(nx, ny, rx, ry, p);
    ScatterIndexDecode(nx, ny, rx, ry, q);
  }

  /**
   * Every slot of the output buffer is written by some counter tuple of the
   * nest: together with injectivity, each slot is written exactly once.
   */
  lemma DigitsInRange(nx: int, ny: int, rx: int, ry: int, s: int)
    requires 0 <= nx && 0 <= ny && 0 <= rx && 0 <= ry
    requires 0 <= s < nx * ny * rx * ry
    ensures 0 < nx && 0 < ny && 0 < rx && 0 < ry
    ensures InRange(nx, ny, rx, ry, Digits(nx, ny, rx, s))
    ensures ScatterIndex(nx, ny, rx, Digits(nx, ny, rx, s)) == s
  {
    if nx == 0 || ny == 0 || rx == 0 || ry == 0 {
      assert false;
    }
    MulNonNeg(ny, ry);
    MulNonNeg(rx, ny * ry);
    assert nx * ny * rx * ry == nx * (rx * (ny * ry));
    SlotDecode(s, nx, rx * (ny * ry));
    SlotDecode(s / nx, rx, ny * ry);
    SlotDecode(s / nx / rx, ny, ry);
    ScatterIndexNested(nx, ny, rx, Digits(nx, ny, rx, s));
  }

  // ---------------------------------------------------------------------------
  // Gather, transform, diffuser phase

  /** Views `0 .. n-1` exist and view `v` has a sample at position `v`. */
  predicate DiagonalReadable(views: seq<seq<byte>>, n: int)
  {
    n <= |views| && forall v :: 0 <= v < n ==> v < |views[v]|
  }

  /**
   * With the buffers `initializeLF` allocates, the gather stays inside the
   * views exactly when there are no more views than pixels per view.
   */
  lemma GatherInBoundsIff(views: seq<seq<byte>>, nx: int, ny: int, rx: int, ry: int)
    requires 0 <= nx * ny && 0 <= rx * ry
    requires |views| == nx * ny && forall v :: 0 <= v < |views| ==> |views[v]| == rx * ry
    ensures DiagonalReadable(views, nx * ny) <==> nx * ny <= rx * ry
  {
    if rx * ry < nx * ny {
      var v := nx * ny - 1;
      assert !(v < |views[v]|);
    }
  }

  /** Every imaginary part is zero and every slot from `n` on is entirely zero. */
  predicate ScratchClean(s: seq<Complex>, n: int)
  {
    forall v :: 0 <= v < |s| ==> s[v].im == 0.0 && (n <= v ==> s[v] == Zero)
  }

  /**
   * The scratch image after a gather: slot `v = idxNx + nx*idxNy` holds the
   * grey level at position `v` of view `v`, whatever pixel position the
   * iteration is for.
   */
  function Gathered(views: seq<seq<byte>>, n: int, len: int): (g: seq<Complex>)
    requires 0 <= n <= len && DiagonalReadable(views, n)
    ensures |g| == len && ScratchClean(g, n)
    ensures forall v :: 0 <= v < n ==> g[v] == Complex(views[v][v] as real, 0.0)
  {
    seq(len, v requires 0 <= v < len => if v < n then Complex(views[v][v] as real, 0.0) else Zero)
  }

  /** The scratch buffer part-way through the gather loops, `idxNx` outer and `idxNy` inner. */
  function GatherPartial(h0: seq<Complex>, g: seq<Complex>, nx: int, ny: int, cx: int, cy: int): (p: seq<Complex>)
    requires |h0| == |g|
    ensures |p| == |h0|
  {
    seq(|h0|, i requires 0 <= i < |h0| =>
      if i < nx * ny && Visited(ColumnMajor, Window(0, nx, 0, ny), i % nx, i / nx, cx, cy) then g[i] else h0[i])
  }

  /** One gather step writes its own slot and no other. */
  lemma GatherPartialStep(h0: seq<Complex>, g: seq<Complex>, nx: int, ny: int, cx: int, cy: int)
    requires |h0| == |g| && nx * ny <= |h0|
    requires 0 <= cx < nx && 0 <= cy < ny
    ensures 0 <= PixelIndex(cx, cy, nx) < nx * ny
    ensures GatherPartial(h0, g, nx, ny, cx, cy)[PixelIndex(cx, cy, nx)] == h0[PixelIndex(cx, cy, nx)]
    ensures var idx := PixelIndex(cx, cy, nx);
            GatherPartial(h0, g, nx, ny, cx, cy + 1) == GatherPartial(h0, g, nx, ny, cx, cy)[idx := g[idx]]
  {
    var idx := PixelIndex(cx, cy, nx);
    PixelIndexInFrame(cx, cy, nx, ny);
    PixelIndexDecode(cx, cy, nx);
    var cur := GatherPartial(h0, g, nx, ny, cx, cy);
    var next := GatherPartial(h0, g, nx, ny, cx, cy + 1);
    forall i | 0 <= i < |h0|
      ensures next[i] == cur[idx := g[idx]][i]
    {
      if i < nx * ny && i != idx {
        SlotDecode(i, nx, ny);
        if i % nx == cx && i / nx == cy {
          assert false;
        }
      }
    }
  }

  /** After the last view every slot of the frame holds the gathered value. */
  lemma GatherPartialEnd(h0: seq<Complex>, g: seq<Complex>, nx: int, ny: int)
    requires |h0| == |g| && 0 <= nx && 0 <= ny
    requires forall i :: 0 <= i < |h0| && nx * ny <= i ==> h0[i] == g[i]
    ensures GatherPartial(h0, g, nx, ny, nx, 0) == g
  {
    forall i | 0 <= i < |h0| && i < nx * ny
      ensures InWindow(Window(0, nx, 0, ny), i % nx, i / nx)
    {
      SlotDecode(i, nx, ny);
    }
  }

  /** `rand(0, 1, idxRx*idxRy) * 2 * M_PI` as the angle of `phase.exp()` in `convertLF2ComplexField`. */
  function DiffuserPhase(num: Numerics, pixelX: int, pixelY: int): Complex
  {
    ComplexExp(num, Complex(0.0, num.rand(0.0, 1.0, pixelX * pixelY) * 2.0 * MPi))
  }

  /** Sample `v` of the transformed and shifted scratch image. */
  function Spectrum(num: Numerics, views: seq<seq<byte>>, nx: int, ny: int, len: int, v: int): Complex
    requires 0 <= nx * ny <= len && DiagonalReadable(views, nx * ny)
  {
    num.lfSpectrum(Gathered(views, nx * ny, len), nx, ny, v)
  }

  /** The value the nest stores for counters `p`. */
  function LFSample(num: Numerics, views: seq<seq<byte>>, nx: int, ny: int, rx: int, ry: int, p: Coord): Complex
    requires 0 <= nx * ny <= rx * ry && DiagonalReadable(views, nx * ny)
  {
    Mul(Spectrum(num, views, nx, ny, rx * ry, p.imageX + nx * p.imageY), DiffuserPhase(num, p.pixelX, p.pixelY))
  }

  /** The sizes the conversion accepts: non-negative, and room for the gather when it runs. */
  predicate Fits(nx: int, ny: int, rx: int, ry: int)
  {
    0 <= nx && 0 <= ny && 0 <= rx && 0 <= ry && (rx == 0 || ry == 0 || nx * ny <= rx * ry)
  }

  /** `RSplane_complex_field` after the conversion. */
  function LFField(num: Numerics, views: seq<seq<byte>>, nx: int, ny: int, rx: int, ry: int): (f: seq<Complex>)
    requires Fits(nx, ny, rx, ry) && (rx == 0 || ry == 0 || DiagonalReadable(views, nx * ny))
    ensures |f| == nx * ny * rx * ry
  {
    if nx == 0 || ny == 0 || rx == 0 || ry == 0 then
      assert nx * ny * rx * ry == 0;
      []
    else
      MulNonNeg(nx, ny);
      seq(nx * ny * rx * ry, s requires 0 <= s < nx * ny * rx * ry =>
        LFSample(num, views, nx, ny, rx, ry, Digits(nx, ny, rx, s)))
  }

  /** Counters `p` leave their sample at their own slot of the output buffer. */
  lemma LFFieldAt(num: Numerics, views: seq<seq<byte>>, nx: int, ny: int, rx: int, ry: int, p: Coord)
    requires Fits(nx, ny, rx, ry) && DiagonalReadable(views, nx * ny)
    requires InRange(nx, ny, rx, ry, p)
    ensures 0 <= ScatterIndex(nx, ny, rx, p) < nx * ny * rx * ry
    ensures LFField(num, views, nx, ny, rx, ry)[ScatterIndex(nx, ny, rx, p)] == LFSample(num, views, nx, ny, rx, ry, p)
  {
    ScatterIndexInBounds(nx, ny, rx, ry, p);
    ScatterIndexDecode(nx, ny, rx, ry, p);
  }

  /**
   * The diffuser seed is `idxRx*idxRy`, so two pixel positions with the same
   * product, for instance every position on the first row and the first
   * column, receive the same sample for the same view.
   */
  lemma SameSeedSameSample(num: Numerics, views: seq<seq<byte>>, nx: int, ny: int, rx: int, ry: int,
                           p: Coord, q: Coord)
    requires Fits(nx, ny, rx, ry) && DiagonalReadable(views, nx * ny)
    requires InRange(nx, ny, rx, ry, p) && InRange(nx, ny, rx, ry, q)
    requires p.imageX == q.imageX && p.imageY == q.imageY && p.pixelX * p.pixelY == q.pixelX * q.pixelY
    ensures 0 <= ScatterIndex(nx, ny, rx, p) < nx * ny * rx * ry && 0 <= ScatterIndex(nx, ny, rx, q) < nx * ny * rx * ry
    ensures ScatterIndex(nx, ny, rx, p) == ScatterIndex(nx, ny, rx, q) <==> p == q
    ensures LFField(num, views, nx, ny, rx, ry)[ScatterIndex(nx, ny, rx, p)] ==
            LFField(num, views, nx, ny, rx, ry)[ScatterIndex(nx, ny, rx, q)]
  {
    LFFieldAt(num, views, nx, ny, rx, ry, p);
    LFFieldAt(num, views, nx, ny, rx, ry, q);
    assert LFSample(num, views, nx, ny, rx, ry, p) == LFSample(num, views, nx, ny, rx, ry, q);
    if ScatterIndex(nx, ny, rx, p) == ScatterIndex(nx, ny, rx, q) {
      ScatterIndexInjective(nx, ny, rx, ry, p, q);
    }
  }

  // ---------------------------------------------------------------------------
  // The output buffer part-way through the nest

  /** Counters `p` come before cursor `c` in the order of the four loops. */
  predicate Before(p: Coord, c: Coord)
  {
    p.pixelX < c.pixelX ||
    (p.pixelX == c.pixelX &&
     (p.pixelY < c.pixelY ||
      (p.pixelY == c.pixelY &&
       (p.imageX < c.imageX || (p.imageX == c.imageX && p.imageY < c.imageY)))))
  }

  /** The slots already written hold their final value, the rest are still zero. */
  function Scattered(f: seq<Complex>, nx: int, ny: int, rx: int, c: Coord): (p: seq<Complex>)
    ensures |p| == |f|
  {
    seq(|f|, s requires 0 <= s < |f| =>
      if 0 < nx && 0 < rx && 0 < ny && Before(Digits(nx, ny, rx, s), c) then f[s] else Zero)
  }

  lemma ScatteredStart(f: seq<Complex>, nx: int, ny: int, rx: int)
    ensures Scattered(f, nx, ny, rx, Coord(0, 0, 0, 0)) == Zeros(|f|)
  {
  }

  /** Writing the slot of the cursor moves the cursor on by one. */
  lemma ScatteredStep(f: seq<Complex>, nx: int, ny: int, rx: int, ry: int, c: Coord)
    requires |f| == nx * ny * rx * ry && InRange(nx, ny, rx, ry, c)
    ensures 0 <= ScatterIndex(nx, ny, rx, c) < |f|
    ensures var j := ScatterIndex(nx, ny, rx, c);
            Scattered(f, nx, ny, rx, c.(imageY := c.imageY + 1)) == Scattered(f, nx, ny, rx, c)[j := f[j]]
  {
    var j := ScatterIndex(nx, ny, rx, c);
    ScatterIndexInBounds(nx, ny, rx, ry, c);
    ScatterIndexDecode(nx, ny, rx, ry, c);
    var cur := Scattered(f, nx, ny, rx, c);
    var next := Scattered(f, nx, ny, rx, c.(imageY := c.imageY + 1));
    forall s | 0 <= s < |f|
      ensures next[s] == cur[j := f[j]][s]
    {
      if s != j {
        DigitsInRange(nx, ny, rx, ry, s);
        if Digits(nx, ny, rx, s) == c {
          assert false;
        }
      }
    }
  }

  /** The end of each loop is the start of the next iteration of the loop around it. */
  lemma ScatteredCarry(f: seq<Complex>, nx: int, ny: int, rx: int, ry: int, b: int, d: int, a: int)
    requires |f| == nx * ny * rx * ry && 0 <= nx && 0 <= ny && 0 <= rx && 0 <= ry
    ensures Scattered(f, nx, ny, rx, Coord(b, d, a, ny)) == Scattered(f, nx, ny, rx, Coord(b, d, a + 1, 0))
    ensures Scattered(f, nx, ny, rx, Coord(b, d, nx, 0)) == Scattered(f, nx, ny, rx, Coord(b, d + 1, 0, 0))
    ensures Scattered(f, nx, ny, rx, Coord(b, ry, 0, 0)) == Scattered(f, nx, ny, rx, Coord(b + 1, 0, 0, 0))
  {
    forall s | 0 <= s < |f|
      ensures InRange(nx, ny, rx, ry, Digits(nx, ny, rx, s))
    {
      DigitsInRange(nx, ny, rx, ry, s);
    }
  }

  /** Once the outer loop is done, every slot holds its final value. */
  lemma ScatteredEnd(f: seq<Complex>, nx: int, ny: int, rx: int, ry: int)
    requires |f| == nx * ny * rx * ry && 0 <= nx && 0 <= ny && 0 <= rx && 0 <= ry
    ensures Scattered(f, nx, ny, rx, Coord(rx, 0, 0, 0)) == f
  {
    forall s | 0 <= s < |f|
      ensures 0 < nx && 0 < rx && 0 < ny && InRange(nx, ny, rx, ry, Digits(nx, ny, rx, s))
    {
      DigitsInRange(nx, ny, rx, ry, s);
    }
  }

  /** The grey levels of every view buffer. */
  function ViewsOf(buffers: seq<array<byte>>): (vs: seq<seq<byte>>)
    reads buffers
    ensures |vs| == |buffers| && forall v :: 0 <= v < |buffers| ==> vs[v] == buffers[v][..]
  {
    seq(|buffers|, v requires 0 <= v < |buffers| reads buffers => buffers[v][..])
  }

  /** `new Complex[n]()`: a fresh buffer of `n` zero samples. */
  method NewZeros(n: nat) returns (a: array<Complex>)
    ensures fresh(a) && a[..] == Zeros(n)
  {
    a := new Complex[n](_ => Zero);
  }

  // ---------------------------------------------------------------------------
  // The generator

  class LightField {
    /** The inherited `ophGen` state. */
    const gen: Generator
    /** `num_image` */
    var numImage: IVec2
    /** `resolution_image` */
    var resolutionImage: IVec2
    /** `LF`: one grey-level buffer per view */
    var lf: seq<array<byte>>
    /** `RSplane_complex_field` */
    var rsPlane: array<Complex>

    constructor (gen: Generator, numImage: IVec2, resolutionImage: IVec2)
      ensures this.gen == gen && this.numImage == numImage && this.resolutionImage == resolutionImage
      ensures lf == [] && rsPlane.Length == 0
    {
      this.gen := gen;
      this.numImage := numImage;
      this.resolutionImage := resolutionImage;
      lf := [];
      rsPlane := new Complex[0];
    }

    /** The view buffers have the shape `initializeLF` gives them. */
    predicate LFShaped()
      reads this
    {
      |lf| == numImage.x * numImage.y &&
      forall v :: 0 <= v < |lf| ==> lf[v].Length == resolutionImage.x * resolutionImage.y
    }

    /** Views `0 .. nx*ny-1` exist and view `v` has a sample at position `v`. */
    predicate LFReadable()
      reads this
    {
      numImage.x * numImage.y <= |lf| &&
      forall v :: 0 <= v < numImage.x * numImage.y ==> v < lf[v].Length
    }

    /** The derived-field block at the end of `readLFConfig`. */
    method ReadLFConfigDerived()
      requires gen.context.lambda != 0.0
      modifies gen`context
      ensures gen.context == DerivedContext(old(gen.context), numImage, resolutionImage)
    {
      var c := gen.context;
      var pn := IVec2(numImage.x * resolutionImage.x, numImage.y * resolutionImage.y);
      gen.context := c.(pixelNumber := pn,
                        k := (2.0 * MPi) / c.lambda,
                        ss := Vec2(pn.x as real * c.pixelPitch.x, pn.y as real * c.pixelPitch.y));
    }

    /**
     * `initializeLF`: `nx*ny` new view buffers, each of `rx*ry` samples, no
     * two of them the same buffer.
     */
    method InitializeLF()
      requires 0 <= numImage.x * numImage.y && 0 <= resolutionImage.x * resolutionImage.y
      modifies this`lf
      ensures LFShaped()
      ensures forall v :: 0 <= v < |lf| ==> fresh(lf[v])
      ensures forall v, w :: 0 <= v < w < |lf| ==> lf[v] != lf[w]
    {
      var n := numImage.x * numImage.y;
      var m := resolutionImage.x * resolutionImage.y;
      var views: seq<array<byte>> := [];
      var i := 0;
      while i < n
        invariant 0 <= i <= n && |views| == i
        invariant forall v :: 0 <= v < i ==> fresh(views[v]) && views[v].Length == m
        invariant forall v, w :: 0 <= v < w < i ==> views[v] != views[w]
      {
        var buffer := new byte[m];
        views := views + [buffer];
        i := i + 1;
      }
      lf := views;
    }

    /**
     * The gather of `convertLF2ComplexField` into the scratch buffer `complexLF`: only
     * real parts are written, so a buffer whose imaginary parts and tail are
     * zero (freshly allocated, or left by the previous gather) ends up as the
     * same image every time.
     */
    method Gather(complexLF: array<Complex>, ghost views: seq<seq<byte>>)
      requires views == ViewsOf(lf)
      requires 0 <= numImage.x && 0 <= numImage.y
      requires numImage.x * numImage.y <= complexLF.Length
      requires DiagonalReadable(views, numImage.x * numImage.y)
      requires ScratchClean(complexLF[..], numImage.x * numImage.y)
      modifies complexLF
      ensures complexLF[..] == Gathered(views, numImage.x * numImage.y, complexLF.Length)
    {
      var nx, ny := numImage.x, numImage.y;
      ghost var h0 := complexLF[..];
      ghost var g := Gathered(views, nx * ny, complexLF.Length);
      var idxNx := 0;
      while idxNx < nx
        invariant 0 <= idxNx <= nx
        invariant complexLF[..] == GatherPartial(h0, g, nx, ny, idxNx, 0)
      {
        var idxNy := 0;
        while idxNy < ny
          invariant 0 <= idxNy <= ny
          invariant complexLF[..] == GatherPartial(h0, g, nx, ny, idxNx, idxNy)
        {
          GatherPartialStep(h0, g, nx, ny, idxNx, idxNy);
          var v := idxNx + nx * idxNy;
          complexLF[v] := complexLF[v].(re := lf[v][v] as real);
          idxNy := idxNy + 1;
        }
        idxNx := idxNx + 1;
      }
      GatherPartialEnd(h0, g, nx, ny);
    }

    /**
     * What the scatter relies on: `FFTLF` holds the spectrum of the gathered
     * image, the output buffer has one slot per sample of `f`, and `f` is the
     * converted field.
     */
    ghost predicate ScatterReady(num: Numerics, fftLF: array<Complex>, views: seq<seq<byte>>, f: seq<Complex>)
      reads this, fftLF
    {
      fftLF != rsPlane &&
      Fits(numImage.x, numImage.y, resolutionImage.x, resolutionImage.y) &&
      0 < resolutionImage.x && 0 < resolutionImage.y &&
      DiagonalReadable(views, numImage.x * numImage.y) &&
      f == LFField(num, views, numImage.x, numImage.y, resolutionImage.x, resolutionImage.y) &&
      rsPlane.Length == |f| &&
      numImage.x * numImage.y <= fftLF.Length &&
      forall v :: 0 <= v < numImage.x * numImage.y ==>
        fftLF[v] == Spectrum(num, views, numImage.x, numImage.y, resolutionImage.x * resolutionImage.y, v)
    }

    /** The store into `FFTLF` for counters `p`. */
    method ScatterSample(num: Numerics, fftLF: array<Complex>, phase: Complex, p: Coord,
                         ghost views: seq<seq<byte>>, ghost f: seq<Complex>)
      requires ScatterReady(num, fftLF, views, f)
      requires InRange(numImage.x, numImage.y, resolutionImage.x, resolutionImage.y, p)
      requires phase == Complex(0.0, num.rand(0.0, 1.0, p.pixelX * p.pixelY) * 2.0 * MPi)
      requires rsPlane[..] == Scattered(f, numImage.x, numImage.y, resolutionImage.x, p)
      modifies rsPlane
      ensures rsPlane[..] == Scattered(f, numImage.x, numImage.y, resolutionImage.x, p.(imageY := p.imageY + 1))
    {
      var nx, ny, rx, ry := numImage.x, numImage.y, resolutionImage.x, resolutionImage.y;
      ScatteredStep(f, nx, ny, rx, ry, p);
      LFFieldAt(num, views, nx, ny, rx, ry, p);
      PixelIndexInFrame(p.imageX, p.imageY, nx, ny);
      var idx := nx * rx * ny * p.pixelY + nx * rx * p.imageY + nx * p.pixelX + p.imageX;
      assert idx == ScatterIndex(nx, ny, rx, p);
      var view := p.imageX + nx * p.imageY;
      assert fftLF[view] == Spectrum(num, views, nx, ny, rx * ry, view);
      assert ComplexExp(num, phase) == DiffuserPhase(num, p.pixelX, p.pixelY);
      rsPlane[idx] := Mul(fftLF[view], ComplexExp(num, phase));
    }

    /**
     * The two inner loops of `convertLF2ComplexField` for pixel position
     * `(idxRx, idxRy)`: every view's transformed sample, times the diffuser
     * phase, goes to its slot. `phase` keeps a zero real part throughout.
     */
    method ScatterPixel(num: Numerics, fftLF: array<Complex>, idxRx: int, idxRy: int,
                        ghost views: seq<seq<byte>>, ghost f: seq<Complex>)
      requires ScatterReady(num, fftLF, views, f)
      requires 0 <= idxRx < resolutionImage.x && 0 <= idxRy < resolutionImage.y
      requires rsPlane[..] == Scattered(f, numImage.x, numImage.y, resolutionImage.x, Coord(idxRx, idxRy, 0, 0))
      modifies rsPlane
      ensures rsPlane[..] == Scattered(f, numImage.x, numImage.y, resolutionImage.x, Coord(idxRx, idxRy + 1, 0, 0))
    {
      var nx, ny, rx, ry := numImage.x, numImage.y, resolutionImage.x, resolutionImage.y;
      var phase := Zero;
      var idxNx := 0;
      while idxNx < nx
        invariant 0 <= idxNx <= nx && phase.re == 0.0
        invariant rsPlane[..] == Scattered(f, nx, ny, rx, Coord(idxRx, idxRy, idxNx, 0))
      {
        var idxNy := 0;
        while idxNy < ny
          invariant 0 <= idxNy <= ny && phase.re == 0.0
          invariant rsPlane[..] == Scattered(f, nx, ny, rx, Coord(idxRx, idxRy, idxNx, idxNy))
        {
          var randVal := num.rand(0.0, 1.0, idxRx * idxRy);
          phase := phase.(im := randVal * 2.0 * MPi);
          ScatterSample(num, fftLF, phase, Coord(idxRx, idxRy, idxNx, idxNy), views, f);
          idxNy := idxNy + 1;
        }
        ScatteredCarry(f, nx, ny, rx, ry, idxRx, idxRy, idxNx);
        idxNx := idxNx + 1;
      }
      ScatteredCarry(f, nx, ny, rx, ry, idxRx, idxRy, nx);
    }

    /**
     * What every pixel position of the conversion relies on: three distinct
     * buffers of the right sizes, and `f` the converted field of the views
     * as they are. The loops change none of it.
     */
    ghost predicate ConvertSetting(num: Numerics, complexLF: array<Complex>, fftLF: array<Complex>,
                                   views: seq<seq<byte>>, f: seq<Complex>)
      reads this, lf
    {
      complexLF != fftLF && fftLF != rsPlane && complexLF != rsPlane &&
      views == ViewsOf(lf) &&
      Fits(numImage.x, numImage.y, resolutionImage.x, resolutionImage.y) &&
      (resolutionImage.x == 0 || resolutionImage.y == 0 || DiagonalReadable(views, numImage.x * numImage.y)) &&
      complexLF.Length == resolutionImage.x * resolutionImage.y &&
      fftLF.Length == resolutionImage.x * resolutionImage.y &&
      f == LFField(num, views, numImage.x, numImage.y, resolutionImage.x, resolutionImage.y) &&
      rsPlane.Length == |f|
    }

    /**
     * One pixel position `(idxRx, idxRy)` of the outer loops:
     * gather into the reused scratch buffer, transform into `FFTLF`, scatter.
     */
    method ConvertPixel(num: Numerics, complexLF: array<Complex>, fftLF: array<Complex>, idxRx: int, idxRy: int,
                        ghost views: seq<seq<byte>>, ghost f: seq<Complex>)
      requires ConvertSetting(num, complexLF, fftLF, views, f)
      requires ScratchClean(complexLF[..], numImage.x * numImage.y)
      requires 0 <= idxRx < resolutionImage.x && 0 <= idxRy < resolutionImage.y
      requires rsPlane[..] == Scattered(f, numImage.x, numImage.y, resolutionImage.x, Coord(idxRx, idxRy, 0, 0))
      modifies complexLF, fftLF, rsPlane
      ensures ScratchClean(complexLF[..], numImage.x * numImage.y)
      ensures complexLF[..] == Gathered(views, numImage.x * numImage.y, resolutionImage.x * resolutionImage.y)
      ensures rsPlane[..] == Scattered(f, numImage.x, numImage.y, resolutionImage.x, Coord(idxRx, idxRy + 1, 0, 0))
    {
      var nx, ny := numImage.x, numImage.y;
      Gather(complexLF, views);
      // fft2 followed by fftwShift into FFTLF
      forall v | 0 <= v < nx * ny {
        fftLF[v] := num.lfSpectrum(complexLF[..], nx, ny, v);
      }
      ScatterPixel(num, fftLF, idxRx, idxRy, views, f);
    }

    /** The `idxRy` loop for one `idxRx`. */
    method ConvertRow(num: Numerics, complexLF: array<Complex>, fftLF: array<Complex>, idxRx: int,
                      ghost views: seq<seq<byte>>, ghost f: seq<Complex>)
      requires ConvertSetting(num, complexLF, fftLF, views, f)
      requires ScratchClean(complexLF[..], numImage.x * numImage.y)
      requires 0 <= idxRx < resolutionImage.x
      requires rsPlane[..] == Scattered(f, numImage.x, numImage.y, resolutionImage.x, Coord(idxRx, 0, 0, 0))
      modifies complexLF, fftLF, rsPlane
      ensures ScratchClean(complexLF[..], numImage.x * numImage.y)
      ensures rsPlane[..] == Scattered(f, numImage.x, numImage.y, resolutionImage.x, Coord(idxRx + 1, 0, 0, 0))
    {
      var nx, ny, rx, ry := numImage.x, numImage.y, resolutionImage.x, resolutionImage.y;
      var idxRy := 0;
      while idxRy < ry
        invariant 0 <= idxRy <= ry
        invariant ScratchClean(complexLF[..], nx * ny)
        invariant rsPlane[..] == Scattered(f, nx, ny, rx, Coord(idxRx, idxRy, 0, 0))
      {
        ConvertPixel(num, complexLF, fftLF, idxRx, idxRy, views, f);
        idxRy := idxRy + 1;
      }
      ScatteredCarry(f, nx, ny, rx, ry, idxRx, 0, 0);
    }

    /** The `idxRx` loop of `convertLF2ComplexField`. */
    method ConvertAll(num: Numerics, complexLF: array<Complex>, fftLF: array<Complex>,
                      ghost views: seq<seq<byte>>, ghost f: seq<Complex>)
      requires ConvertSetting(num, complexLF, fftLF, views, f)
      requires ScratchClean(complexLF[..], numImage.x * numImage.y)
      requires rsPlane[..] == Zeros(|f|)
      modifies complexLF, fftLF, rsPlane
      ensures rsPlane[..] == f
    {
      var nx, ny, rx, ry := numImage.x, numImage.y, resolutionImage.x, resolutionImage.y;
      ScatteredStart(f, nx, ny, rx);
      var idxRx := 0;
      while idxRx < rx
        invariant 0 <= idxRx <= rx
        invariant ScratchClean(complexLF[..], nx * ny)
        invariant rsPlane[..] == Scattered(f, nx, ny, rx, Coord(idxRx, 0, 0, 0))
      {
        ConvertRow(num, complexLF, fftLF, idxRx, views, f);
        idxRx := idxRx + 1;
      }
      ScatteredEnd(f, nx, ny, rx, ry);
    }

    /**
     * `convertLF2ComplexField`: a fresh output buffer of `nx*ny*rx*ry`
     * samples whose every slot holds the sample of the counters that decode
     * from it. The two scratch buffers are allocated once and reused by
     * every pixel position.
     */
    method ConvertLF2ComplexField(num: Numerics)
      requires Fits(numImage.x, numImage.y, resolutionImage.x, resolutionImage.y)
      requires resolutionImage.x == 0 || resolutionImage.y == 0 || LFReadable()
      modifies this`rsPlane
      ensures fresh(rsPlane)
      ensures rsPlane[..] == LFField(num, old(ViewsOf(lf)), numImage.x, numImage.y, resolutionImage.x, resolutionImage.y)
    {
      var nx, ny, rx, ry := numImage.x, numImage.y, resolutionImage.x, resolutionImage.y;
      ghost var views := ViewsOf(lf);
      assert rx == 0 || ry == 0 || DiagonalReadable(views, nx * ny);
      ghost var f := LFField(num, views, nx, ny, rx, ry);
      MulNonNeg(rx, ry);
      var n := nx * ny * rx * ry;
      assert n == |f|;
      rsPlane := NewZeros(n);
      var complexLF := NewZeros(rx * ry);
      var fftLF := NewZeros(rx * ry);
      assert views == ViewsOf(lf);
      ConvertAll(num, complexLF, fftLF, views, f);
    }
  }
}
