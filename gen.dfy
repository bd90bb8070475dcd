/**
 * The state every hologram generator inherits (`OphContext`, the encoded
 * buffer and the encode size of `ophGen`) and the point-cloud records of
 * `ophGen.h`.
 */
module Gen {
  import opened Numeric

  /**
   * `OphContext`. The point-cloud generator also reads a per-channel list of
   * wavelengths (`wave_length[channel]`, `waveNum` of them), kept here as
   * `waveLength`.
   */
  datatype Context = Context(
    pixelNumber: IVec2,
    pixelPitch: Vec2,
    k: real,
    ss: Vec2,
    lambda: real,
    waveLength: seq<real>)

  /** `ss = pn * pp`, axis by axis. */
  function SensorSize(pn: IVec2, pp: Vec2): (ss: Vec2)
    ensures pp.x != 0.0 ==> ss.x / pp.x == pn.x as real
    ensures pp.y != 0.0 ==> ss.y / pp.y == pn.y as real
  {
    Vec2(pn.x as real * pp.x, pn.y as real * pp.y)
  }

  /** `k = 2 * M_PI / wavelength`. */
  function WaveNumber(wavelength: real): (k: real)
    requires wavelength != 0.0
    ensures k * wavelength == 2.0 * MPi && k != 0.0
  {
    2.0 * MPi / wavelength
  }

  /** The documented relation between `ss`, `pixel_number` and `pixel_pitch`. */
  predicate SizeConsistent(c: Context)
  {
    c.ss == SensorSize(c.pixelNumber, c.pixelPitch)
  }

  /** The documented relation between `k` and `lambda`. */
  predicate WaveNumberConsistent(c: Context)
  {
    c.lambda != 0.0 && c.k == WaveNumber(c.lambda)
  }

  /** Changing the pixel count of a consistent context leaves `ss` stale. */
  lemma NewPixelNumberLeavesSizeStale(c: Context, nx: int, ny: int)
    requires SizeConsistent(c) && c.pixelPitch.x != 0.0 && nx != c.pixelNumber.x
    ensures !SizeConsistent(c.(pixelNumber := IVec2(nx, ny)))
  {
    var pp := c.pixelPitch.x;
    assert (c.pixelNumber.x as real - nx as real) * pp != 0.0;
  }

  /** Changing the pixel pitch of a consistent context leaves `ss` stale. */
  lemma NewPixelPitchLeavesSizeStale(c: Context, px: real, py: real)
    requires SizeConsistent(c) && c.pixelNumber.x != 0 && px != c.pixelPitch.x
    ensures !SizeConsistent(c.(pixelPitch := Vec2(px, py)))
  {
    var pn := c.pixelNumber.x as real;
    assert pn * (c.pixelPitch.x - px) != 0.0;
  }

  /** Changing the wavelength of a consistent context leaves `k` stale. */
  lemma NewWaveLengthLeavesWaveNumberStale(c: Context, w: real)
    requires WaveNumberConsistent(c) && w != 0.0 && w != c.lambda
    ensures !WaveNumberConsistent(c.(lambda := w))
  {
  }

  /** `OphPointCloudConfig`: the fields the point-cloud generator reads. */
  datatype PointCloudConfig = PointCloudConfig(scale: Vec3, offsetDepth: real, tiltAngle: Vec2)

  /**
   * `OphPointCloudData`: three coordinates per point in `vertex`, `nColors`
   * colour values per point in `color`; a `None` buffer is a null pointer.
   */
  datatype PointCloudData = PointCloudData(
    nPoints: nat,
    nColors: int,
    vertex: Option<seq<real>>,
    color: Option<seq<real>>,
    phase: Option<seq<real>>,
    isPhaseParse: bool)

  /**
   * The buffers hold what the per-point loop reads for points `0 .. n-1`:
   * `vertex[3i .. 3i+2]` and `color[nColors*i]`.
   */
  predicate Readable(d: PointCloudData, n: int)
  {
    n <= 0 ||
    (d.vertex.Some? && 3 * n <= |d.vertex.value| &&
     d.color.Some? && 0 <= d.nColors && Offset(n - 1, d.nColors) < |d.color.value|)
  }

  /** The default constructor: an empty cloud with null buffers, which is readable. */
  function DefaultPointCloudData(): (d: PointCloudData)
    ensures d.nPoints == 0 && d.nColors == 0 && !d.isPhaseParse
    ensures d.vertex.None? && d.color.None? && d.phase.None?
    ensures Readable(d, d.nPoints) && !Readable(d, 1)
  {
    PointCloudData(0, 0, None, None, None, false)
  }

  /** The part of `ophGen` the modelled generators use. */
  class Generator {
    var context: Context
    /** `holo_gen` */
    var holoGen: array<Complex>
    /** `holo_encoded` */
    var holoEncoded: array<real>
    /** `encode_size` */
    var encodeSize: IVec2

    constructor (context: Context, holoGen: array<Complex>, holoEncoded: array<real>)
      ensures this.context == context && this.holoGen == holoGen && this.holoEncoded == holoEncoded
      ensures encodeSize == IVec2(0, 0)
    {
      this.context := context;
      this.holoGen := holoGen;
      this.holoEncoded := holoEncoded;
      encodeSize := IVec2(0, 0);
    }

    /** Only the pixel count changes; `ss` keeps its old value. */
    method SetPixelNumber(nx: int, ny: int)
      modifies this`context
      ensures context == old(context).(pixelNumber := IVec2(nx, ny))
      ensures (SizeConsistent(old(context)) && old(context).pixelPitch.x != 0.0 &&
               nx != old(context).pixelNumber.x) ==> !SizeConsistent(context)
    {
      context := context.(pixelNumber := IVec2(nx, ny));
      if SizeConsistent(old(context)) && old(context).pixelPitch.x != 0.0 && nx != old(context).pixelNumber.x {
        NewPixelNumberLeavesSizeStale(old(context), nx, ny);
      }
    }

    /** Only the pixel pitch changes; `ss` keeps its old value. */
    method SetPixelPitch(px: real, py: real)
      modifies this`context
      ensures context == old(context).(pixelPitch := Vec2(px, py))
      ensures (SizeConsistent(old(context)) && old(context).pixelNumber.x != 0 &&
               px != old(context).pixelPitch.x) ==> !SizeConsistent(context)
    {
      context := context.(pixelPitch := Vec2(px, py));
      if SizeConsistent(old(context)) && old(context).pixelNumber.x != 0 && px != old(context).pixelPitch.x {
        NewPixelPitchLeavesSizeStale(old(context), px, py);
      }
    }

    /** Only `lambda` changes; `k` keeps its old value. */
    method SetWaveLength(w: real)
      modifies this`context
      ensures context == old(context).(lambda := w)
      ensures WaveNumberConsistent(old(context)) && w != 0.0 && w != old(context).lambda ==>
              !WaveNumberConsistent(context)
    {
      context := context.(lambda := w);
      if WaveNumberConsistent(old(context)) && w != 0.0 && w != old(context).lambda {
        NewWaveLengthLeavesWaveNumberStale(old(context), w);
      }
    }

    /** `getContext` */
    function GetContext(): Context
      reads this
    {
      context
    }

    /** `getHoloBuffer` */
    function GetHoloBuffer(): array<Complex>
      reads this
    {
      holoGen
    }

    /** `getEncodedBuffer` */
    function GetEncodedBuffer(): array<real>
      reads this
    {
      holoEncoded
    }

    /** `getEncodeSize` */
    function GetEncodeSize(): IVec2
      reads this
    {
      encodeSize
    }
  }
}
