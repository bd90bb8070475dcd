/**
 * Values shared by the whole model: complex samples, the small vector types of
 * the library (`vec2`, `ivec2`, `vec3`), the constant `M_PI`, and the bundle of
 * numeric primitives the model leaves uninterpreted.
 */
module Numeric {

  datatype Option<T> = None | Some(value: T)

  /** An 8-bit grey level (`uchar`). */
  newtype byte = x: int | 0 <= x < 256

  /** `Complex<Real>`: the `_RE` and `_IM` parts. */
  datatype Complex = Complex(re: real, im: real)

  const Zero: Complex := Complex(0.0, 0.0)

  function Add(a: Complex, b: Complex): Complex
  {
    Complex(a.re + b.re, a.im + b.im)
  }

  function Mul(a: Complex, b: Complex): Complex
  {
    Complex(a.re * b.re - a.im * b.im, a.re * b.im + a.im * b.re)
  }

  /** Multiplying by a purely real factor scales the real part by that factor. */
  lemma MulByRealFactor(a: Complex, f: real)
    ensures Mul(a, Complex(f, 0.0)).re == a.re * f
    ensures Mul(a, Complex(f, 0.0)).im == a.im * f
  {
  }

  datatype Vec2 = Vec2(x: real, y: real)
  datatype IVec2 = IVec2(x: int, y: int)
  datatype Vec3 = Vec3(x: real, y: real, z: real)

  /** The value of the `M_PI` macro, as an exact rational. */
  const MPi: real := 3.14159265358979323846

  /**
   * `n * stride`, the offset of the `n`-th item of a buffer whose items are
   * `stride` slots apart, counted item by item.
   */
  function Offset(n: nat, stride: int): (o: int)
    ensures 0 <= stride ==> 0 <= o
  {
    if n == 0 then 0 else Offset(n - 1, stride) + stride
  }

  lemma {:induction false} OffsetIsProduct(n: nat, stride: int)
    ensures Offset(n, stride) == n * stride
  {
    if n > 0 {
      OffsetIsProduct(n - 1, stride);
      assert n * stride == (n - 1) * stride + stride;
    }
  }

  function Abs(x: real): (r: real)
    ensures r >= 0.0 && (r == x || r == -x)
  {
    if x < 0.0 then -x else x
  }

  /**
   * The floating-point and foreign primitives of the library, left
   * uninterpreted: every value the model takes from them is whatever these
   * functions return.
   */
  datatype Numerics = Numerics(
    sin: real -> real,
    cos: real -> real,
    sqrt: real -> real,
    exp: real -> real,
    /** `t / sqrt(1 - t*t)`, the tangent of the half-angle of the diffraction cone */
    halfAngleSlope: real -> real,
    /** Rayleigh-Sommerfeld term `A*z*(sin(kr), -cos(kr)) / (lambda*r*r)` of point
        `pc`, wave number `k`, amplitude `A`, wavelength `lambda` at pixel `(xxx, yyy)` */
    rsTerm: (Vec3, real, real, real, real, real) -> Complex,
    /** the single-argument viewing-window transform of one coordinate */
    transVW: real -> real,
    /** sample `i` of the shift / FFT / shift double round trip of a `pnX` x `pnY` field */
    encodeRoundTrip: (seq<Complex>, int, int, int) -> Complex,
    /** sample `i` of `fft2` followed by `fftwShift` of an `nx` x `ny` image */
    lfSpectrum: (seq<Complex>, int, int, int) -> Complex,
    /** `rand(min, max, seed)` */
    rand: (real, real, int) -> real)

  /** `Complex::exp()`: `e^re * (cos im + i sin im)`. */
  function ComplexExp(num: Numerics, c: Complex): Complex
  {
    Complex(num.exp(c.re) * num.cos(c.im), num.exp(c.re) * num.sin(c.im))
  }
}
