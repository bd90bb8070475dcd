/**
 * Flat, row-major complex buffers: pixel `(x, y)` of a `pnX`-wide frame lives at
 * slot `x + y * pnX`, as in `complex_H[channel][xxtr + yytr * pn[_X]]`. The
 * module also gives the sum of many per-point contributions to one buffer and
 * proves that this sum does not depend on the order of the points.
 */
module Field {
  import opened Numeric

  // ---------------------------------------------------------------------------
  // Integer facts for mixed-radix indices

  lemma MulNonNeg(a: int, b: int)
    requires 0 <= a && 0 <= b
    ensures 0 <= a * b
  {
  }

  lemma MulMonotone(a: int, b: int, n: int)
    requires a <= b && 0 <= n
    ensures a * n <= b * n
  {
    MulNonNeg(b - a, n);
    assert b * n - a * n == (b - a) * n;
  }

  lemma SmallMultipleIsZero(k: int, n: int)
    requires 0 < n && -n < k * n < n
    ensures k == 0
  {
    if k > 0 {
      MulMonotone(1, k, n);
    } else if k < 0 {
      MulMonotone(k, -1, n);
    }
  }

  /** `a + n*b` with `0 <= a < n` splits back into `a` and `b` by `%` and `/`. */
  lemma {:induction false} DivModOfSum(a: int, b: int, n: int)
    requires 0 <= a < n && 0 <= b
    ensures (a + b * n) / n == b && (a + b * n) % n == a
  {
    var s := a + b * n;
    var q, r := s / n, s % n;
    assert s == q * n + r && 0 <= r < n;
    assert (b - q) * n == r - a;
    SmallMultipleIsZero(b - q, n);
  }

  /** `a + n*b` stays below `n*m` when `a < n` and `b < m`. */
  lemma MixedBound(a: int, b: int, n: int, m: int)
    requires 0 <= a < n && 0 <= b < m
    ensures 0 <= a + b * n < n * m
  {
    MulNonNeg(b, n);
    MulMonotone(b, m - 1, n);
    assert (m - 1) * n == n * m - n;
  }

  /** Division by `n` of a slot below `n*m` gives a row below `m`. */
  lemma DivBound(s: int, n: int, m: int)
    requires 0 <= s < n * m && 0 < n
    ensures 0 <= s / n < m
  {
    var q, r := s / n, s % n;
    assert s == q * n + r;
  }

  // ---------------------------------------------------------------------------
  // Row-major pixel layout

  /** The slot of pixel `(x, y)` (`xxtr + yytr * pn.x` in the two pixel loops). */
  function PixelIndex(x: int, y: int, pnX: int): int
  {
    x + y * pnX
  }

  /** Every pixel of the frame has a slot inside the `pnX * pnY` buffer. */
  lemma PixelIndexInFrame(x: int, y: int, pnX: int, pnY: int)
    requires 0 <= x < pnX && 0 <= y < pnY
    ensures 0 <= PixelIndex(x, y, pnX) < pnX * pnY
  {
    MixedBound(x, y, pnX, pnY);
  }

  /** The slot of a pixel gives the pixel back: the layout is one-to-one. */
  lemma PixelIndexDecode(x: int, y: int, pnX: int)
    requires 0 <= x < pnX && 0 <= y
    ensures PixelIndex(x, y, pnX) % pnX == x && PixelIndex(x, y, pnX) / pnX == y
  {
    DivModOfSum(x, y, pnX);
  }

  lemma PixelIndexInjective(x: int, y: int, x': int, y': int, pnX: int)
    requires 0 <= x < pnX && 0 <= y && 0 <= x' < pnX && 0 <= y'
    requires PixelIndex(x, y, pnX) == PixelIndex(x', y', pnX)
    ensures x == x' && y == y'
  {
    PixelIndexDecode(x, y, pnX);
    PixelIndexDecode(x', y', pnX);
  }

  /** Every slot of the frame is the slot of the pixel its `%` and `/` name. */
  lemma SlotDecode(i: int, pnX: int, pnY: int)
    requires 0 <= pnX && 0 <= pnY && 0 <= i < pnX * pnY
    ensures 0 < pnX && 0 <= i % pnX < pnX && 0 <= i / pnX < pnY
    ensures PixelIndex(i % pnX, i / pnX, pnX) == i
  {
    DivBound(i, pnX, pnY);
  }

  // ---------------------------------------------------------------------------
  // Buffers and the contribution of one point

  function Zeros(n: nat): (z: seq<Complex>)
    ensures |z| == n && forall i :: 0 <= i < n ==> z[i] == Zero
  {
    seq(n, _ => Zero)
  }

  /**
   * Element-wise `+=` of a contribution onto a buffer, slot by slot from the
   * front; `AddFieldAt` gives its value at every slot.
   */
  function AddField(a: seq<Complex>, d: seq<Complex>): (r: seq<Complex>)
    requires |a| == |d|
    ensures |r| == |a|
  {
    AddPrefix(a, d, |a|)
  }

  /** The first `n` slots of `AddField(a, d)`. */
  function AddPrefix(a: seq<Complex>, d: seq<Complex>, n: nat): (r: seq<Complex>)
    requires n <= |a| == |d|
    ensures |r| == n
  {
    if n == 0 then [] else AddPrefix(a, d, n - 1) + [Add(a[n - 1], d[n - 1])]
  }

  lemma {:induction false} AddPrefixAt(a: seq<Complex>, d: seq<Complex>, n: nat, i: int)
    requires n <= |a| == |d| && 0 <= i < n
    ensures AddPrefix(a, d, n)[i] == Add(a[i], d[i])
  {
    if i < n - 1 {
      AddPrefixAt(a, d, n - 1, i);
    }
  }

  /** Slot `i` of the sum is the sum of the two slots `i`. */
  lemma AddFieldAt(a: seq<Complex>, d: seq<Complex>)
    requires |a| == |d|
    ensures forall i :: 0 <= i < |a| ==> AddField(a, d)[i] == Add(a[i], d[i])
  {
    forall i | 0 <= i < |a|
      ensures AddField(a, d)[i] == Add(a[i], d[i])
    {
      AddPrefixAt(a, d, |a|, i);
    }
  }

  /** Two sums that agree slot by slot are the same buffer. */
  lemma AddFieldExt(a: seq<Complex>, d: seq<Complex>, r: seq<Complex>)
    requires |a| == |d| == |r|
    requires forall i :: 0 <= i < |a| ==> r[i] == Add(a[i], d[i])
    ensures AddField(a, d) == r
  {
    AddFieldAt(a, d);
  }

  lemma AddFieldZeros(a: seq<Complex>)
    ensures AddField(a, Zeros(|a|)) == a
  {
    AddFieldExt(a, Zeros(|a|), a);
  }

  lemma AddFieldCommutes(a: seq<Complex>, b: seq<Complex>)
    requires |a| == |b|
    ensures AddField(a, b) == AddField(b, a)
  {
    AddFieldAt(b, a);
    AddFieldExt(a, b, AddField(b, a));
  }

  lemma AddFieldAssociates(a: seq<Complex>, b: seq<Complex>, c: seq<Complex>)
    requires |a| == |b| == |c|
    ensures AddField(AddField(a, b), c) == AddField(a, AddField(b, c))
  {
    var ab, bc := AddField(a, b), AddField(b, c);
    AddFieldAt(a, b);
    AddFieldAt(b, c);
    AddFieldAt(ab, c);
    AddFieldExt(a, bc, AddField(ab, c));
  }

  /** One step of adding contributions one by one: `(h0 + c) + p` is `h0 + (c + p)`. */
  lemma AddFieldRegroup(h0: seq<Complex>, c: seq<Complex>, p: seq<Complex>,
                        prev: seq<Complex>, cur: seq<Complex>, next: seq<Complex>)
    requires |h0| == |c| == |p|
    requires AddField(h0, c) == prev
    requires cur == AddField(prev, p)
    requires next == AddField(c, p)
    ensures AddField(h0, next) == cur
  {
    AddFieldAssociates(h0, c, p);
  }

  /** A value per pixel `(x, y)` of the frame. */
  type PixelValue = (int, int) -> Complex

  /**
   * The contribution to a buffer of `len` slots of a per-pixel value on a
   * `pnX` x `pnY` frame; slots past the frame get nothing.
   */
  function PixelField(len: nat, pnX: int, pnY: int, value: PixelValue): (f: seq<Complex>)
    ensures |f| == len
  {
    if len == 0 then [] else PixelField(len - 1, pnX, pnY, value) + [SlotValue(len - 1, pnX, pnY, value)]
  }

  /** What slot `i` receives: the value of pixel `(i % pnX, i / pnX)` inside the frame, nothing past it. */
  function SlotValue(i: int, pnX: int, pnY: int, value: PixelValue): Complex
  {
    if 0 <= i < pnX * pnY then value(i % pnX, i / pnX) else Zero
  }

  lemma {:induction false} PixelFieldIndex(len: nat, pnX: int, pnY: int, value: PixelValue, i: int)
    requires 0 <= i < len
    ensures PixelField(len, pnX, pnY, value)[i] == SlotValue(i, pnX, pnY, value)
  {
    if i < len - 1 {
      PixelFieldIndex(len - 1, pnX, pnY, value, i);
    }
  }

  /** Pixel `(x, y)` of the frame receives exactly `value(x, y)`. */
  lemma PixelFieldAt(len: nat, pnX: int, pnY: int, value: PixelValue, x: int, y: int)
    requires 0 <= x < pnX && 0 <= y < pnY
    requires pnX * pnY <= len
    ensures 0 <= PixelIndex(x, y, pnX) < len
    ensures PixelField(len, pnX, pnY, value)[PixelIndex(x, y, pnX)] == value(x, y)
  {
    PixelIndexInFrame(x, y, pnX, pnY);
    PixelIndexDecode(x, y, pnX);
    PixelFieldIndex(len, pnX, pnY, value, PixelIndex(x, y, pnX));
  }
}
