/**
 * The state of a channel buffer part-way through the pixel loops of
 * `diffractNotEncodedRS` (columns outer) and `diffractNotEncodedFrsn` (rows
 * outer): the pixels of the window already visited hold their sum, every
 * other slot its old value.
 */
module Scan {
  import opened Numeric
  import opened Field
  import opened Culling

  datatype Order = ColumnMajor | RowMajor

  /** Pixel `(x, y)` of window `w` is visited before the cursor `(cx, cy)`. */
  predicate Visited(order: Order, w: Window, x: int, y: int, cx: int, cy: int)
  {
    InWindow(w, x, y) &&
    match order
    case ColumnMajor => x < cx || (x == cx && y < cy)
    case RowMajor => y < cy || (y == cy && x < cx)
  }

  /** The buffer when the loops stand at cursor `(cx, cy)`. */
  function Partial(h0: seq<Complex>, f: seq<Complex>, pnX: int, pnY: int, w: Window, order: Order,
                   cx: int, cy: int): (p: seq<Complex>)
    requires |h0| == |f|
    ensures |p| == |h0|
  {
    seq(|h0|, i requires 0 <= i < |h0| =>
      if i < pnX * pnY && Visited(order, w, i % pnX, i / pnX, cx, cy) then Add(h0[i], f[i]) else h0[i])
  }

  /** Before the first pixel nothing has changed. */
  lemma PartialStart(h0: seq<Complex>, f: seq<Complex>, pnX: int, pnY: int, w: Window, order: Order)
    requires |h0| == |f|
    ensures Partial(h0, f, pnX, pnY, w, order, w.xLo, w.yLo) == h0
  {
  }

  /**
   * Visiting pixel `(cx, cy)` of the window adds its value at its own slot and
   * nowhere else.
   */
  lemma PartialStep(h0: seq<Complex>, f: seq<Complex>, pnX: int, pnY: int, w: Window, order: Order,
                    cx: int, cy: int)
    requires |h0| == |f| && pnX * pnY <= |h0|
    requires 0 <= cx < pnX && 0 <= cy < pnY && InWindow(w, cx, cy)
    ensures 0 <= PixelIndex(cx, cy, pnX) < |h0|
    ensures Partial(h0, f, pnX, pnY, w, order, cx, cy)[PixelIndex(cx, cy, pnX)] == h0[PixelIndex(cx, cy, pnX)]
    ensures var idx := PixelIndex(cx, cy, pnX);
            var next := if order.ColumnMajor? then Partial(h0, f, pnX, pnY, w, order, cx, cy + 1)
                        else Partial(h0, f, pnX, pnY, w, order, cx + 1, cy);
            next == Partial(h0, f, pnX, pnY, w, order, cx, cy)[idx := Add(h0[idx], f[idx])]
  {
    var idx := PixelIndex(cx, cy, pnX);
    PixelIndexInFrame(cx, cy, pnX, pnY);
    PixelIndexDecode(cx, cy, pnX);
    var cur := Partial(h0, f, pnX, pnY, w, order, cx, cy);
    var next := if order.ColumnMajor? then Partial(h0, f, pnX, pnY, w, order, cx, cy + 1)
                else Partial(h0, f, pnX, pnY, w, order, cx + 1, cy);
    forall i | 0 <= i < |h0|
      ensures next[i] == cur[idx := Add(h0[idx], f[idx])][i]
    {
      if i < pnX * pnY && i != idx {
        SlotDecode(i, pnX, pnY);
        if i % pnX == cx && i / pnX == cy {
          assert false;
        }
      }
    }
  }

  /** Finishing a column (a row, in row-major order) moves the cursor to the next one. */
  lemma PartialLineEnd(h0: seq<Complex>, f: seq<Complex>, pnX: int, pnY: int, w: Window, order: Order,
                       cx: int, cy: int)
    requires |h0| == |f|
    requires order.ColumnMajor? ==> w.yHi <= cy
    requires order.RowMajor? ==> w.xHi <= cx
    ensures order.ColumnMajor? ==>
              Partial(h0, f, pnX, pnY, w, order, cx, cy) == Partial(h0, f, pnX, pnY, w, order, cx + 1, w.yLo)
    ensures order.RowMajor? ==>
              Partial(h0, f, pnX, pnY, w, order, cx, cy) == Partial(h0, f, pnX, pnY, w, order, w.xLo, cy + 1)
  {
  }

  /**
   * Once the cursor has passed the last column (row), every pixel of the
   * window has been visited; when the contribution vanishes outside the
   * window the buffer is the old buffer plus the contribution.
   */
  lemma PartialEnd(h0: seq<Complex>, f: seq<Complex>, pnX: int, pnY: int, w: Window, order: Order,
                   cx: int, cy: int)
    requires |h0| == |f|
    requires order.ColumnMajor? ==> w.xHi <= cx
    requires order.RowMajor? ==> w.yHi <= cy
    requires forall i :: 0 <= i < |f| && !(i < pnX * pnY && InWindow(w, i % pnX, i / pnX)) ==> f[i] == Zero
    ensures Partial(h0, f, pnX, pnY, w, order, cx, cy) == AddField(h0, f)
  {
    AddFieldExt(h0, f, Partial(h0, f, pnX, pnY, w, order, cx, cy));
  }
}
