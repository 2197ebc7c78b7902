/**
 * Grid geometry of `resize`: cell size, column and row counts, device pixel
 * ratio, backing-store size and the flat row-major cell index.
 */
module Geometry {
  import opened Common

  /** What `resize` reads from the page: CSS width and height of the canvas and `devicePixelRatio`. */
  datatype Surface = Surface(cssW: real, cssH: real, ratio: real)

  /** Smallest cell size in CSS pixels. */
  const MinCellPx: real := 8.0

  /** `Math.max(8, cellSize)`. */
  function CellPx(cellSize: real): (s: real)
    ensures s >= MinCellPx
    ensures s == cellSize || s == MinCellPx
    ensures cellSize <= s
  {
    Max(MinCellPx, cellSize)
  }

  /** `Math.max(1, Math.floor(css / s))`: the number of cells along one axis. */
  function Cells(css: real, s: real): (n: int)
    requires s >= MinCellPx
    ensures n >= 1
  {
    MaxInt(1, (css / s).Floor)
  }

  /**
   * Cells(css, s) is the largest number of whole cells of size s that fit in css,
   * except that it is never below one: one more cell never fits, and unless the
   * only cell is the forced one, all of them fit.
   */
  lemma CellsFit(css: real, s: real)
    requires s >= MinCellPx
    ensures var n := Cells(css, s);
      css < (n + 1) as real * s && (n == 1 || n as real * s <= css)
    ensures css >= s ==> Cells(css, s) as real * s <= css
  {
    var n := Cells(css, s);
    var q := css / s;
    var f := q.Floor;
    assert q * s == css;
    assert f as real <= q < f as real + 1.0;
    MulMono(q, (f + 1) as real, s);
    assert css < (f + 1) as real * s;
    if n == f {
      MulMono(f as real, q, s);
    } else {
      assert n == 1 && f < 1;
      MulMono((f + 1) as real, 2.0, s);
    }
    if css >= s {
      assert q >= 1.0 by {
        if q < 1.0 { MulMono(q, 1.0, s); assert false; }
      }
      assert n == f;
    }
  }

  /** Multiplying both sides of a <= b by a positive s. */
  lemma MulMono(a: real, b: real, s: real)
    requires s > 0.0
    ensures a <= b ==> a * s <= b * s
    ensures a < b ==> a * s < b * s
  {
    if a <= b { assert b * s - a * s == (b - a) * s; }
  }

  /** A 360 x 180 surface with cell size 18 holds 20 columns and 10 rows. */
  lemma ExampleGrid()
    ensures Cells(360.0, CellPx(18.0)) == 20 && Cells(180.0, CellPx(18.0)) == 10
  {
    assert 360.0 / 18.0 == 20.0;
    assert 180.0 / 18.0 == 10.0;
  }

  /** `Math.max(1, Math.floor(devicePixelRatio || 1))`. */
  function DprOf(ratio: real): (dpr: int)
    ensures dpr >= 1
    ensures ratio >= 1.0 ==> dpr as real <= ratio < (dpr + 1) as real
    ensures ratio < 2.0 ==> dpr == 1
  {
    MaxInt(1, ratio.Floor)
  }

  /** `Math.max(1, Math.floor(css * dpr))`: the backing-store size along one axis. */
  function BackingPx(css: real, dpr: int): (px: int)
    ensures px >= 1
  {
    MaxInt(1, (css * dpr as real).Floor)
  }

  /**
   * The early return of `resize`: a non-hard call whose backing store already has
   * `Math.floor(css * dpr)` pixels along both axes and whose dpr is unchanged.
   */
  predicate ResizeSkipped(hard: bool, canvasW: int, canvasH: int, oldDpr: int, surf: Surface)
    ensures hard ==> !ResizeSkipped(hard, canvasW, canvasH, oldDpr, surf)
    ensures ResizeSkipped(hard, canvasW, canvasH, oldDpr, surf) && canvasW >= 1 && canvasH >= 1 ==>
      && oldDpr == DprOf(surf.ratio)
      && canvasW == BackingPx(surf.cssW, oldDpr) && canvasH == BackingPx(surf.cssH, oldDpr)
  {
    var dpr := DprOf(surf.ratio);
    !hard && canvasW == (surf.cssW * dpr as real).Floor
      && canvasH == (surf.cssH * dpr as real).Floor && oldDpr == dpr
  }

  /**
   * After a resize for a surface, a non-hard resize for the same surface returns
   * early exactly when both axes measure at least one device pixel: the stored
   * size is clamped to 1 but compared unclamped, so a sub-pixel surface
   * reallocates on every window resize event.
   */
  lemma SecondResizeSkipped(surf: Surface)
    ensures var dpr := DprOf(surf.ratio);
      ResizeSkipped(false, BackingPx(surf.cssW, dpr), BackingPx(surf.cssH, dpr), dpr, surf)
      <==> (surf.cssW * dpr as real).Floor >= 1 && (surf.cssH * dpr as real).Floor >= 1
  {
  }

  /** The product of two naturals is a natural. */
  lemma MulNonneg(a: int, b: int)
    requires a >= 0 && b >= 0
    ensures a * b >= 0
  {
  }

  /** The flat index `r * cols + c` of the cell in row r and column c; it lies inside the buffers. */
  function CellIndex(cols: int, rows: int, r: int, c: int): (i: int)
    requires 0 <= r < rows && 0 <= c < cols
    ensures 0 <= i < cols * rows
  {
    MulNonneg(r, cols);
    MulNonneg(rows - r - 1, cols);
    assert (rows - r - 1) * cols == rows * cols - r * cols - cols;
    r * cols + c
  }

  /** Distinct cells have distinct indices. */
  lemma CellIndexInjective(cols: int, rows: int, r1: int, c1: int, r2: int, c2: int)
    requires 0 <= r1 < rows && 0 <= r2 < rows && 0 <= c1 < cols && 0 <= c2 < cols
    ensures CellIndex(cols, rows, r1, c1) == CellIndex(cols, rows, r2, c2) ==> r1 == r2 && c1 == c2
  {
    if r1 < r2 {
      MulNonneg(r2 - r1 - 1, cols);
      assert (r2 - r1 - 1) * cols == r2 * cols - r1 * cols - cols;
    } else if r2 < r1 {
      MulNonneg(r1 - r2 - 1, cols);
      assert (r1 - r2 - 1) * cols == r1 * cols - r2 * cols - cols;
    }
  }

  /** Every index of the buffers is the index of some cell. */
  lemma CellIndexOnto(cols: int, rows: int, i: int)
    requires cols >= 1 && 0 <= i < cols * rows
    ensures 0 <= i / cols < rows && CellIndex(cols, rows, i / cols, i % cols) == i
  {
    assert i == (i / cols) * cols + i % cols;
  }
}
