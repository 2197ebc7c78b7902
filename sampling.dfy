/** `draw` as a sampling of the grid: one draw call per visible cell, in row-major order. */
module Sampling {
  import opened Common
  import opened Geometry

  /** A `fillText(chars[i], c * s, r * s)` under `globalAlpha = alpha[i]`. */
  datatype DrawCall = DrawCall(col: int, row: int, x: real, y: real, glyph: char, alpha: real)

  /** Buffers of a cols x rows grid. */
  predicate GridShape(alpha: seq<real>, chars: seq<char>, cols: int, rows: int) {
    cols >= 0 && rows >= 0 && |alpha| == cols * rows && |chars| == cols * rows
  }

  /** The draw call of cell (r, c), or none when its opacity is not positive. */
  function CellDraw(alpha: seq<real>, chars: seq<char>, cols: int, rows: int, s: real, r: int, c: int): seq<DrawCall>
    requires GridShape(alpha, chars, cols, rows) && 0 <= r < rows && 0 <= c < cols
  {
    var i := CellIndex(cols, rows, r, c);
    if alpha[i] > 0.0 then [DrawCall(c, r, c as real * s, r as real * s, chars[i], alpha[i])] else []
  }

  /** The draw calls of the first c cells of row r, left to right. */
  function SampleRow(alpha: seq<real>, chars: seq<char>, cols: int, rows: int, s: real, r: int, c: int): seq<DrawCall>
    requires GridShape(alpha, chars, cols, rows) && 0 <= r < rows && 0 <= c <= cols
    decreases c
  {
    if c == 0 then []
    else SampleRow(alpha, chars, cols, rows, s, r, c - 1) + CellDraw(alpha, chars, cols, rows, s, r, c - 1)
  }

  /** The draw calls of the first r rows, top to bottom. */
  function SampleRows(alpha: seq<real>, chars: seq<char>, cols: int, rows: int, s: real, r: int): seq<DrawCall>
    requires GridShape(alpha, chars, cols, rows) && 0 <= r <= rows
    decreases r
  {
    if r == 0 then []
    else SampleRows(alpha, chars, cols, rows, s, r - 1) + SampleRow(alpha, chars, cols, rows, s, r - 1, cols)
  }

  /** Everything one `draw` paints, for cell size s. */
  function Sample(alpha: seq<real>, chars: seq<char>, cols: int, rows: int, s: real): seq<DrawCall>
    requires GridShape(alpha, chars, cols, rows)
  {
    SampleRows(alpha, chars, cols, rows, s, rows)
  }

  /** A draw call that paints a visible cell of the grid with its glyph and opacity, at its pixel position. */
  predicate Faithful(d: DrawCall, alpha: seq<real>, chars: seq<char>, cols: int, rows: int, s: real)
    requires GridShape(alpha, chars, cols, rows)
  {
    && 0 <= d.row < rows && 0 <= d.col < cols
    && var i := CellIndex(cols, rows, d.row, d.col);
    && d.alpha == alpha[i] && d.alpha > 0.0 && d.glyph == chars[i]
    && d.x == d.col as real * s && d.y == d.row as real * s
  }

  lemma {:induction false} SampleRowSound(alpha: seq<real>, chars: seq<char>, cols: int, rows: int, s: real, r: int, c: int)
    requires GridShape(alpha, chars, cols, rows) && 0 <= r < rows && 0 <= c <= cols
    ensures forall d :: d in SampleRow(alpha, chars, cols, rows, s, r, c) ==>
      Faithful(d, alpha, chars, cols, rows, s) && d.row == r && d.col < c
  {
    if c > 0 {
      var left, cell := SampleRow(alpha, chars, cols, rows, s, r, c - 1), CellDraw(alpha, chars, cols, rows, s, r, c - 1);
      SampleRowSound(alpha, chars, cols, rows, s, r, c - 1);
      assert SampleRow(alpha, chars, cols, rows, s, r, c) == left + cell;
      forall d | d in left + cell
        ensures Faithful(d, alpha, chars, cols, rows, s) && d.row == r && d.col < c
      {
        if d !in left {
          assert d in cell;
        }
      }
    }
  }

  lemma {:induction false} SampleRowsSound(alpha: seq<real>, chars: seq<char>, cols: int, rows: int, s: real, r: int)
    requires GridShape(alpha, chars, cols, rows) && 0 <= r <= rows
    ensures forall d :: d in SampleRows(alpha, chars, cols, rows, s, r) ==>
      Faithful(d, alpha, chars, cols, rows, s) && d.row < r
  {
    if r > 0 {
      var above, row := SampleRows(alpha, chars, cols, rows, s, r - 1), SampleRow(alpha, chars, cols, rows, s, r - 1, cols);
      SampleRowsSound(alpha, chars, cols, rows, s, r - 1);
      SampleRowSound(alpha, chars, cols, rows, s, r - 1, cols);
      assert SampleRows(alpha, chars, cols, rows, s, r) == above + row;
      forall d | d in above + row
        ensures Faithful(d, alpha, chars, cols, rows, s) && d.row < r
      {
        if d !in above {
          assert d in row;
        }
      }
    }
  }

  /** Every draw call paints a cell whose opacity is positive, with that cell's glyph and opacity at (c * s, r * s). */
  lemma SampleSound(alpha: seq<real>, chars: seq<char>, cols: int, rows: int, s: real)
    requires GridShape(alpha, chars, cols, rows)
    ensures forall d :: d in Sample(alpha, chars, cols, rows, s) ==> Faithful(d, alpha, chars, cols, rows, s)
  {
    SampleRowsSound(alpha, chars, cols, rows, s, rows);
  }

  lemma {:induction false} SampleRowComplete(alpha: seq<real>, chars: seq<char>, cols: int, rows: int, s: real, r: int, c: int, c0: int)
    requires GridShape(alpha, chars, cols, rows) && 0 <= r < rows && 0 <= c0 < c <= cols
    requires alpha[CellIndex(cols, rows, r, c0)] > 0.0
    ensures var i := CellIndex(cols, rows, r, c0);
      DrawCall(c0, r, c0 as real * s, r as real * s, chars[i], alpha[i]) in SampleRow(alpha, chars, cols, rows, s, r, c)
  {
    var i := CellIndex(cols, rows, r, c0);
    var d := DrawCall(c0, r, c0 as real * s, r as real * s, chars[i], alpha[i]);
    assert SampleRow(alpha, chars, cols, rows, s, r, c)
      == SampleRow(alpha, chars, cols, rows, s, r, c - 1) + CellDraw(alpha, chars, cols, rows, s, r, c - 1);
    if c0 < c - 1 {
      SampleRowComplete(alpha, chars, cols, rows, s, r, c - 1, c0);
      assert d in SampleRow(alpha, chars, cols, rows, s, r, c - 1);
    } else {
      assert c - 1 == c0;
      assert CellDraw(alpha, chars, cols, rows, s, r, c0) == [d];
    }
  }

  lemma {:induction false} SampleRowsComplete(alpha: seq<real>, chars: seq<char>, cols: int, rows: int, s: real, r: int, r0: int, c0: int)
    requires GridShape(alpha, chars, cols, rows) && 0 <= r0 < r <= rows && 0 <= c0 < cols
    requires alpha[CellIndex(cols, rows, r0, c0)] > 0.0
    ensures var i := CellIndex(cols, rows, r0, c0);
      DrawCall(c0, r0, c0 as real * s, r0 as real * s, chars[i], alpha[i]) in SampleRows(alpha, chars, cols, rows, s, r)
  {
    var i := CellIndex(cols, rows, r0, c0);
    var d := DrawCall(c0, r0, c0 as real * s, r0 as real * s, chars[i], alpha[i]);
    assert SampleRows(alpha, chars, cols, rows, s, r)
      == SampleRows(alpha, chars, cols, rows, s, r - 1) + SampleRow(alpha, chars, cols, rows, s, r - 1, cols);
    if r0 < r - 1 {
      SampleRowsComplete(alpha, chars, cols, rows, s, r - 1, r0, c0);
      assert d in SampleRows(alpha, chars, cols, rows, s, r - 1);
    } else {
      SampleRowComplete(alpha, chars, cols, rows, s, r0, cols, c0);
      assert d in SampleRow(alpha, chars, cols, rows, s, r - 1, cols);
    }
  }

  /** Every cell whose opacity is positive is painted, with its glyph and opacity, at (c * s, r * s). */
  lemma SampleComplete(alpha: seq<real>, chars: seq<char>, cols: int, rows: int, s: real, r: int, c: int)
    requires GridShape(alpha, chars, cols, rows) && 0 <= r < rows && 0 <= c < cols
    requires alpha[CellIndex(cols, rows, r, c)] > 0.0
    ensures var i := CellIndex(cols, rows, r, c);
      DrawCall(c, r, c as real * s, r as real * s, chars[i], alpha[i]) in Sample(alpha, chars, cols, rows, s)
  {
    SampleRowsComplete(alpha, chars, cols, rows, s, rows, r, c);
  }
}
