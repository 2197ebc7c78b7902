/**
 * `CharamaskEngine`: the grid buffers, the per-column streaks, the frame step,
 * the sampling `draw`, the option hot-update and the scheduler flags.
 */
module Charamask {
  import opened Common
  import opened Glyphs
  import opened Geometry
  import opened Activation
  import opened Streaks
  import opened Sampling
  import opened Scheduler

  /** `CharamaskOptions`. */
  datatype Options = Options(
    direction: Direction, color: string, density: real, cellSize: real,
    speed: real, tailMin: int, tailMax: int)

  /** The engine's buffers as values: the grid geometry, the per-cell and the per-column arrays. */
  datatype Buffers = Buffers(
    cols: int, rows: int, alpha: seq<real>, chars: seq<char>, active: seq<bool>,
    heads: seq<real>, tails: seq<int>, on: seq<bool>)
  {
    predicate Shaped() {
      && cols >= 1 && rows >= 1
      && |alpha| == cols * rows && |chars| == cols * rows && |active| == cols * rows
      && |heads| == cols && |tails| == cols && |on| == cols
    }

    /** Column c's streak. */
    function StreakAt(c: int): Streak
      requires Shaped() && 0 <= c < cols
    {
      Streak(heads[c], tails[c], on[c])
    }
  }

  /**
   * One `step(dt)` takes the buffers o to n: every column's streak moves on by
   * `NextStreak`, every cell first decays and is then lit by its column's streak,
   * and a cell that faded out draws a new glyph.
   */
  ghost predicate StepRel(o: Buffers, n: Buffers, p: Pass, dt: real, rng: Rng)
    requires rng.Valid()
  {
    && o.Shaped() && n.Shaped() && n.cols == o.cols && n.rows == o.rows
    && (forall c :: 0 <= c < o.cols ==>
          n.StreakAt(c) == NextStreak(o.StreakAt(c), p, rng.act(c), rng.tail(c)))
    && (forall r, c :: 0 <= r < o.rows && 0 <= c < o.cols ==>
          var i := CellIndex(o.cols, o.rows, r, c);
          && n.alpha[i] == LitAlpha(Decay(o.alpha[i], o.active[i], dt), o.StreakAt(c), p, rng.act(c), rng.tail(c), r)
          && n.active[i] == LightsRow(o.StreakAt(c), p, rng.act(c), rng.tail(c), r)
          && n.chars[i] == DecayGlyph(o.chars[i], o.alpha[i], o.active[i], dt, rng.glyph(i)))
  }

  /** A step keeps every opacity in [0, 1]. */
  lemma StepKeepsUnit(o: Buffers, n: Buffers, p: Pass, dt: real, rng: Rng)
    requires rng.Valid() && StepRel(o, n, p, dt, rng) && 0.0 <= dt
    requires forall i :: 0 <= i < |o.alpha| ==> 0.0 <= o.alpha[i] <= 1.0
    ensures forall i :: 0 <= i < |n.alpha| ==> 0.0 <= n.alpha[i] <= 1.0
  {
    forall i | 0 <= i < |n.alpha|
      ensures 0.0 <= n.alpha[i] <= 1.0
    {
      CellIndexOnto(o.cols, o.rows, i);
    }
  }

  class CharamaskEngine {
    var opts: Options
    /** The exponent curve `x => Math.pow(x, 0.9)` of `activationProb`. */
    const pow: real -> real
    /** The pending animation-frame request, `null` when none. */
    var raf: Option<int>
    var paused: bool
    var dpr: int
    /** `canvas.width` and `canvas.height`: the backing store in device pixels. */
    var canvasW: int
    var canvasH: int
    var cols: int
    var rows: int
    /** Per-cell buffers, row-major, of length cols * rows. */
    var chars: array<char>
    var alpha: array<real>
    var active: array<bool>
    /** Per-column streak buffers, of length cols. */
    var heads: array<real>
    var tails: array<int>
    var activeCols: array<bool>
    var last: real

    /** Buffer lengths match the geometry, and buffers of the same element type are distinct. */
    ghost predicate Shape()
      reads this`cols, this`rows, this`dpr, this`chars, this`alpha, this`active, this`heads, this`tails, this`activeCols
    {
      && cols >= 1 && rows >= 1 && dpr >= 1
      && chars.Length == cols * rows && alpha.Length == cols * rows && active.Length == cols * rows
      && heads.Length == cols && tails.Length == cols && activeCols.Length == cols
      && heads != alpha && activeCols != active
    }

    ghost predicate AlphaInUnit()
      reads this`alpha, alpha
    {
      forall i :: 0 <= i < alpha.Length ==> 0.0 <= alpha[i] <= 1.0
    }

    ghost predicate GlyphsInAlphabet()
      reads this`chars, chars
    {
      forall i :: 0 <= i < chars.Length ==> IsGlyph(chars[i])
    }

    /** The engine invariant: shape, opacities in [0, 1], glyphs from the alphabet. */
    ghost predicate Valid()
      reads this`cols, this`rows, this`dpr, this`chars, this`alpha, this`active, this`heads, this`tails, this`activeCols, alpha, chars
    {
      Shape() && AlphaInUnit() && GlyphsInAlphabet() && PowLike(pow)
    }

    /** Column c's streak. */
    function StreakAt(c: int): Streak
      reads this`cols, this`rows, this`dpr, this`chars, this`alpha, this`active, this`heads, this`tails, this`activeCols, heads, tails, activeCols
      requires Shape() && 0 <= c < cols
    {
      Streak(heads[c], tails[c], activeCols[c])
    }

    /** What one `step(dt)` shares among the columns. */
    function PassFor(dt: real): Pass
      reads this`opts, this`rows
      requires PowLike(pow)
    {
      Pass(opts.direction, rows, Max(1.0, opts.speed) * dt, ActivationProb(opts.density, pow) * dt,
           opts.tailMin, opts.tailMax)
    }

    /** The streak buffers hold what `seedStreaks` draws for every column. */
    ghost predicate Seeded(rng: Rng)
      reads this`opts, this`cols, this`rows, this`heads, this`tails, this`activeCols, heads, tails, activeCols
      requires rng.Valid()
    {
      && rows >= 1 && PowLike(pow)
      && heads.Length == cols && tails.Length == cols && activeCols.Length == cols
      && forall c :: 0 <= c < cols ==>
        && heads[c] == SeedHead(opts.direction, rows, rng.pos(c))
        && tails[c] == TailLen(rng.tail(c), opts.tailMin, opts.tailMax)
        && activeCols[c] == (rng.act(c) < ActivationProb(opts.density, pow))
    }

    /** The cell buffers are as a reallocation leaves them: all dark, none lit, fresh glyphs. */
    ghost predicate Cleared(rng: Rng)
      reads this`chars, this`alpha, this`active, chars, alpha, active
      requires rng.Valid()
    {
      && chars.Length == alpha.Length == active.Length
      && forall i :: 0 <= i < alpha.Length ==>
        alpha[i] == 0.0 && !active[i] && chars[i] == RandChar(rng.glyph(i))
    }

    /** The geometry and the cell buffers as a reallocating resize for `surf` leaves them. */
    ghost predicate GridFor(surf: Surface, rng: Rng)
      reads this`opts, this`cols, this`rows, this`dpr, this`chars, this`alpha, this`active, this`heads, this`tails, this`activeCols, this`canvasW, this`canvasH, chars, alpha, active
      requires rng.Valid()
    {
      && dpr == DprOf(surf.ratio)
      && canvasW == BackingPx(surf.cssW, dpr) && canvasH == BackingPx(surf.cssH, dpr)
      && cols == Cells(surf.cssW, CellPx(opts.cellSize)) && rows == Cells(surf.cssH, CellPx(opts.cellSize))
      && Cleared(rng)
    }

    /** A reallocating resize happened: new cell buffers, laid out for `surf`. */
    twostate predicate GridReallocated(surf: Surface, rng: Rng)
      reads this`opts, this`cols, this`rows, this`dpr, this`chars, this`alpha, this`active, this`heads, this`tails, this`activeCols, this`canvasW, this`canvasH, chars, alpha, active
      requires rng.Valid()
    {
      fresh(chars) && fresh(alpha) && fresh(active) && GridFor(surf, rng)
    }

    /** The streak buffers are new and seeded. */
    twostate predicate Reseeded(rng: Rng)
      reads this`opts, this`cols, this`rows, this`heads, this`tails, this`activeCols, heads, tails, activeCols
      requires rng.Valid()
    {
      fresh(heads) && fresh(tails) && fresh(activeCols) && Seeded(rng)
    }

    /** The buffers as values. */
    ghost function Snap(): (b: Buffers)
      reads this`cols, this`rows, this`chars, this`alpha, this`active, this`heads, this`tails, this`activeCols
      reads chars, alpha, active, heads, tails, activeCols
    {
      Buffers(cols, rows, alpha[..], chars[..], active[..], heads[..], tails[..], activeCols[..])
    }

    /** `new CharamaskEngine(canvas, options)`: attaches the canvas, which resizes hard. */
    constructor (options: Options, pow: real -> real, surf: Surface, rng: Rng)
      requires PowLike(pow) && rng.Valid()
      ensures Valid() && opts == options && this.pow == pow
      ensures raf.None? && !paused && last == 0.0
      ensures GridFor(surf, rng) && Seeded(rng)
    {
      opts := options;
      this.pow := pow;
      raf := None;
      paused := false;
      last := 0.0;
      // `attach` resizes hard, so none of `resize`'s early return: the geometry,
      // the cell buffers and the streaks are set up for `surf` right away.
      var d := DprOf(surf.ratio);
      var s := CellPx(options.cellSize);
      var c, r := Cells(surf.cssW, s), Cells(surf.cssH, s);
      MulNonneg(c, r);
      dpr, canvasW, canvasH := d, BackingPx(surf.cssW, d), BackingPx(surf.cssH, d);
      cols, rows := c, r;
      var ch, al, ac := NewCells(c * r, rng);
      var h, l, on := SeedBuffers(c, options.direction, r, options.tailMin, options.tailMax,
                                  ActivationProb(options.density, pow), rng);
      chars, alpha, active := ch, al, ac;
      heads, tails, activeCols := h, l, on;
    }

    /** `attach(canvas)`: rebinding the surface is a hard resize. */
    method Attach(surf: Surface, rng: Rng)
      requires PowLike(pow) && rng.Valid()
      modifies this`dpr, this`canvasW, this`canvasH, this`cols, this`rows,
               this`chars, this`alpha, this`active, this`heads, this`tails, this`activeCols
      ensures Valid() && GridFor(surf, rng) && Seeded(rng)
      ensures GridReallocated(surf, rng) && Reseeded(rng)
    {
      Resize(true, surf, rng);
    }

    /**
     * `resize(hard)`: a non-hard call for an unchanged backing store and dpr
     * returns early; otherwise the geometry is recomputed, every buffer is
     * reallocated and the streaks are seeded again.
     */
    method Resize(hard: bool, surf: Surface, rng: Rng)
      requires (hard || Valid()) && PowLike(pow) && rng.Valid()
      modifies this`dpr, this`canvasW, this`canvasH, this`cols, this`rows,
               this`chars, this`alpha, this`active, this`heads, this`tails, this`activeCols
      ensures Valid()
      ensures ResizeSkipped(hard, old(canvasW), old(canvasH), old(dpr), surf) ==> unchanged(this)
      ensures !ResizeSkipped(hard, old(canvasW), old(canvasH), old(dpr), surf) ==>
        GridReallocated(surf, rng) && Reseeded(rng)
    {
      if ResizeSkipped(hard, canvasW, canvasH, dpr, surf) {
        return;
      }
      Reallocate(surf, rng);
    }

    /** The body of `resize` past its early return. */
    method Reallocate(surf: Surface, rng: Rng)
      requires PowLike(pow) && rng.Valid()
      modifies this`dpr, this`canvasW, this`canvasH, this`cols, this`rows,
               this`chars, this`alpha, this`active, this`heads, this`tails, this`activeCols
      ensures Valid() && GridReallocated(surf, rng) && Reseeded(rng)
    {
      var d := DprOf(surf.ratio);
      var s := CellPx(opts.cellSize);
      var c, r := Cells(surf.cssW, s), Cells(surf.cssH, s);
      MulNonneg(c, r);
      dpr, canvasW, canvasH := d, BackingPx(surf.cssW, d), BackingPx(surf.cssH, d);
      cols, rows := c, r;
      chars, alpha, active := NewCells(c * r, rng);
      assert GridFor(surf, rng) && AlphaInUnit() && GlyphsInAlphabet();
      SeedStreaks(rng);
    }

    /** The allocation and glyph loop of `resize`: n dark, unlit cells with freshly drawn glyphs. */
    static method NewCells(n: nat, rng: Rng) returns (ch: array<char>, al: array<real>, ac: array<bool>)
      requires rng.Valid()
      ensures fresh(ch) && fresh(al) && fresh(ac)
      ensures ch.Length == n && al.Length == n && ac.Length == n
      ensures forall i :: 0 <= i < n ==> al[i] == 0.0 && !ac[i] && ch[i] == RandChar(rng.glyph(i))
    {
      ch := new char[n];
      al := new real[n](_ => 0.0);
      ac := new bool[n](_ => false);
      for i := 0 to n
        modifies ch
        invariant forall j :: 0 <= j < i ==> ch[j] == RandChar(rng.glyph(j))
      {
        ch[i] := RandChar(rng.glyph(i));
      }
    }

    /** `seedStreaks()`: new streak buffers, each column drawn a start row, a tail length and an initial activation. */
    method SeedStreaks(rng: Rng)
      requires rows >= 1 && cols >= 0 && PowLike(pow) && rng.Valid()
      modifies this`heads, this`tails, this`activeCols
      ensures Reseeded(rng)
    {
      heads, tails, activeCols := SeedBuffers(cols, opts.direction, rows, opts.tailMin, opts.tailMax,
                                              ActivationProb(opts.density, pow), rng);
    }

    /** The loop of `seedStreaks` for `cols` columns, with `p` the value of `activationProb()`. */
    static method SeedBuffers(cols: nat, dir: Direction, rows: int, tailMin: int, tailMax: int, p: real, rng: Rng)
      returns (h: array<real>, l: array<int>, on: array<bool>)
      requires rows >= 1 && rng.Valid()
      ensures fresh(h) && fresh(l) && fresh(on)
      ensures h.Length == cols && l.Length == cols && on.Length == cols
      ensures forall c :: 0 <= c < cols ==>
        && h[c] == SeedHead(dir, rows, rng.pos(c))
        && l[c] == TailLen(rng.tail(c), tailMin, tailMax)
        && on[c] == (rng.act(c) < p)
    {
      h := new real[cols](_ => 0.0);
      l := new int[cols](_ => 0);
      on := new bool[cols](_ => false);
      var goingDown := dir == Down;
      for c := 0 to cols
        modifies h, l, on
        invariant forall j :: 0 <= j < c ==>
          && h[j] == SeedHead(dir, rows, rng.pos(j))
          && l[j] == TailLen(rng.tail(j), tailMin, tailMax)
          && on[j] == (rng.act(j) < p)
      {
        h[c] := if goingDown then -Rand(rng.pos(c), 0.0, rows as real)
                else rows as real + Rand(rng.pos(c), 0.0, rows as real);
        l[c] := Rand(rng.tail(c), tailMin as real, (tailMax + 1) as real).Floor;
        on[c] := rng.act(c) < p;
      }
    }

    /**
     * `setOptions(next)`: the options are replaced; the grid is reallocated only
     * when `cellSize` changed and the streaks are seeded again only when
     * `direction` changed (or by that reallocation).
     */
    method SetOptions(next: Options, surf: Surface, rng: Rng, reseed: Rng)
      requires Valid() && rng.Valid() && reseed.Valid()
      modifies this`opts, this`dpr, this`canvasW, this`canvasH, this`cols, this`rows,
               this`chars, this`alpha, this`active, this`heads, this`tails, this`activeCols
      ensures Valid() && opts == next
      ensures old(opts).cellSize != next.cellSize ==> GridReallocated(surf, rng)
      ensures old(opts).cellSize == next.cellSize ==>
        && dpr == old(dpr) && canvasW == old(canvasW) && canvasH == old(canvasH)
        && cols == old(cols) && rows == old(rows)
        && chars == old(chars) && alpha == old(alpha) && active == old(active)
      ensures old(opts).direction != next.direction ==> Reseeded(reseed)
      ensures old(opts).direction == next.direction && old(opts).cellSize != next.cellSize ==> Reseeded(rng)
      ensures old(opts).direction == next.direction && old(opts).cellSize == next.cellSize ==>
        heads == old(heads) && tails == old(tails) && activeCols == old(activeCols)
    {
      var cellChanged := next.cellSize != opts.cellSize;
      var dirChanged := next.direction != opts.direction;
      opts := next;
      if cellChanged {
        Resize(true, surf, rng);
      }
      if dirChanged {
        SeedStreaks(reseed);
      }
    }

    /** `start()`: a no-op while a frame is pending; otherwise records the time and requests a frame. */
    method Start(now: real, handle: int)
      modifies this`last, this`raf
      ensures old(raf).Some? ==> raf == old(raf) && last == old(last)
      ensures old(raf).None? ==> raf == Some(handle) && last == now
    {
      if raf.Some? {
        return;
      }
      last := now;
      raf := Some(handle);
    }

    /** `pause()`. */
    method Pause()
      modifies this`paused
      ensures paused
    {
      paused := true;
    }

    /** `resume()`. */
    method Resume()
      modifies this`paused
      ensures !paused
    {
      paused := false;
    }

    /** `stop()`: cancels the pending frame. */
    method Stop()
      modifies this`raf
      ensures raf.None?
    {
      raf := None;
    }

    /**
     * One run of the `tick` closure at frame time t, re-armed with `handle`.
     * Paused, it only records t; otherwise it steps by the clamped time and
     * returns what `draw` paints.
     */
    method Tick(t: real, handle: int, rng: Rng) returns (frame: Option<seq<DrawCall>>)
      requires Valid() && raf.Some? && rng.Valid()
      modifies this`last, this`raf, alpha, chars, active, heads, tails, activeCols
      ensures Valid() && last == t && raf == Some(handle)
      ensures old(paused) ==> frame.None? && unchanged(alpha, chars, active, heads, tails, activeCols)
      ensures !old(paused) ==>
        && StepRel(old(Snap()), Snap(), PassFor(ClampDt(t, old(last))), ClampDt(t, old(last)), rng)
        && frame == Some(Sample(alpha[..], chars[..], cols, rows, CellPx(opts.cellSize)))
    {
      if paused {
        last := t;
        raf := Some(handle);
        return None;
      }
      var calls := Frame(t, handle, rng);
      frame := Some(calls);
    }

    /** The running branch of the tick closure: `step(dt)` for the clamped elapsed time, `draw()`, then the next request. */
    method Frame(t: real, handle: int, rng: Rng) returns (calls: seq<DrawCall>)
      requires Valid() && rng.Valid()
      modifies this`last, this`raf, alpha, chars, active, heads, tails, activeCols
      ensures Valid() && last == t && raf == Some(handle)
      ensures StepRel(old(Snap()), Snap(), PassFor(ClampDt(t, old(last))), ClampDt(t, old(last)), rng)
      ensures calls == Sample(alpha[..], chars[..], cols, rows, CellPx(opts.cellSize))
    {
      var dt := ClampDt(t, last);
      Step(dt, rng);
      ghost var n, p := Snap(), PassFor(dt);
      calls := Draw();
      last := t;
      raf := Some(handle);
      assert Snap() == n && PassFor(dt) == p;
    }

    /** `step(dt)`: the decay pass over the cells, then the pass over the columns. */
    method Step(dt: real, rng: Rng)
      requires Valid() && 0.0 <= dt && rng.Valid()
      modifies alpha, chars, active, heads, tails, activeCols
      ensures Valid() && StepRel(old(Snap()), Snap(), PassFor(dt), dt, rng)
    {
      ghost var o := Snap();
      DecayPass(dt, rng.glyph);
      StreakPass(PassFor(dt), rng);
      assert StepRel(o, Snap(), PassFor(dt), dt, rng);
      StepKeepsUnit(o, Snap(), PassFor(dt), dt, rng);
      assert AlphaInUnit();
    }

    /** The first loop of `step`: fade unlit cells, give expired ones a new glyph, clear every lit flag. */
    method DecayPass(dt: real, glyph: Draws)
      requires Shape() && UnitDraws(glyph)
      modifies alpha, chars, active
      ensures forall i :: 0 <= i < alpha.Length ==>
        && alpha[i] == Decay(old(alpha[i]), old(active[i]), dt)
        && chars[i] == DecayGlyph(old(chars[i]), old(alpha[i]), old(active[i]), dt, glyph(i))
        && !active[i]
    {
      for i := 0 to alpha.Length
        invariant forall j :: 0 <= j < i ==>
          && alpha[j] == Decay(old(alpha[j]), old(active[j]), dt)
          && chars[j] == DecayGlyph(old(chars[j]), old(alpha[j]), old(active[j]), dt, glyph(j))
          && !active[j]
        invariant forall j :: i <= j < alpha.Length ==>
          alpha[j] == old(alpha[j]) && chars[j] == old(chars[j]) && active[j] == old(active[j])
      {
        if !active[i] && alpha[i] > 0.0 {
          alpha[i] := Max(0.0, alpha[i] - DecayRate * dt);
          if alpha[i] == 0.0 {
            chars[i] := RandChar(glyph(i));
          }
        }
        active[i] := false;
      }
    }

    /** The second loop of `step`: every column in turn, on cells whose lit flags are all clear. */
    method StreakPass(p: Pass, rng: Rng)
      requires Shape() && rng.Valid() && p.rows == rows
      requires forall i :: 0 <= i < active.Length ==> !active[i]
      modifies heads, tails, activeCols, alpha, active
      ensures forall c :: 0 <= c < cols ==> StreakAt(c) == NextStreak(old(StreakAt(c)), p, rng.act(c), rng.tail(c))
      ensures forall r, c :: 0 <= r < rows && 0 <= c < cols ==>
        var i := CellIndex(cols, rows, r, c);
        && alpha[i] == LitAlpha(old(alpha[i]), old(StreakAt(c)), p, rng.act(c), rng.tail(c), r)
        && active[i] == LightsRow(old(StreakAt(c)), p, rng.act(c), rng.tail(c), r)
    {
      for c := 0 to cols
        invariant forall j :: 0 <= j < c ==> StreakAt(j) == NextStreak(old(StreakAt(j)), p, rng.act(j), rng.tail(j))
        invariant forall j :: c <= j < cols ==> StreakAt(j) == old(StreakAt(j))
        invariant forall r, j :: 0 <= r < rows && 0 <= j < cols ==>
          var i := CellIndex(cols, rows, r, j);
          && alpha[i] == (if j < c then LitAlpha(old(alpha[i]), old(StreakAt(j)), p, rng.act(j), rng.tail(j), r)
                          else old(alpha[i]))
          && active[i] == (j < c && LightsRow(old(StreakAt(j)), p, rng.act(j), rng.tail(j), r))
      {
        AdvanceColumn(c, p, rng.act(c), rng.tail(c));
      }
    }

    /** One iteration of the column loop: activation test, head advance, tail lighting, recycling. */
    method AdvanceColumn(c: int, p: Pass, uAct: real, uTail: real)
      requires Shape() && 0 <= c < cols && InUnit(uTail) && p.rows == rows
      modifies heads, tails, activeCols, alpha, active
      ensures StreakAt(c) == NextStreak(old(StreakAt(c)), p, uAct, uTail)
      ensures forall j :: 0 <= j < cols && j != c ==> StreakAt(j) == old(StreakAt(j))
      ensures forall r :: 0 <= r < rows ==>
        var i := CellIndex(cols, rows, r, c);
        && alpha[i] == LitAlpha(old(alpha[i]), old(StreakAt(c)), p, uAct, uTail, r)
        && active[i] == (LightsRow(old(StreakAt(c)), p, uAct, uTail, r) || old(active[i]))
      ensures forall r, j :: 0 <= r < rows && 0 <= j < cols && j != c ==>
        var i := CellIndex(cols, rows, r, j);
        alpha[i] == old(alpha[i]) && active[i] == old(active[i])
    {
      if !activeCols[c] {
        if uAct < p.chance {
          activeCols[c] := true;
          tails[c] := TailLen(uTail, p.tailMin, p.tailMax);
          heads[c] := EntryHead(p.dir, rows);
        } else {
          return;
        }
      }
      heads[c] := heads[c] + (if p.dir == Down then p.delta else -p.delta);
      var headRow := heads[c].Floor;
      var len := tails[c];
      LightTail(c, Streak(heads[c], len, true), p.dir);
      if p.dir == Down && headRow - len > rows {
        activeCols[c] := false;
      } else if p.dir == Up && headRow + len < 0 {
        activeCols[c] := false;
      }
    }

    /** The tail loop: the k-th row behind the head, if inside the grid, is raised to `1 - (k/len)^2` and marked lit. */
    method LightTail(c: int, m: Streak, dir: Direction)
      requires Shape() && 0 <= c < cols
      modifies alpha, active
      ensures forall r :: 0 <= r < rows ==>
        var i := CellIndex(cols, rows, r, c);
        && alpha[i] == (if Covers(m, dir, r) then Max(old(alpha[i]), Intensity(Behind(m, dir, r), m.tail))
                        else old(alpha[i]))
        && active[i] == (Covers(m, dir, r) || old(active[i]))
      ensures forall r, j :: 0 <= r < rows && 0 <= j < cols && j != c ==>
        var i := CellIndex(cols, rows, r, j);
        alpha[i] == old(alpha[i]) && active[i] == old(active[i])
    {
      var headRow := m.head.Floor;
      var len := m.tail;
      var k := 0;
      while k < len
        invariant 0 <= k <= MaxInt(len, 0)
        invariant forall r :: 0 <= r < rows ==>
          var i := CellIndex(cols, rows, r, c);
          var b := Behind(m, dir, r);
          && alpha[i] == (if 0 <= b < k then Max(old(alpha[i]), Intensity(b, len)) else old(alpha[i]))
          && active[i] == ((0 <= b < k) || old(active[i]))
        invariant forall r, j :: 0 <= r < rows && 0 <= j < cols && j != c ==>
          var i := CellIndex(cols, rows, r, j);
          alpha[i] == old(alpha[i]) && active[i] == old(active[i])
      {
        var r := if dir == Down then headRow - k else headRow + k;
        if 0 <= r < rows {
          var idx := CellIndex(cols, rows, r, c);
          forall r', j | 0 <= r' < rows && 0 <= j < cols
            ensures CellIndex(cols, rows, r', j) == idx ==> r' == r && j == c
          {
            CellIndexInjective(cols, rows, r', j, r, c);
          }
          alpha[idx] := Max(alpha[idx], Intensity(k, len));
          active[idx] := true;
        }
        k := k + 1;
      }
    }

    /** `draw()` as the sequence of draw calls of its two loops, rows outside, columns inside. */
    method Draw() returns (calls: seq<DrawCall>)
      requires Shape()
      ensures calls == Sample(alpha[..], chars[..], cols, rows, CellPx(opts.cellSize))
    {
      var s := CellPx(opts.cellSize);
      calls := [];
      for r := 0 to rows
        invariant calls == SampleRows(alpha[..], chars[..], cols, rows, s, r)
      {
        var inRow := PaintRow(alpha, chars, cols, rows, s, r);
        calls := calls + inRow;
      }
    }

    /** The inner loop of `draw()`: the draw calls of row r, left to right. */
    static method PaintRow(alpha: array<real>, chars: array<char>, cols: int, rows: int, s: real, r: int)
      returns (inRow: seq<DrawCall>)
      requires GridShape(alpha[..], chars[..], cols, rows) && 0 <= r < rows
      ensures inRow == SampleRow(alpha[..], chars[..], cols, rows, s, r, cols)
    {
      ghost var A, C := alpha[..], chars[..];
      inRow := [];
      for c := 0 to cols
        invariant inRow == SampleRow(A, C, cols, rows, s, r, c)
      {
        var i := CellIndex(cols, rows, r, c);
        var a := alpha[i];
        assert A[i] == a && C[i] == chars[i];
        if a > 0.0 {
          inRow := inRow + [DrawCall(c, r, c as real * s, r as real * s, chars[i], a)];
        } else {
          assert inRow + CellDraw(A, C, cols, rows, s, r, c) == inRow;
        }
      }
    }
  }
}
