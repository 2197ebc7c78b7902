/**
 * The formulas of `step` and `seedStreaks`, one cell or one column at a time:
 * opacity decay and glyph reassignment, streak activation, head advance, tail
 * lighting with max-compositing, and recycling.
 */
module Streaks {
  import opened Common
  import opened Glyphs

  /** Opacity lost per second by a cell that no tail lit last frame. */
  const DecayRate: real := 1.2

  /** The decay pass on one cell: `lit` is the cell's `active` flag from the previous frame. */
  function Decay(a: real, lit: bool, dt: real): (a': real)
    ensures lit || a <= 0.0 ==> a' == a
    ensures 0.0 <= dt ==> a' <= a
    ensures 0.0 <= a ==> 0.0 <= a'
    ensures !lit && a > 0.0 ==> (a' == 0.0 <==> a <= DecayRate * dt)
    ensures a' > 0.0 && a' != a ==> a' == a - DecayRate * dt
  {
    if !lit && a > 0.0 then Max(0.0, a - DecayRate * dt) else a
  }

  /** The decay pass turns the cell off: exactly then it is given a new glyph. */
  predicate Expires(a: real, lit: bool, dt: real) {
    !lit && a > 0.0 && Decay(a, lit, dt) == 0.0
  }

  /** The glyph of one cell after the decay pass, with draw u for `randChar`. */
  function DecayGlyph(ch: char, a: real, lit: bool, dt: real, u: real): (ch': char)
    requires InUnit(u)
    ensures Expires(a, lit, dt) ==> ch' == RandChar(u)
    ensures !Expires(a, lit, dt) ==> ch' == ch
    ensures IsGlyph(ch) ==> IsGlyph(ch')
  {
    if Expires(a, lit, dt) then RandChar(u) else ch
  }

  /** One column's streak: `heads[c]`, `tails[c]` and `activeCols[c]`. */
  datatype Streak = Streak(head: real, tail: int, on: bool)

  /**
   * What one pass over the columns shares: direction, row count, head movement
   * `max(1, speed) * dt`, activation chance `activationProb() * dt`, and the tail bounds.
   */
  datatype Pass = Pass(dir: Direction, rows: int, delta: real, chance: real, tailMin: int, tailMax: int)

  /** `Math.floor(rand(tailMin, tailMax + 1))`. */
  function TailLen(u: real, tailMin: int, tailMax: int): (n: int)
    requires InUnit(u)
    ensures tailMin <= tailMax ==> tailMin <= n <= tailMax
  {
    Rand(u, tailMin as real, (tailMax + 1) as real).Floor
  }

  /**
   * Every tail length in [tailMin, tailMax] is produced by exactly one
   * sub-interval of [0, 1) whose width is one over the number of lengths.
   */
  lemma TailLenPreimage(u: real, tailMin: int, tailMax: int, n: int)
    requires InUnit(u) && tailMin <= n <= tailMax
    ensures var w := (tailMax + 1 - tailMin) as real;
      TailLen(u, tailMin, tailMax) == n
      <==> (n - tailMin) as real / w <= u < (n - tailMin + 1) as real / w
  {
    var w := (tailMax + 1 - tailMin) as real;
    var k := (n - tailMin) as real;
    var x := u * w + tailMin as real;
    assert Rand(u, tailMin as real, (tailMax + 1) as real) == x;
    assert x.Floor == n <==> k <= u * w < k + 1.0;
    DivBounds(u, w, k);
    DivBounds(u, w, k + 1.0);
  }

  /** For w > 0: k <= u * w exactly when k / w <= u, and likewise for <. */
  lemma DivBounds(u: real, w: real, k: real)
    requires w > 0.0
    ensures k <= u * w <==> k / w <= u
    ensures u * w < k <==> u < k / w
  {
    var q := k / w;
    assert q * w == k;
    if q <= u { assert u * w - q * w == (u - q) * w; }
    if u < q { assert q * w - u * w == (q - u) * w; }
  }

  /** Where an activated streak's head starts: just above the grid going down, below it going up. */
  function EntryHead(dir: Direction, rows: int): real {
    if dir == Down then -1.0 else (rows + 1) as real
  }

  /** `seedStreaks`' start row: `-rand(0, rows)` going down, `rows + rand(0, rows)` going up. */
  function SeedHead(dir: Direction, rows: int, u: real): (h: real)
    requires InUnit(u) && rows >= 1
    ensures dir == Down ==> -(rows as real) < h <= 0.0
    ensures dir == Up ==> rows as real <= h < (2 * rows) as real
  {
    if dir == Down then -Rand(u, 0.0, rows as real) else rows as real + Rand(u, 0.0, rows as real)
  }

  /** The activation test of an inactive column, with draws for the test and for the tail length. */
  function Activate(s: Streak, p: Pass, uAct: real, uTail: real): (a: Streak)
    requires InUnit(uTail)
    ensures s.on ==> a == s
    ensures !s.on ==> (a.on <==> uAct < p.chance)
    ensures !s.on && !a.on ==> a == s
    ensures !s.on && a.on ==> a.head == EntryHead(p.dir, p.rows)
    ensures p.tailMin <= s.tail <= p.tailMax && p.tailMin <= p.tailMax ==> p.tailMin <= a.tail <= p.tailMax
  {
    if s.on then s
    else if uAct < p.chance then Streak(EntryHead(p.dir, p.rows), TailLen(uTail, p.tailMin, p.tailMax), true)
    else s
  }

  /** The head advance `heads[c] += goingDown ? deltaCells : -deltaCells`. */
  function Move(s: Streak, p: Pass): (m: Streak)
    ensures m.tail == s.tail && m.on == s.on
    ensures p.dir == Down ==> m.head - s.head == p.delta
    ensures p.dir == Up ==> s.head - m.head == p.delta
  {
    s.(head := s.head + (if p.dir == Down then p.delta else -p.delta))
  }

  /** The streak after activation and head advance: the one whose tail is lit. */
  function Moved(s: Streak, p: Pass, uAct: real, uTail: real): Streak
    requires InUnit(uTail)
  {
    Move(Activate(s, p, uAct, uTail), p)
  }

  /** `Math.floor(heads[c])`. */
  function HeadRow(s: Streak): int {
    s.head.Floor
  }

  /** The recycling test: the whole tail has left the grid on the exit side. */
  predicate Exited(s: Streak, p: Pass)
    ensures Exited(s, p) ==> forall r :: 0 <= r < p.rows ==> !Covers(s, p.dir, r)
  {
    if p.dir == Down then HeadRow(s) - s.tail > p.rows else HeadRow(s) + s.tail < 0
  }

  /** One column's streak after a pass of the column loop. */
  function NextStreak(s: Streak, p: Pass, uAct: real, uTail: real): (n: Streak)
    requires InUnit(uTail)
    ensures !s.on && !(uAct < p.chance) ==> n == s
    ensures p.tailMin <= s.tail <= p.tailMax && p.tailMin <= p.tailMax ==> p.tailMin <= n.tail <= p.tailMax
    ensures Activate(s, p, uAct, uTail).on ==> (n.on <==> !Exited(n, p))
  {
    var a := Activate(s, p, uAct, uTail);
    if !a.on then a
    else
      var m := Move(a, p);
      m.(on := !Exited(m, p))
  }

  /** The distance k of row r behind the head, along the direction of travel. */
  function Behind(s: Streak, dir: Direction, r: int): int {
    if dir == Down then HeadRow(s) - r else r - HeadRow(s)
  }

  /** Row r is one of the `tail` rows trailing the head. */
  predicate Covers(s: Streak, dir: Direction, r: int) {
    0 <= Behind(s, dir, r) < s.tail
  }

  /** `1 - (k / len)^2`: the opacity the tail gives its k-th cell behind the head. */
  function Intensity(k: int, len: int): (a: real)
    requires 0 <= k < len
    ensures 0.0 < a <= 1.0
    ensures a == 1.0 <==> k == 0
  {
    var t := k as real / len as real;
    assert 0.0 <= t < 1.0 by { DivBounds(1.0, len as real, k as real); }
    assert t * t <= t by { assert t - t * t == t * (1.0 - t); }
    assert k > 0 ==> t * t > 0.0;
    1.0 - t * t
  }

  /** The gradient fades from the head towards the end of the tail. */
  lemma {:induction false} IntensityFades(k1: int, k2: int, len: int)
    requires 0 <= k1 <= k2 < len
    ensures Intensity(k2, len) <= Intensity(k1, len)
  {
    var t1, t2 := k1 as real / len as real, k2 as real / len as real;
    assert t1 <= t2 by { DivBounds(t2, len as real, k1 as real); assert t2 * len as real == k2 as real; }
    assert t1 * t1 <= t2 * t2 by {
      assert t1 >= 0.0 by { DivBounds(0.0, len as real, k1 as real); }
      assert t2 * t2 - t1 * t1 == (t2 - t1) * (t2 + t1);
    }
  }

  /** The column's tail lights row r in this pass. */
  predicate LightsRow(s: Streak, p: Pass, uAct: real, uTail: real, r: int)
    requires InUnit(uTail)
  {
    Activate(s, p, uAct, uTail).on && Covers(Moved(s, p, uAct, uTail), p.dir, r)
  }

  /** The opacity of row r of the column after lighting, from its decayed opacity. */
  function LitAlpha(decayed: real, s: Streak, p: Pass, uAct: real, uTail: real, r: int): (a: real)
    requires InUnit(uTail)
    ensures a >= decayed
    ensures 0.0 <= decayed <= 1.0 ==> 0.0 <= a <= 1.0
    ensures !LightsRow(s, p, uAct, uTail, r) ==> a == decayed
    ensures LightsRow(s, p, uAct, uTail, r) ==>
      var m := Moved(s, p, uAct, uTail);
      a == Max(decayed, Intensity(Behind(m, p.dir, r), m.tail))
  {
    if LightsRow(s, p, uAct, uTail, r) then
      var m := Moved(s, p, uAct, uTail);
      Max(decayed, Intensity(Behind(m, p.dir, r), m.tail))
    else decayed
  }

  /** An inactive column that fails its activation draw keeps its streak and lights nothing. */
  lemma MissLeavesColumn(s: Streak, p: Pass, uAct: real, uTail: real, r: int)
    requires InUnit(uTail) && !s.on && !(uAct < p.chance)
    ensures NextStreak(s, p, uAct, uTail) == s
    ensures !LightsRow(s, p, uAct, uTail, r)
  {
  }

  /**
   * A newly activated column starts its head at the entry row with a fresh tail
   * length in [tailMin, tailMax], and moves it in the same pass.
   */
  lemma ActivationPlacesHead(s: Streak, p: Pass, uAct: real, uTail: real)
    requires InUnit(uTail) && !s.on && uAct < p.chance && p.tailMin <= p.tailMax
    ensures var m := Moved(s, p, uAct, uTail);
      && m.head == EntryHead(p.dir, p.rows) + (if p.dir == Down then p.delta else -p.delta)
      && m.tail == TailLen(uTail, p.tailMin, p.tailMax)
      && p.tailMin <= m.tail <= p.tailMax
  {
  }

  /**
   * A lit column's head moves by exactly one step in the direction of travel, its
   * tail length is kept, and it turns inactive exactly when its tail has exited.
   */
  lemma LitColumnAdvances(s: Streak, p: Pass, uAct: real, uTail: real)
    requires InUnit(uTail) && Activate(s, p, uAct, uTail).on
    ensures var a, n := Activate(s, p, uAct, uTail), NextStreak(s, p, uAct, uTail);
      && n.head == a.head + (if p.dir == Down then p.delta else -p.delta)
      && n.tail == a.tail
      && (n.on <==> !Exited(Moved(s, p, uAct, uTail), p))
  {
  }

  /** The rows a lit tail covers: the `tail` rows ending at the head row, on the side it came from. */
  lemma LitRows(s: Streak, p: Pass, uAct: real, uTail: real, r: int)
    requires InUnit(uTail) && Activate(s, p, uAct, uTail).on
    ensures var m := Moved(s, p, uAct, uTail);
      LightsRow(s, p, uAct, uTail, r) <==>
        if p.dir == Down then HeadRow(m) - m.tail < r <= HeadRow(m)
        else HeadRow(m) <= r < HeadRow(m) + m.tail
  {
  }

  /** A downward streak whose head is already a full tail plus one row below the grid is recycled. */
  lemma FarBelowRecycles(s: Streak, p: Pass, uAct: real, uTail: real)
    requires InUnit(uTail) && s.on && p.dir == Down && p.delta >= 0.0
    requires s.head >= (p.rows + s.tail + 1) as real
    ensures !NextStreak(s, p, uAct, uTail).on
  {
    assert HeadRow(Move(s, p)) >= p.rows + s.tail + 1;
  }
}
