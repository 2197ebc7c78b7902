/** Vocabulary shared by the engine and the two wrapper elements. */
module Common {

  /** An attribute that may be missing (`getAttribute` returning null). */
  datatype Option<+T> = None | Some(value: T) {
    /** The `??` operator: the value, or `default` when missing. */
    function GetOr(default: T): T {
      match this
      case Some(v) => v
      case None => default
    }
  }

  /** A JavaScript number as far as the model needs it: NaN or a finite value. */
  datatype Num = NaN | Finite(value: real)

  /** The direction in which glyphs travel. */
  datatype Direction = Up | Down

  function Max(a: real, b: real): real { if a >= b then a else b }
  function Min(a: real, b: real): real { if a <= b then a else b }
  function MaxInt(a: int, b: int): int { if a >= b then a else b }

  /** One result of `Math.random()`: a real in [0, 1). */
  predicate InUnit(u: real) { 0.0 <= u < 1.0 }

  /** An injected stream of `Math.random()` results, indexed by the slot that consumes them. */
  type Draws = nat -> real

  ghost predicate UnitDraws(d: Draws) {
    forall i: nat :: InUnit(d(i))
  }

  /**
   * The random draws one engine operation may consume: `glyph` is indexed by cell
   * (for `randChar`), `pos`, `tail` and `act` by column (start row, tail length,
   * activation test).
   */
  datatype Rng = Rng(glyph: Draws, pos: Draws, tail: Draws, act: Draws) {
    ghost predicate Valid() {
      UnitDraws(glyph) && UnitDraws(pos) && UnitDraws(tail) && UnitDraws(act)
    }
  }
}
