/**
 * The column list both wrapper elements build with `Array.from({ length: count }, ...)`:
 * one randomised `<bit-rain-column>` description per entry.
 */
module RainColumns {
  import opened Common
  import opened Glyphs

  /** One entry of the list: `left` in vw, the animation duration and delay in s, the font size in px, the blur in px. */
  datatype Column = Column(leftVw: real, duration: real, delay: real, fontSize: real, blur: real)

  /** The field ranges `Math.random()` in [0, 1) gives each entry. */
  predicate InRanges(col: Column) {
    && 0.0 <= col.leftVw < 100.0
    && 5.0 <= col.duration < 10.0
    && 0.0 <= col.delay < 10.0
    && 10.0 <= col.fontSize < 28.0
    && 0.0 <= col.blur < 2.0
  }

  /** The object literal of the mapping callback, for its five draws in the order the literal evaluates them. */
  function MakeColumn(uLeft: real, uDuration: real, uDelay: real, uFont: real, uBlur: real): (col: Column)
    requires InUnit(uLeft) && InUnit(uDuration) && InUnit(uDelay) && InUnit(uFont) && InUnit(uBlur)
    ensures InRanges(col)
  {
    ScaleWithin(uLeft, 100.0);
    ScaleWithin(uDuration, 5.0);
    ScaleWithin(uDelay, 10.0);
    ScaleWithin(uFont, 18.0);
    ScaleWithin(uBlur, 2.0);
    Column(uLeft * 100.0, 5.0 + uDuration * 5.0, uDelay * 10.0, 10.0 + uFont * 18.0, uBlur * 2.0)
  }

  /**
   * `ToLength` applied to `{ length: count }`: NaN and non-positive counts give
   * an empty list, any other count its integer part.
   */
  function ListLength(count: Num): (n: nat)
    ensures !(count.Finite? && count.value > 0.0) ==> n == 0
    ensures count.Finite? && count.value > 0.0 ==> n as real <= count.value < n as real + 1.0
  {
    match count
    case NaN => 0
    case Finite(v) => if v <= 0.0 then 0 else v.Floor
  }

  /**
   * The mapping callback runs once per index, in order, and draws five values
   * per call; so entry i consumes draws 5i to 5i + 4 of the stream u.
   */
  function MakeColumns(n: nat, u: Draws): (cols: seq<Column>)
    requires UnitDraws(u)
    ensures |cols| == n
    ensures forall i :: 0 <= i < n ==> InRanges(cols[i])
    ensures forall i :: 0 <= i < n ==>
      cols[i] == MakeColumn(u(5 * i), u(5 * i + 1), u(5 * i + 2), u(5 * i + 3), u(5 * i + 4))
  {
    seq(n, i requires 0 <= i < n => MakeColumn(u(5 * i), u(5 * i + 1), u(5 * i + 2), u(5 * i + 3), u(5 * i + 4)))
  }

  /** Distinct entries read disjoint draws: changing a draw of entry j changes no other entry. */
  lemma EntriesIndependent(n: nat, u: Draws, v: Draws, j: nat)
    requires UnitDraws(u) && UnitDraws(v) && j < n
    requires forall k: nat :: (k < 5 * j || k >= 5 * j + 5) ==> u(k) == v(k)
    ensures forall i :: 0 <= i < n && i != j ==> MakeColumns(n, u)[i] == MakeColumns(n, v)[i]
  {
    forall i | 0 <= i < n && i != j
      ensures MakeColumns(n, u)[i] == MakeColumns(n, v)[i]
    {
      if i < j {
        assert 5 * i + 4 < 5 * j;
      } else {
        assert 5 * i >= 5 * j + 5;
      }
    }
  }
}
