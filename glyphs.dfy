/** The random helpers of the engine: `rand` and `randChar`. */
module Glyphs {
  import opened Common

  /** Number of symbols in the alphabet: ten digits, 26 upper-case and 26 lower-case letters. */
  const AlphabetSize: int := 62

  /** Membership in the alphabet [0-9A-Za-z]. */
  predicate IsGlyph(ch: char) {
    ('0' <= ch <= '9') || ('A' <= ch <= 'Z') || ('a' <= ch <= 'z')
  }

  /** The code-point arithmetic of `randChar`: index n of [0, 62) to its symbol. */
  function GlyphOf(n: int): (ch: char)
    requires 0 <= n < AlphabetSize
    ensures IsGlyph(ch)
    ensures n < 10 <==> '0' <= ch <= '9'
    ensures 10 <= n < 36 <==> 'A' <= ch <= 'Z'
    ensures 36 <= n <==> 'a' <= ch <= 'z'
  {
    if n < 10 then (48 + n) as char
    else if n < 36 then (65 + (n - 10)) as char
    else (97 + (n - 36)) as char
  }

  /** The position of a symbol in the alphabet; the inverse of GlyphOf. */
  function GlyphIndex(ch: char): (n: int)
    requires IsGlyph(ch)
    ensures 0 <= n < AlphabetSize && GlyphOf(n) == ch
  {
    if ch <= '9' then ch as int - 48
    else if ch <= 'Z' then ch as int - 65 + 10
    else ch as int - 97 + 36
  }

  /** GlyphOf and GlyphIndex are mutually inverse, so GlyphOf is a bijection from [0, 62) onto the alphabet. */
  lemma GlyphBijection(n: int, ch: char)
    requires 0 <= n < AlphabetSize && IsGlyph(ch)
    ensures GlyphIndex(GlyphOf(n)) == n
    ensures GlyphOf(n) == ch <==> n == GlyphIndex(ch)
  {
  }

  /** `rand(min, max)`: the draw u scaled onto [min, max). */
  function Rand(u: real, lo: real, hi: real): (r: real)
    requires InUnit(u)
    ensures lo <= hi ==> lo <= r <= hi
    ensures lo < hi ==> r < hi
    ensures lo == hi ==> r == lo
  {
    var w := hi - lo;
    ScaleWithin(u, w);
    u * w + lo
  }

  /** Scaling a width w >= 0 by a draw keeps the product in [0, w], and below w when w > 0. */
  lemma ScaleWithin(u: real, w: real)
    requires InUnit(u)
    ensures w >= 0.0 ==> 0.0 <= u * w <= w
    ensures w > 0.0 ==> u * w < w
  {
    if w >= 0.0 {
      assert w - u * w == (1.0 - u) * w;
      assert (1.0 - u) * w >= 0.0;
    }
    if w > 0.0 {
      assert (1.0 - u) * w > 0.0;
    }
  }

  /** `Math.floor(Math.random() * 62)`. */
  function DrawIndex(u: real): (n: int)
    requires InUnit(u)
    ensures 0 <= n < AlphabetSize
  {
    (u * 62.0).Floor
  }

  /** `randChar()` for the draw u. */
  function RandChar(u: real): (ch: char)
    requires InUnit(u)
    ensures IsGlyph(ch)
  {
    GlyphOf(DrawIndex(u))
  }

  /**
   * Each symbol is produced by exactly one sub-interval of [0, 1) of width 1/62,
   * so a uniform draw picks every symbol with the same chance.
   */
  lemma RandCharPreimage(u: real, n: int)
    requires InUnit(u) && 0 <= n < AlphabetSize
    ensures RandChar(u) == GlyphOf(n) <==> n as real / 62.0 <= u < (n + 1) as real / 62.0
  {
    GlyphBijection(DrawIndex(u), GlyphOf(n));
    GlyphBijection(n, GlyphOf(n));
  }
}
