/**
 * `<matrixx-canvas>`: reading the element's attributes into the column list,
 * direction and colour it renders.
 */
module MatrixxCanvas {
  import opened Common
  import opened RainColumns

  /** `isBooleanTrue`: a missing attribute counts as true, a present one only as "true" or "1". */
  predicate IsBooleanTrue(attr: Option<string>) {
    attr.None? || attr.value == "true" || attr.value == "1"
  }

  /** The spellings that switch the limit off, and the ones that keep it on. */
  lemma IsBooleanTrueCases(attr: Option<string>)
    ensures attr == None ==> IsBooleanTrue(attr)
    ensures attr == Some("false") || attr == Some("0") || attr == Some("") ==> !IsBooleanTrue(attr)
    ensures attr.Some? ==> (IsBooleanTrue(attr) <==> attr.value == "true" || attr.value == "1")
  {
  }

  /** `directionAttr === 'down' ? 'down' : 'up'` after `?? 'up'`. */
  function DirectionOf(attr: Option<string>): (d: Direction)
    ensures d == Down <==> attr == Some("down")
  {
    if attr.GetOr("up") == "down" then Down else Up
  }

  /** The colour handed to every column, `#00ff00` when the attribute is missing. */
  const DefaultColor: string := "#00ff00"

  function ColorOf(attr: Option<string>): string {
    attr.GetOr(DefaultColor)
  }

  /**
   * The code points `String.prototype.trim` strips: ECMAScript's WhiteSpace
   * (tab, vertical tab, form feed, space, no-break space, the byte order mark
   * and the space separators of Unicode category Zs) and LineTerminator.
   */
  const JsSpaces: set<char> := {
    '\U{0009}', '\U{000A}', '\U{000B}', '\U{000C}', '\U{000D}', '\U{0020}', '\U{00A0}', '\U{1680}',
    '\U{2000}', '\U{2001}', '\U{2002}', '\U{2003}', '\U{2004}', '\U{2005}', '\U{2006}', '\U{2007}',
    '\U{2008}', '\U{2009}', '\U{200A}', '\U{2028}', '\U{2029}', '\U{202F}', '\U{205F}', '\U{3000}',
    '\U{FEFF}'
  }

  predicate IsJsSpace(ch: char) {
    ch in JsSpaces
  }

  /** Scanning up from i: the first index that does not hold white space, or |s|. */
  function SkipSpacesUp(s: string, i: nat): (j: nat)
    requires i <= |s|
    ensures i <= j <= |s|
    ensures forall k :: i <= k < j ==> IsJsSpace(s[k])
    ensures j == |s| || !IsJsSpace(s[j])
    decreases |s| - i
  {
    if i < |s| && IsJsSpace(s[i]) then SkipSpacesUp(s, i + 1) else i
  }

  /** Scanning down from j, not below lo: the end of the last character that is not white space, or lo. */
  function SkipSpacesDown(s: string, lo: nat, j: nat): (e: nat)
    requires lo <= j <= |s|
    ensures lo <= e <= j
    ensures forall k :: e <= k < j ==> IsJsSpace(s[k])
    ensures e == lo || !IsJsSpace(s[e - 1])
    decreases j
  {
    if j > lo && IsJsSpace(s[j - 1]) then SkipSpacesDown(s, lo, j - 1) else j
  }

  /** `s.trim()`: the part between the leading and the trailing run of white space. */
  function Trim(s: string): (t: string)
    ensures |t| <= |s|
    ensures t == [] || (!IsJsSpace(t[0]) && !IsJsSpace(t[|t| - 1]))
    ensures s == [] || (!IsJsSpace(s[0]) && !IsJsSpace(s[|s| - 1])) ==> t == s
  {
    var i := SkipSpacesUp(s, 0);
    s[i..SkipSpacesDown(s, i, |s|)]
  }

  /** `trim` keeps a contiguous middle part of s, strips only white space, and leaves none at either end. */
  lemma TrimSpec(s: string)
    ensures var t, i := Trim(s), SkipSpacesUp(s, 0);
      && i + |t| <= |s| && t == s[i..i + |t|]
      && (forall k :: 0 <= k < i ==> IsJsSpace(s[k]))
      && (forall k :: i + |t| <= k < |s| ==> IsJsSpace(s[k]))
      && (t == [] || (!IsJsSpace(t[0]) && !IsJsSpace(t[|t| - 1])))
  {
    var i := SkipSpacesUp(s, 0);
    var j := SkipSpacesDown(s, i, |s|);
    var t := Trim(s);
    assert |t| == j - i;
    if t != [] {
      assert t[0] == s[i] && t[|t| - 1] == s[j - 1];
    }
  }

  /** Trimming twice is trimming once. */
  lemma TrimIdempotent(s: string)
    ensures Trim(Trim(s)) == Trim(s)
  {
    var t := Trim(s);
    TrimSpec(s);
    assert SkipSpacesUp(t, 0) == 0;
    assert SkipSpacesDown(t, 0, |t|) == |t|;
    assert t[0..|t|] == t;
  }

  /** Densities outside [0, MaxDensity] are replaced by DefaultDensity when the limit is on. */
  const DefaultDensity: real := 4.0
  const MaxDensity: real := 10.0
  const ColumnsPerDensity: real := 20.0
  /** The count above which the element warns that rendering will be too heavy. */
  const HeavyCount: real := 320.0

  /** The `console.warn` calls of `connectedCallback`. */
  datatype Warning = InvalidDensity | DensityOutOfRange(got: Num) | TooManyColumns(count: int)

  /** The density after both fallbacks, with the warnings they emit. */
  datatype Density = Density(value: real, warnings: seq<Warning>)

  /**
   * The two fallbacks of `connectedCallback` on the parsed density: NaN becomes
   * DefaultDensity; then, with the limit on, a value outside [0, MaxDensity]
   * becomes DefaultDensity again.
   */
  function NormalizeDensity(parsed: Num, limit: bool): (d: Density)
    ensures parsed.NaN? ==> d.value == DefaultDensity
    ensures limit ==> 0.0 <= d.value <= MaxDensity
    ensures parsed.Finite? && (!limit || 0.0 <= parsed.value <= MaxDensity) ==> d.value == parsed.value
    ensures parsed.Finite? && limit && !(0.0 <= parsed.value <= MaxDensity) ==> d.value == DefaultDensity
    ensures (InvalidDensity in d.warnings) <==> parsed.NaN?
    ensures (DensityOutOfRange(parsed) in d.warnings) <==>
      parsed.Finite? && limit && !(0.0 <= parsed.value <= MaxDensity)
    ensures forall w :: w in d.warnings ==> w == InvalidDensity || w == DensityOutOfRange(parsed)
  {
    var (v, w1) := if parsed.NaN? then (DefaultDensity, [InvalidDensity]) else (parsed.value, []);
    if limit && (v < 0.0 || v > MaxDensity) then Density(DefaultDensity, w1 + [DensityOutOfRange(parsed)])
    else Density(v, w1)
  }

  /** `Math.floor(1 + density * 20)`. */
  function ColumnCount(density: real): (n: int)
    ensures n as real <= 1.0 + ColumnsPerDensity * density < n as real + 1.0
  {
    (1.0 + density * ColumnsPerDensity).Floor
  }

  /** Counts grow with the density, by 20 columns per unit. */
  lemma ColumnCountMonotone(d1: real, d2: real)
    requires d1 <= d2
    ensures ColumnCount(d1) <= ColumnCount(d2)
  {
  }

  /** With the limit on, between 1 and 201 columns. */
  lemma LimitedCount(d: real)
    requires 0.0 <= d <= MaxDensity
    ensures 1 <= ColumnCount(d) <= 201
  {
  }

  /** The element's attributes, each possibly missing. */
  datatype Attrs = Attrs(limit: Option<string>, direction: Option<string>, bitsColor: Option<string>, density: Option<string>)

  /** What `connectedCallback` hands to `render`, and what it warned about. */
  datatype Config = Config(columns: seq<Column>, direction: Direction, bitsColor: string, warnings: seq<Warning>)

  /**
   * `connectedCallback` up to `render`, with `parse` for `parseFloat` and `u`
   * for the `Math.random()` draws of the column list.
   */
  function Connect(attrs: Attrs, parse: string -> Num, u: Draws): (cfg: Config)
    requires UnitDraws(u)
    ensures cfg.direction == Down <==> attrs.direction == Some("down")
    ensures attrs.bitsColor.Some? ==> cfg.bitsColor == attrs.bitsColor.value
    ensures attrs.bitsColor.None? ==> cfg.bitsColor == DefaultColor
    ensures forall i :: 0 <= i < |cfg.columns| ==>
      && InRanges(cfg.columns[i])
      && cfg.columns[i] == MakeColumn(u(5 * i), u(5 * i + 1), u(5 * i + 2), u(5 * i + 3), u(5 * i + 4))
    ensures var limit, parsed := IsBooleanTrue(attrs.limit), parse(Trim(attrs.density.GetOr("4")));
      && (parsed.NaN? ==> |cfg.columns| == 81)
      && (parsed.Finite? && limit && !(0.0 <= parsed.value <= MaxDensity) ==> |cfg.columns| == 81)
      && (parsed.Finite? && (!limit || 0.0 <= parsed.value <= MaxDensity) ==>
            |cfg.columns| == MaxInt(0, ColumnCount(parsed.value)))
      && (InvalidDensity in cfg.warnings <==> parsed.NaN?)
      && (DensityOutOfRange(parsed) in cfg.warnings <==>
            parsed.Finite? && limit && !(0.0 <= parsed.value <= MaxDensity))
      && (TooManyColumns(|cfg.columns|) in cfg.warnings <==> |cfg.columns| > 320)
      && (forall w :: w in cfg.warnings ==>
            w == InvalidDensity || w == DensityOutOfRange(parsed) || w == TooManyColumns(|cfg.columns|))
  {
    var limit := IsBooleanTrue(attrs.limit);
    var d := NormalizeDensity(parse(Trim(attrs.density.GetOr("4"))), limit);
    var count := ColumnCount(d.value);
    var heavy := if count as real > HeavyCount then [TooManyColumns(count)] else [];
    Config(MakeColumns(ListLength(Finite(count as real)), u), DirectionOf(attrs.direction),
           ColorOf(attrs.bitsColor), d.warnings + heavy)
  }

  /** A missing density attribute reads as "4", that is 81 columns, whatever the limit. */
  lemma DefaultDensityColumns(attrs: Attrs, parse: string -> Num, u: Draws)
    requires UnitDraws(u) && attrs.density.None? && parse("4") == Finite(4.0)
    ensures |Connect(attrs, parse, u).columns| == 81
  {
    assert SkipSpacesUp("4", 0) == 0 && SkipSpacesDown("4", 0, 1) == 1;
    assert "4"[0..1] == "4";
    assert Trim("4") == "4";
    assert ColumnCount(4.0) == 81;
  }

  /** With the limit on (the default), the element renders between 1 and 201 columns and never warns of too many. */
  lemma LimitedConnect(attrs: Attrs, parse: string -> Num, u: Draws)
    requires UnitDraws(u) && IsBooleanTrue(attrs.limit)
    ensures var cfg := Connect(attrs, parse, u);
      && 1 <= |cfg.columns| <= 201
      && forall w :: w in cfg.warnings ==> !w.TooManyColumns?
  {
    var d := NormalizeDensity(parse(Trim(attrs.density.GetOr("4"))), true);
    LimitedCount(d.value);
  }

  /** With the limit off, a finite density passes unchanged, and past density 15.95 the heavy warning fires. */
  lemma UnlimitedConnect(attrs: Attrs, parse: string -> Num, u: Draws, v: real)
    requires UnitDraws(u) && !IsBooleanTrue(attrs.limit)
    requires parse(Trim(attrs.density.GetOr("4"))) == Finite(v) && v >= 16.0
    ensures var cfg := Connect(attrs, parse, u);
      && |cfg.columns| == ColumnCount(v) > 320
      && TooManyColumns(ColumnCount(v)) in cfg.warnings
  {
  }
}
