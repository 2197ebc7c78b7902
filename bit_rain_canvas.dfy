/**
 * `<bit-rain-canvas>` (the older wrapper element): reading the `density` and
 * `limit` attributes into the column list it renders.
 */
module BitRainCanvas {
  import opened Common
  import opened RainColumns
  import MatrixxCanvas

  /** `isBooleanFalse`: only "false" and "0" are false; a missing attribute is not. */
  predicate IsBooleanFalse(attr: Option<string>) {
    attr.Some? && (attr.value == "false" || attr.value == "0")
  }

  /**
   * On every documented spelling of a boolean attribute (missing, "true", "1",
   * "false", "0") "not false" and the later element's `isBooleanTrue` agree,
   * and "false" always excludes "true".
   */
  lemma NotFalseMatchesIsBooleanTrue(attr: Option<string>)
    requires attr in {None, Some("true"), Some("1"), Some("false"), Some("0")}
    ensures !IsBooleanFalse(attr) <==> MatrixxCanvas.IsBooleanTrue(attr)
  {
  }

  lemma FalseExcludesTrue(attr: Option<string>)
    ensures IsBooleanFalse(attr) ==> !MatrixxCanvas.IsBooleanTrue(attr)
    ensures attr.None? ==> !IsBooleanFalse(attr) && MatrixxCanvas.IsBooleanTrue(attr)
  {
  }

  /** The density used when the attribute is missing, and the one an out-of-range density falls back to. */
  const DefaultDensity: real := 0.5
  const MaxDensity: real := 1.0
  const ColumnsPerDensity: real := 25.0

  /**
   * The fallback of `connectedCallback`: when limiting applies, a NaN or a
   * density outside [0, MaxDensity] becomes DefaultDensity; otherwise the parsed
   * number is kept as it is, NaN included.
   */
  function NormalizeDensity(parsed: Num, limit: bool): (d: Num)
    ensures limit ==> d.Finite? && 0.0 <= d.value <= MaxDensity
    ensures limit && parsed.Finite? && 0.0 <= parsed.value <= MaxDensity ==> d == parsed
    ensures limit && !(parsed.Finite? && 0.0 <= parsed.value <= MaxDensity) ==> d == Finite(DefaultDensity)
    ensures !limit ==> d == parsed
  {
    if limit && (parsed.NaN? || parsed.value < 0.0 || parsed.value > MaxDensity) then Finite(DefaultDensity)
    else parsed
  }

  /** Whether the fallback fires, which is also when the element warns. */
  predicate Rejected(parsed: Num, limit: bool) {
    limit && (parsed.NaN? || parsed.value < 0.0 || parsed.value > MaxDensity)
  }

  /** `Math.floor(1 + density * 25)`, NaN for a NaN density. */
  function ColumnCount(d: Num): (c: Num)
    ensures d.NaN? <==> c.NaN?
    ensures d.Finite? ==> c.value == c.value.Floor as real
    ensures d.Finite? ==> c.value <= 1.0 + ColumnsPerDensity * d.value < c.value + 1.0
  {
    match d
    case NaN => NaN
    case Finite(v) => Finite((1.0 + v * ColumnsPerDensity).Floor as real)
  }

  /** A density in [0, MaxDensity] gives between 1 and 26 columns. */
  lemma LimitedCount(v: real)
    requires 0.0 <= v <= MaxDensity
    ensures 1 <= ListLength(ColumnCount(Finite(v))) <= 26
  {
  }

  /** The element's two attributes, each possibly missing. */
  datatype Attrs = Attrs(density: Option<string>, limit: Option<string>)

  /** What `connectedCallback` hands to `render`, and the attribute text it warns about, if it warns. */
  datatype Config = Config(columns: seq<Column>, warning: Option<string>)

  /**
   * `connectedCallback` up to `render` for a given limit flag, with `parse` for
   * `parseFloat` and `u` for the `Math.random()` draws of the column list.
   */
  function ConnectWith(attrs: Attrs, parse: string -> Num, u: Draws, limit: bool): (cfg: Config)
    requires UnitDraws(u)
    ensures forall i :: 0 <= i < |cfg.columns| ==>
      && InRanges(cfg.columns[i])
      && cfg.columns[i] == MakeColumn(u(5 * i), u(5 * i + 1), u(5 * i + 2), u(5 * i + 3), u(5 * i + 4))
    ensures var text := attrs.density.GetOr("0.5"); var parsed := parse(text);
      && (cfg.warning.Some? <==> limit && !(parsed.Finite? && 0.0 <= parsed.value <= MaxDensity))
      && (cfg.warning.Some? ==> cfg.warning.value == text)
      && (limit ==> 1 <= |cfg.columns| <= 26)
      && (limit && cfg.warning.Some? ==> |cfg.columns| == 13)
      && (limit && cfg.warning.None? ==>
            |cfg.columns| as real <= 1.0 + ColumnsPerDensity * parsed.value < |cfg.columns| as real + 1.0)
      && (!limit ==> cfg.columns == MakeColumns(ListLength(ColumnCount(parsed)), u))
  {
    var text := attrs.density.GetOr("0.5");
    var parsed := parse(text);
    var d := NormalizeDensity(parsed, limit);
    assert limit ==> 1 <= ListLength(ColumnCount(d)) <= 26 by {
      if limit { LimitedCount(d.value); }
    }
    assert ColumnCount(Finite(DefaultDensity)) == Finite(13.0);
    Config(MakeColumns(ListLength(ColumnCount(d)), u), if Rejected(parsed, limit) then Some(text) else None)
  }

  /** The element as written: the limit flag is `isBooleanFalse(limit)`. */
  function ConnectAsWritten(attrs: Attrs, parse: string -> Num, u: Draws): (cfg: Config)
    requires UnitDraws(u)
    ensures IsBooleanFalse(attrs.limit) ==> 1 <= |cfg.columns| <= 26
    ensures !IsBooleanFalse(attrs.limit) ==>
      && cfg.columns == MakeColumns(ListLength(ColumnCount(parse(attrs.density.GetOr("0.5")))), u)
      && cfg.warning.None?
  {
    ConnectWith(attrs, parse, u, IsBooleanFalse(attrs.limit))
  }

  /** The element as documented: limiting is on unless `limit` is "false" or "0". */
  function Connect(attrs: Attrs, parse: string -> Num, u: Draws): (cfg: Config)
    requires UnitDraws(u)
    ensures !IsBooleanFalse(attrs.limit) ==> 1 <= |cfg.columns| <= 26
    ensures IsBooleanFalse(attrs.limit) ==>
      && cfg.columns == MakeColumns(ListLength(ColumnCount(parse(attrs.density.GetOr("0.5")))), u)
      && cfg.warning.None?
  {
    ConnectWith(attrs, parse, u, !IsBooleanFalse(attrs.limit))
  }

  /**
   * As written, a missing `limit` leaves the density unlimited: density "5"
   * gives 126 columns, where the documented default limit gives 13.
   */
  lemma AsWrittenIgnoresDefaultLimit(parse: string -> Num, u: Draws)
    requires UnitDraws(u) && parse("5") == Finite(5.0)
    ensures |ConnectAsWritten(Attrs(Some("5"), None), parse, u).columns| == 126
    ensures |Connect(Attrs(Some("5"), None), parse, u).columns| == 13
  {
    assert ColumnCount(Finite(5.0)) == Finite(126.0);
    assert ColumnCount(Finite(DefaultDensity)) == Finite(13.0);
  }

  /** As written, `limit="false"` is what turns limiting on. */
  lemma AsWrittenLimitsOnFalse(parse: string -> Num, u: Draws)
    requires UnitDraws(u) && parse("5") == Finite(5.0)
    ensures |ConnectAsWritten(Attrs(Some("5"), Some("false")), parse, u).columns| == 13
    ensures ConnectAsWritten(Attrs(Some("5"), Some("false")), parse, u).warning == Some("5")
  {
    assert ColumnCount(Finite(DefaultDensity)) == Finite(13.0);
  }

  /** As written, without limiting, a density that does not parse renders no columns at all. */
  lemma AsWrittenNaNRendersNothing(attrs: Attrs, parse: string -> Num, u: Draws)
    requires UnitDraws(u) && !IsBooleanFalse(attrs.limit) && parse(attrs.density.GetOr("0.5")).NaN?
    ensures ConnectAsWritten(attrs, parse, u).columns == []
    ensures ConnectAsWritten(attrs, parse, u).warning.None?
  {
  }

  /** A missing density reads as "0.5", which is 13 columns in both versions when it parses as 0.5. */
  lemma DefaultDensityColumns(attrs: Attrs, parse: string -> Num, u: Draws)
    requires UnitDraws(u) && attrs.density.None? && parse("0.5") == Finite(0.5)
    ensures |Connect(attrs, parse, u).columns| == 13
    ensures |ConnectAsWritten(attrs, parse, u).columns| == 13
  {
    assert ColumnCount(Finite(0.5)) == Finite(13.0);
  }
}
