/** The chart style selector: a Go `int` type with three named constants,
    printed by String and set from its name by Set, as a command-line flag
    value is. */
module Styles {
  import opened Wrappers

  type ChartStyle = int

  const CsBarSimple: ChartStyle := 0
  const CsBarHorizontal1px: ChartStyle := 1
  const CsBarVertical1px: ChartStyle := 2

  /** One of the three declared styles. */
  predicate IsStyle(cs: ChartStyle) {
    cs == CsBarSimple || cs == CsBarHorizontal1px || cs == CsBarVertical1px
  }

  /** chartStyle.String: the name of a declared style, "unknown" for any
      other value. */
  function String(cs: ChartStyle): (s: string)
    ensures cs == CsBarSimple ==> s == "bar-simple"
    ensures cs == CsBarHorizontal1px ==> s == "bar-horizontal-1px"
    ensures cs == CsBarVertical1px ==> s == "bar-vertical-1px"
    ensures s == "unknown" <==> !IsStyle(cs)
  {
    if cs == CsBarSimple then "bar-simple"
    else if cs == CsBarHorizontal1px then "bar-horizontal-1px"
    else if cs == CsBarVertical1px then "bar-vertical-1px"
    else "unknown"
  }

  /** The switch of chartStyle.Set: the style a name denotes, if any. It is
      the inverse of String on the declared styles, so "unknown" and every
      other string denote none. */
  function Parse(s: string): (r: Option<ChartStyle>)
    ensures r.Some? ==> IsStyle(r.value) && String(r.value) == s
    ensures forall cs :: IsStyle(cs) && String(cs) == s ==> r == Some(cs)
  {
    if s == "bar-simple" then Some(CsBarSimple)
    else if s == "bar-horizontal-1px" then Some(CsBarHorizontal1px)
    else if s == "bar-vertical-1px" then Some(CsBarVertical1px)
    else None
  }

  /** Distinct styles have distinct names. */
  lemma StringInjective(cs1: ChartStyle, cs2: ChartStyle)
    requires IsStyle(cs1) && IsStyle(cs2) && String(cs1) == String(cs2)
    ensures cs1 == cs2
  {
  }

  /** Round trip: every declared style is parsed back from its name. */
  lemma ParseOfString(cs: ChartStyle)
    requires IsStyle(cs)
    ensures Parse(String(cs)) == Some(cs)
  {
  }

  /** Round trip: a name that parses is the name of the style it denotes. */
  lemma StringOfParse(s: string)
    requires Parse(s).Some?
    ensures String(Parse(s).value) == s
  {
  }

  /** The error Set returns for a name that denotes no style. */
  datatype Error = UnknownChartStyle(name: string)

  /** A chartStyle variable, which Set writes through its `*chartStyle` receiver. */
  class StyleVar {
    var value: ChartStyle

    /** A fresh variable holds Go's zero value, csBarSimple. */
    constructor ()
      ensures value == CsBarSimple
    {
      value := CsBarSimple;
    }

    /** chartStyle.Set: on one of the three names, stores its style and
        succeeds; on any other string, returns an error naming it and leaves
        the variable unchanged. */
    method Set(s: string) returns (err: Option<Error>)
      modifies this
      ensures err.None? <==> Parse(s).Some?
      ensures err.None? ==> value == Parse(s).value && String(value) == s
      ensures err.Some? ==> err.value == UnknownChartStyle(s) && value == old(value)
    {
      match s {
        case "bar-simple" =>
          value := CsBarSimple;
        case "bar-horizontal-1px" =>
          value := CsBarHorizontal1px;
        case "bar-vertical-1px" =>
          value := CsBarVertical1px;
        case _ =>
          return Some(UnknownChartStyle(s));
      }
      return None;
    }
  }
}
