/** The bar-chart pipeline of t-plot: each input line yields a value (one
    whitespace-separated column read as a decimal integer) and a display width;
    the values are scaled to a chart width; every line is printed padded to the
    widest label, followed by a tab and a bar of fill runes proportional to its
    value. */
module TPlot {
  import opened GoText
  import opened GoStrconv

  const DefaultTermWidth: int := 80
  const MaxTermWidth: int := 150
  const MinChartWidth: int := 10
  const WidthReserve: int := 8

  /** Command-line options: the 1-based column to plot, the bar string (only
      its first rune is drawn) and the chart width (0 = fit the terminal). */
  datatype Opt = Opt(columnN: int, barChar: string, width: int)

  /** Per-line metrics, and also the scale (the maxima over all lines). */
  datatype LineData = LineData(num: int, width: int)

  function Max(a: int, b: int): int {
    if a < b then b else a
  }

  // ---------------------------------------------------------------------------
  // Line metrics

  /** The metrics of one line: its rune count, and the value of field
      `columnN` (1-based), 0 when the line has fewer fields or the field is not
      a decimal integer. */
  function LineInfo(columnN: int, line: string): (d: LineData)
    requires columnN >= 1
    ensures d.width == |line|
    ensures columnN > |Fields(line)| ==> d.num == 0
    ensures columnN <= |Fields(line)| ==> d.num == Atoi(Fields(line)[columnN - 1])
    ensures columnN <= |Fields(line)| && ParseDecimal(Fields(line)[columnN - 1]).None?
            && !Overflows(Fields(line)[columnN - 1])
            ==> d.num == 0
    ensures columnN <= |Fields(line)| && Overflows(Fields(line)[columnN - 1])
            ==> d.num == (if Fields(line)[columnN - 1][0] == '-' then MinInt else MaxInt)
    ensures columnN <= |Fields(line)| && ParseDecimal(Fields(line)[columnN - 1]).Some?
            && MinInt <= ParseDecimal(Fields(line)[columnN - 1]).value <= MaxInt
            ==> d.num == ParseDecimal(Fields(line)[columnN - 1]).value
  {
    var fields := Fields(line);
    if columnN > |fields| then LineData(0, |line|)
    else
      var field := fields[columnN - 1];
      AtoiValue(field);
      LineData(Atoi(field), |line|)
  }

  /** On a line made of words separated by single spaces, whose column
      `columnN` is the decimal form of a 64-bit integer, the extracted value is
      that integer. */
  lemma LineInfoReadsColumn(ws: seq<string>, columnN: int, n: int)
    requires forall i :: 0 <= i < |ws| ==> IsWord(ws[i])
    requires 1 <= columnN <= |ws| && ws[columnN - 1] == Itoa(n)
    requires MinInt <= n <= MaxInt
    ensures LineInfo(columnN, JoinWithSpace(ws)).num == n
  {
    FieldsOfJoin(ws);
    ParseDecimalOfItoa(n);
  }

  /** getTextInfo: one entry per line, in input order. */
  method GetTextInfo(cfg: Opt, lines: seq<string>) returns (res: seq<LineData>)
    requires cfg.columnN >= 1
    ensures |res| == |lines|
    ensures forall i :: 0 <= i < |lines| ==> res[i] == LineInfo(cfg.columnN, lines[i])
  {
    var a := new LineData[|lines|](_ => LineData(0, 0));
    var i := 0;
    while i < |lines|
      invariant 0 <= i <= |lines|
      invariant forall j :: 0 <= j < i ==> a[j] == LineInfo(cfg.columnN, lines[j])
      invariant forall j :: i <= j < |lines| ==> a[j] == LineData(0, 0)
    {
      var line := lines[i];
      a[i] := a[i].(width := |line|);
      var fields := Fields(line);
      if cfg.columnN > |fields| {
        i := i + 1;
        continue;
      }
      a[i] := a[i].(num := Atoi(fields[cfg.columnN - 1]));
      i := i + 1;
    }
    res := a[..];
  }

  // ---------------------------------------------------------------------------
  // Scale

  /** `maxs` is the scale of `info`: each component is the largest value of
      that component among the entries, or 0 when none is positive. */
  ghost predicate IsScaleOf(maxs: LineData, info: seq<LineData>) {
    && maxs.num >= 0 && maxs.width >= 0
    && (forall i :: 0 <= i < |info| ==> info[i].num <= maxs.num && info[i].width <= maxs.width)
    && (maxs.num == 0 || exists i :: 0 <= i < |info| && info[i].num == maxs.num)
    && (maxs.width == 0 || exists i :: 0 <= i < |info| && info[i].width == maxs.width)
  }

  /** The scale is determined by the entries. */
  lemma ScaleIsUnique(info: seq<LineData>, m1: LineData, m2: LineData)
    requires IsScaleOf(m1, info) && IsScaleOf(m2, info)
    ensures m1 == m2
  {
  }

  /** getAllMax: a single pass keeping the running maxima, both starting at 0. */
  method GetAllMax(info: seq<LineData>) returns (maxs: LineData)
    ensures IsScaleOf(maxs, info)
    ensures info == [] ==> maxs == LineData(0, 0)
  {
    var maxNum, maxWidth := 0, 0;
    for i := 0 to |info|
      invariant maxNum >= 0 && maxWidth >= 0
      invariant forall j :: 0 <= j < i ==> info[j].num <= maxNum && info[j].width <= maxWidth
      invariant maxNum == 0 || exists j :: 0 <= j < i && info[j].num == maxNum
      invariant maxWidth == 0 || exists j :: 0 <= j < i && info[j].width == maxWidth
    {
      var item := info[i];
      if item.num > maxNum {
        maxNum := item.num;
      }
      if item.width > maxWidth {
        maxWidth := item.width;
      }
    }
    maxs := LineData(maxNum, maxWidth);
  }

  // ---------------------------------------------------------------------------
  // Label alignment

  /** A line right-padded with spaces to at least `w` runes. */
  function PadRight(line: string, w: int): (r: string)
    ensures |r| == Max(|line|, w)
    ensures r[..|line|] == line
    ensures forall k :: |line| <= k < |r| ==> r[k] == ' '
  {
    if |line| < w then line + Repeat(' ', w - |line|) else line
  }

  /** alignTextLines: every line padded to `maxs.width` runes, in input order.
      When no line is wider than `maxs.width`, all results have that width. */
  method AlignTextLines(lines: seq<string>, maxs: LineData) returns (res: seq<string>)
    ensures |res| == |lines|
    ensures forall i :: 0 <= i < |lines| ==> res[i] == PadRight(lines[i], maxs.width)
    ensures (forall i :: 0 <= i < |lines| ==> |lines[i]| <= maxs.width)
            ==> forall i :: 0 <= i < |res| ==> |res[i]| == maxs.width
  {
    var a := new string[|lines|];
    for i := 0 to |lines|
      invariant forall j :: 0 <= j < i ==> a[j] == PadRight(lines[j], maxs.width)
    {
      var line := lines[i];
      var l := |line|;
      if l < maxs.width {
        line := line + Repeat(' ', maxs.width - l);
      }
      a[i] := line;
    }
    res := a[..];
  }

  // ---------------------------------------------------------------------------
  // Chart width

  /** The clamp getTermWidth applies to the queried terminal width: 0 (the
      query failed) becomes 80, and no result exceeds 150. */
  function TermWidth(queried: int): (w: int)
    ensures queried == 0 ==> w == DefaultTermWidth
    ensures queried != 0 && queried <= MaxTermWidth ==> w == queried
    ensures queried > MaxTermWidth ==> w == MaxTermWidth
    ensures w <= MaxTermWidth
    ensures queried >= 0 ==> 1 <= w
  {
    var width := if queried == 0 then DefaultTermWidth else queried;
    if width > MaxTermWidth then MaxTermWidth else width
  }

  /** Clamping twice is clamping once. */
  lemma TermWidthIdempotent(queried: int)
    ensures TermWidth(TermWidth(queried)) == TermWidth(queried)
  {
  }

  /** The chart width of addChart: an explicit width wins; otherwise what the
      terminal leaves beside the labels and the reserve, but never less than
      the minimum chart width. */
  function ChartWidth(cfgWidth: int, termWidth: int, labelWidth: int): (w: nat)
    ensures cfgWidth > 0 ==> w == cfgWidth
    ensures cfgWidth <= 0 ==> w >= MinChartWidth && w >= termWidth - labelWidth - WidthReserve
    ensures cfgWidth <= 0 ==> w == MinChartWidth || w == termWidth - labelWidth - WidthReserve
    ensures w >= 1
  {
    if cfgWidth > 0 then cfgWidth
    else
      var chartWidth := termWidth - labelWidth - WidthReserve;
      if chartWidth < MinChartWidth then MinChartWidth else chartWidth
  }

  // ---------------------------------------------------------------------------
  // Bars

  /** Division rounded toward zero, as Go's conversion of a float to int
      rounds: the quotient has the sign of the dividend, and a dividend of
      smaller magnitude than the divisor gives 0 on either side of 0 (where
      Dafny's Euclidean division gives -1 below 0). */
  function TruncDiv(a: int, b: int): (q: int)
    requires b > 0
    ensures a >= 0 ==> q >= 0
    ensures a <= 0 ==> q <= 0
    ensures -b < a < b ==> q == 0
  {
    SmallQuotient(if a >= 0 then a else -a, b);
    if a >= 0 then a / b else -((-a) / b)
  }

  lemma SmallQuotient(a: int, b: int)
    requires b > 0
    ensures 0 <= a < b ==> a / b == 0
  {
  }

  lemma {:induction false} MulMonotone(x: int, y: int, c: int)
    requires x <= y && c >= 0
    ensures x * c <= y * c
    decreases c
  {
    if c > 0 {
      MulMonotone(x, y, c - 1);
    }
  }

  lemma DivAtMost(a: int, b: int, c: int)
    requires b > 0 && c >= 0 && 0 <= a <= c * b
    ensures 0 <= a / b <= c
  {
    var q := a / b;
    if q > c {
      MulMonotone(c + 1, q, b);
    }
  }

  lemma DivOfMultiple(c: nat, b: int)
    requires b > 0
    ensures (c * b) / b == c
  {
    var q := (c * b) / b;
    if q < c {
      MulMonotone(q + 1, c, b);
    } else if q > c {
      MulMonotone(c + 1, q, b);
    }
  }

  /** TruncDiv(a, b) is the exact quotient a / b rounded toward zero: the
      quotient lies in [q, q + 1) when a >= 0 and in (q - 1, q] when a < 0. */
  lemma TruncDivBounds(a: int, b: int)
    requires b > 0
    ensures a >= 0 ==> TruncDiv(a, b) * b <= a < (TruncDiv(a, b) + 1) * b
    ensures a < 0 ==> (TruncDiv(a, b) - 1) * b < a <= TruncDiv(a, b) * b
  {
  }

  lemma TruncDivScaled(num: int, maxNum: int, width: int)
    requires maxNum > 0
    ensures 0 <= num <= maxNum && width >= 0 ==> 0 <= TruncDiv(num * width, maxNum) <= width
    ensures num == maxNum ==> TruncDiv(num * width, maxNum) == width
    ensures num == 0 ==> TruncDiv(num * width, maxNum) == 0
  {
    if 0 <= num <= maxNum && width >= 0 {
      MulMonotone(num, maxNum, width);
      MulMonotone(0, num, width);
      DivAtMost(num * width, maxNum, width);
    }
    if num == maxNum {
      if width >= 0 {
        DivOfMultiple(width, maxNum);
      } else {
        assert -(num * width) == (-width) * maxNum;
        DivOfMultiple(-width, maxNum);
      }
    }
  }

  /** The bar length of a row, int(num / maxNum * width), computed exactly:
      the full width for the largest value, nothing for 0, and within
      [0, width] for every value between. */
  function BarLength(num: int, maxNum: int, width: int): (n: int)
    requires maxNum > 0
    ensures 0 <= num <= maxNum && width >= 0 ==> 0 <= n <= width
    ensures num == maxNum ==> n == width
    ensures num == 0 ==> n == 0
  {
    TruncDivScaled(num, maxNum, width);
    TruncDiv(num * width, maxNum)
  }

  lemma DivMonotone(x: int, y: int, b: int)
    requires 0 <= x <= y && b > 0
    ensures x / b <= y / b
  {
    if x / b > y / b {
      MulMonotone(y / b + 1, x / b, b);
    }
  }

  lemma TruncDivMonotone(a1: int, a2: int, b: int)
    requires a1 <= a2 && b > 0
    ensures TruncDiv(a1, b) <= TruncDiv(a2, b)
  {
    if a1 >= 0 {
      DivMonotone(a1, a2, b);
    } else if a2 < 0 {
      DivMonotone(-a2, -a1, b);
    } else {
      DivMonotone(0, -a1, b);
      DivMonotone(0, a2, b);
    }
  }

  /** A larger value never gets a shorter bar. */
  lemma BarLengthMonotone(num1: int, num2: int, maxNum: int, width: int)
    requires maxNum > 0 && width >= 0 && num1 <= num2
    ensures BarLength(num1, maxNum, width) <= BarLength(num2, maxNum, width)
  {
    MulMonotone(num1, num2, width);
    TruncDivMonotone(num1 * width, num2 * width, maxNum);
  }

  /** The number of cells a horizontal run of `len` cells from column 0
      covers on a row `width` cells wide. */
  function Clip(len: int, width: nat): (c: nat)
    ensures c <= width
    ensures 0 <= len <= width ==> c == len
  {
    if len < 0 then 0 else if len > width then width else len
  }

  /** A canvas row with a run of `len` cells from column 0, rendered with the
      two-entry palette of a space and `fill`. */
  function BarRow(fill: char, len: int, width: nat): (r: string)
    ensures |r| == width
    ensures forall k :: 0 <= k < width ==> r[k] == if k < len then fill else ' '
  {
    var on := Clip(len, width);
    Repeat(fill, on) + Repeat(' ', width - on)
  }

  /** renderChart: row i of a canvas `width` cells wide holds the bar of entry
      i, drawn with the first rune of `barChar`. */
  method RenderChart(barChar: string, width: nat, info: seq<LineData>, maxs: LineData) returns (rows: seq<string>)
    requires info == [] || maxs.num > 0
    ensures |rows| == |info|
    ensures forall i :: 0 <= i < |info| ==>
              rows[i] == BarRow(FirstRune(barChar), BarLength(info[i].num, maxs.num, width), width)
  {
    var drawn := new int[|info|];
    for i := 0 to |info|
      invariant forall j :: 0 <= j < i ==> drawn[j] == BarLength(info[j].num, maxs.num, width)
    {
      drawn[i] := BarLength(info[i].num, maxs.num, width);
    }
    var fill := FirstRune(barChar);
    var out := new string[|info|];
    for i := 0 to |info|
      modifies out
      invariant forall j :: 0 <= j < i ==> out[j] == BarRow(fill, drawn[j], width)
    {
      out[i] := BarRow(fill, drawn[i], width);
    }
    rows := out[..];
  }

  // ---------------------------------------------------------------------------
  // Row assembly

  /** The layout of one output row when the label is no wider than the label
      column: the label, spaces up to the column, the tab, then the bar. */
  lemma ChartRowLayout(line: string, w: int, bar: string)
    requires |line| <= w
    ensures var r := PadRight(line, w) + "\t" + bar;
            && |r| == w + 1 + |bar|
            && r[..|line|] == line
            && (forall k :: |line| <= k < w ==> r[k] == ' ')
            && r[w] == '\t'
  {
    var p := PadRight(line, w);
    var r := p + "\t" + bar;
    assert r[..|line|] == p[..|line|];
    assert forall k :: |line| <= k < w ==> r[k] == p[k];
  }

  /** The output rows form a table: row i is line i, padded with spaces to
      `labelWidth`, a tab in column `labelWidth`, then `chartWidth` bar cells. */
  ghost predicate IsChartLayout(rows: seq<string>, lines: seq<string>, labelWidth: int, chartWidth: int) {
    && chartWidth >= 0
    && |rows| == |lines|
    && forall i :: 0 <= i < |lines| ==>
         && |lines[i]| <= labelWidth
         && |rows[i]| == labelWidth + 1 + chartWidth
         && rows[i][..|lines[i]|] == lines[i]
         && (forall k :: |lines[i]| <= k < labelWidth ==> rows[i][k] == ' ')
         && rows[i][labelWidth] == '\t'
  }

  /** addChart: each line, padded to the label width, then a tab, then its bar
      on a chart of the computed width. */
  method AddChart(cfg: Opt, lines: seq<string>, info: seq<LineData>, maxs: LineData, queriedWidth: int)
    returns (res: seq<string>)
    requires |lines| <= |info|
    requires info == [] || maxs.num > 0
    ensures |res| == |lines|
    ensures var w := ChartWidth(cfg.width, TermWidth(queriedWidth), maxs.width);
            forall i :: 0 <= i < |lines| ==>
              res[i] == PadRight(lines[i], maxs.width) + "\t"
                        + BarRow(FirstRune(cfg.barChar), BarLength(info[i].num, maxs.num, w), w)
    ensures cfg.width > 0 ==> forall i :: 0 <= i < |lines| ==> |res[i]| == Max(|lines[i]|, maxs.width) + 1 + cfg.width
    ensures (forall i :: 0 <= i < |lines| ==> |lines[i]| <= maxs.width) ==>
              IsChartLayout(res, lines, maxs.width, ChartWidth(cfg.width, TermWidth(queriedWidth), maxs.width))
  {
    var termWidth := TermWidth(queriedWidth);
    var aligned := AlignTextLines(lines, maxs);
    var chartWidth := ChartWidth(cfg.width, termWidth, maxs.width);
    var barChart := RenderChart(cfg.barChar, chartWidth, info, maxs);
    var a := new string[|aligned|];
    for i := 0 to |aligned|
      invariant forall j :: 0 <= j < i ==> a[j] == aligned[j] + "\t" + barChart[j]
    {
      a[i] := aligned[i] + "\t" + barChart[i];
    }
    res := a[..];
    if forall i :: 0 <= i < |lines| ==> |lines[i]| <= maxs.width {
      forall i | 0 <= i < |lines| {
        ChartRowLayout(lines[i], maxs.width, barChart[i]);
      }
    }
  }

  /** The width component of the scale of the metrics of `lines` is the
      length of the longest line (0 when there is none). */
  lemma LabelWidthOfScale(lines: seq<string>, info: seq<LineData>, maxs: LineData)
    requires |info| == |lines| && forall i :: 0 <= i < |lines| ==> info[i].width == |lines[i]|
    requires IsScaleOf(maxs, info)
    ensures maxs.width >= 0 && forall i :: 0 <= i < |lines| ==> |lines[i]| <= maxs.width
    ensures maxs.width == 0 || exists i :: 0 <= i < |lines| && |lines[i]| == maxs.width
  {
    if maxs.width != 0 {
      var i :| 0 <= i < |info| && info[i].width == maxs.width;
      assert |lines[i]| == maxs.width;
    }
  }

  /** Row i is line i padded to `labelWidth`, a tab, then the bar of the
      value of line i on the scale `maxNum`, `chartWidth` cells wide. */
  ghost predicate BarsOf(rows: seq<string>, cfg: Opt, lines: seq<string>, labelWidth: int, maxNum: int, chartWidth: int) {
    && cfg.columnN >= 1
    && chartWidth >= 0
    && (lines != [] ==> maxNum > 0)
    && |rows| == |lines|
    && forall i :: 0 <= i < |lines| ==>
         rows[i] == PadRight(lines[i], labelWidth) + "\t"
                    + BarRow(FirstRune(cfg.barChar), BarLength(LineInfo(cfg.columnN, lines[i]).num, maxNum, chartWidth), chartWidth)
  }

  /** The value part of the scale of the metrics of `lines` is the largest
      value of a line, or 0 when no value is positive. */
  lemma ValueScaleOfLines(cfg: Opt, lines: seq<string>, info: seq<LineData>, maxs: LineData)
    requires cfg.columnN >= 1 && |info| == |lines|
    requires forall i :: 0 <= i < |lines| ==> info[i] == LineInfo(cfg.columnN, lines[i])
    requires IsScaleOf(maxs, info)
    ensures maxs.num >= 0 && forall i :: 0 <= i < |lines| ==> LineInfo(cfg.columnN, lines[i]).num <= maxs.num
    ensures maxs.num == 0 || exists i :: 0 <= i < |lines| && LineInfo(cfg.columnN, lines[i]).num == maxs.num
    ensures (exists i :: 0 <= i < |lines| && LineInfo(cfg.columnN, lines[i]).num > 0) ==> maxs.num > 0
  {
    if maxs.num != 0 {
      var i :| 0 <= i < |info| && info[i].num == maxs.num;
      assert LineInfo(cfg.columnN, lines[i]).num == maxs.num;
    }
    if exists i :: 0 <= i < |lines| && LineInfo(cfg.columnN, lines[i]).num > 0 {
      var i :| 0 <= i < |lines| && LineInfo(cfg.columnN, lines[i]).num > 0;
      assert info[i].num <= maxs.num;
    }
  }

  /** Rows built from the metrics of `lines` are the rows BarsOf describes. */
  lemma BarsOfMetrics(rows: seq<string>, cfg: Opt, lines: seq<string>, info: seq<LineData>, maxs: LineData, w: int)
    requires cfg.columnN >= 1 && w >= 0
    requires |info| == |lines| && (info == [] || maxs.num > 0)
    requires forall i :: 0 <= i < |lines| ==> info[i] == LineInfo(cfg.columnN, lines[i])
    requires |rows| == |lines|
    requires forall i :: 0 <= i < |lines| ==>
               rows[i] == PadRight(lines[i], maxs.width) + "\t"
                          + BarRow(FirstRune(cfg.barChar), BarLength(info[i].num, maxs.num, w), w)
    ensures BarsOf(rows, cfg, lines, maxs.width, maxs.num, w)
  {
  }

  /** In rows that BarsOf describes, the bar of the line holding the largest
      value fills the whole chart column, and the bar of a zero value is
      blank. */
  lemma BarCellsOfRow(rows: seq<string>, cfg: Opt, lines: seq<string>, labelWidth: int, maxNum: int, chartWidth: int, i: int)
    requires BarsOf(rows, cfg, lines, labelWidth, maxNum, chartWidth)
    requires 0 <= i < |lines| && |lines[i]| <= labelWidth
    ensures |rows[i]| == labelWidth + 1 + chartWidth
    ensures LineInfo(cfg.columnN, lines[i]).num == maxNum ==>
              forall k :: labelWidth < k <= labelWidth + chartWidth ==> rows[i][k] == FirstRune(cfg.barChar)
    ensures LineInfo(cfg.columnN, lines[i]).num == 0 ==>
              forall k :: labelWidth < k <= labelWidth + chartWidth ==> rows[i][k] == ' '
  {
    var p := PadRight(lines[i], labelWidth);
    var bar := BarRow(FirstRune(cfg.barChar), BarLength(LineInfo(cfg.columnN, lines[i]).num, maxNum, chartWidth), chartWidth);
    assert rows[i] == p + "\t" + bar;
    assert forall k :: labelWidth < k <= labelWidth + chartWidth ==> rows[i][k] == bar[k - labelWidth - 1];
  }

  /** The pipeline of main without its I/O: metrics, scale, then chart rows.
      The rows form a table whose label column is as wide as the longest
      line and whose chart column is as wide as addChart computes; with an
      explicit width, that width is exactly the chart column. Each row's bar
      is the bar of its line's value on the scale of the largest value. */
  method Plot(cfg: Opt, lines: seq<string>, queriedWidth: int)
    returns (out: seq<string>, ghost labelWidth: int, ghost maxNum: int, ghost chartWidth: int)
    requires cfg.columnN >= 1
    requires lines == [] || exists i :: 0 <= i < |lines| && LineInfo(cfg.columnN, lines[i]).num > 0
    ensures |out| == |lines|
    ensures labelWidth >= 0 && forall i :: 0 <= i < |lines| ==> |lines[i]| <= labelWidth
    ensures labelWidth == 0 || exists i :: 0 <= i < |lines| && |lines[i]| == labelWidth
    ensures maxNum >= 0 && forall i :: 0 <= i < |lines| ==> LineInfo(cfg.columnN, lines[i]).num <= maxNum
    ensures maxNum == 0 || exists i :: 0 <= i < |lines| && LineInfo(cfg.columnN, lines[i]).num == maxNum
    ensures chartWidth == ChartWidth(cfg.width, TermWidth(queriedWidth), labelWidth)
    ensures cfg.width > 0 ==> chartWidth == cfg.width
    ensures IsChartLayout(out, lines, labelWidth, chartWidth)
    ensures BarsOf(out, cfg, lines, labelWidth, maxNum, chartWidth)
  {
    var info := GetTextInfo(cfg, lines);
    var maxs := GetAllMax(info);
    ValueScaleOfLines(cfg, lines, info, maxs);
    LabelWidthOfScale(lines, info, maxs);
    out := AddChart(cfg, lines, info, maxs, queriedWidth);
    labelWidth := maxs.width;
    maxNum := maxs.num;
    chartWidth := ChartWidth(cfg.width, TermWidth(queriedWidth), maxs.width);
    BarsOfMetrics(out, cfg, lines, info, maxs, chartWidth);
  }
}
