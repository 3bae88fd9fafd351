# t-plot bar-chart pipeline in Dafny

t-plot reads text lines and prints each one followed by a bar whose length is
proportional to a number taken from the line. This project models the simple
bar-chart pipeline of `t-plot.go` and the chart-style selector of `styles.go`:

- **Line metrics**: each line gives its rune count and the value of one
  whitespace-separated column. The value is read as a decimal integer. It is 0
  when the column is missing or the field is not a number. The exception is a
  field whose leading digits overflow 64 bits: it reads as the bound of its
  sign.
- **Scale**: the largest value and the largest width over all lines. Both
  start from 0.
- **Label alignment**: every line is right-padded with spaces to the widest
  line.
- **Chart width**: an explicit `-w` width wins. Otherwise the chart gets the
  clamped terminal width minus the label width minus a reserve of 8, and never
  less than 10.
- **Bars and rows**: the bar of a row has length `int(num / maxNum * width)`.
  It is drawn with the first rune of the `-c` string. Each output row is the
  padded label, a tab, and the bar.
- **Chart styles**: the three style names, `String` and `Set`, and their round
  trips.

Modules:

- `Wrappers` holds `Option`.
- `GoText` and `GoStrconv` model the Go library functions the core calls:
  `unicode.IsSpace`, `strings.Fields`, `strings.Repeat`,
  `utf8.DecodeRuneInString`, and `strconv.Atoi` (through `ParseInt` and the
  digit loop of `ParseUint`) with its inverse `Itoa`.
- `TPlot` models `t-plot.go`.
- `Styles` models `styles.go`.

The functions that fill a slice by index in a loop are methods with loops over
arrays: `getTextInfo`, `alignTextLines` and the join in `addChart`. The loop of
`renderChart` draws one horizontal run per entry on a canvas (`HLine` from
column 0), and the canvas is then rendered to strings; `RenderChart` keeps
that loop as one loop recording each row's run length in an array and a
second loop turning each run into its row of cells. `getAllMax` is a method whose loop keeps the
running maxima. The width arithmetic and the bar-length formula are functions.
`chartStyle.Set` writes through its `*chartStyle` receiver, so it is a method
of the class `StyleVar`, whose field is the variable it writes.

Modelling choices:

- A Go string is modelled as its sequence of runes. So
  `utf8.RuneCountInString(s)` is `|s|`.
- Go's `int` is taken to be 64 bits. `Atoi` follows `strconv.ParseInt`: a
  syntax error gives 0. A range error gives the 64-bit bound of the sign. It
  arises in two ways: a valid decimal outside the 64-bit range, or a digit
  loop that overflows 2^64 - 1 before it reaches a later non-digit. So
  `"100000000000000000000x"` reads as the largest `int`, not as 0.
- `Plot` is the composition at lines 49-51 of `main`, without reading standard
  input or printing. It takes the queried terminal width as a parameter.
- `AddChart` also takes the queried terminal width as a parameter. The
  terminal query itself is not modelled.

Facts of the code that shape the model:

- A value is an integer read by `strconv.Atoi` (t-plot.go:101), so a field
  such as `2.5` is not a number and reads as 0.
- The display width of a line is its rune count (t-plot.go:94, where a TODO
  notes that the graphic width is not used). Wide glyphs and combining marks
  count as one rune each.
- There is no column auto-detection. `-k 0` or a negative column reaches
  `fields[columnN-1]` with a negative index and panics (t-plot.go:97-101).
  So `columnN >= 1` is a precondition.
- Only the simple style is drawn. `styles.go` declares the other two styles,
  but nothing in `t-plot.go` renders them.

## Model

| member | source | states |
|---|---|---|
| `GoText.IsSpace` | t-plot.go:96 | among ASCII runes, exactly '\t', '\n', '\v', '\f', '\r' and ' ' are spaces, the table strings.Fields uses on ASCII input |
| `GoText.Fields` | t-plot.go:96 | every field strings.Fields returns is non-empty and holds no whitespace |
| `GoText.FieldsOfSpaces` | t-plot.go:96 | a line of whitespace only has no fields |
| `GoText.FieldsOfWord` | t-plot.go:96 | a single run of non-space runes is its own only field |
| `GoText.FieldsSplit` | t-plot.go:96 | a whitespace rune splits the fields: Fields(a + [c] + b) == Fields(a) + Fields(b) |
| `GoText.FieldsOfJoin` | t-plot.go:96 | Fields gives back a list of words joined by single spaces |
| `GoText.WordLenBeforeSpace` | t-plot.go:96 | the first field of a + [c] + b lies within a when c is whitespace |
| `GoText.Repeat` | t-plot.go:163 | strings.Repeat of a rune n times has length n and holds only that rune |
| `GoText.FirstRune` | t-plot.go:179 | the decoded first rune is s[0], or utf8.RuneError for an empty string; that only this rune fills a bar cell is stated by RenderChart's ensures with BarRow's per-cell clause |
| `GoStrconv.ParseDecimal` | t-plot.go:101 | a field is accepted exactly when it is a digit, or a '+' or '-' followed by at least one more rune, and every rune after the first is a digit; a negative value needs a '-' sign |
| `GoStrconv.ParseDecimalOfDigits` | t-plot.go:101 | a string of digits reads as its positional decimal value |
| `GoStrconv.ParseDecimalOfPlus` | t-plot.go:101 | a '+' sign before the digits keeps their value |
| `GoStrconv.ParseDecimalOfMinus` | t-plot.go:101 | a '-' sign before the digits negates their value |
| `GoStrconv.ParseDecimalOfLeadingZero` | t-plot.go:101 | a leading zero does not change the value |
| `GoStrconv.Magnitude` | t-plot.go:101 | ParseInt's sign strip removes at most one rune, removes one exactly when the field starts with '+' or '-', and what it returns is the field's tail of that length |
| `GoStrconv.ScanUint` | t-plot.go:101 | ParseUint's digit loop succeeds only on an all-digit rest, with a value at least the one read so far and, started within 64 bits, never above 2^64 - 1; its full outcome is ScanUintOutcome |
| `GoStrconv.ParseUint` | t-plot.go:101 | strconv.ParseUint in base 10 succeeds only on a non-empty all-digit string, with a value within 64 bits; its full outcome on the part after the sign is ParseUintOfMagnitude |
| `GoStrconv.ScanUintOutcome` | t-plot.go:101 | the digit loop of strconv.ParseUint gives a range error exactly when the digits before the first non-digit exceed 2^64 - 1, otherwise a syntax error at a non-digit, otherwise the value of all the digits |
| `GoStrconv.ParseUintOfMagnitude` | t-plot.go:101 | ParseUint on the part after the sign: a range error when the leading digits overflow; a syntax error on any other malformed field; for a well-formed field, its magnitude, and overflow exactly when that exceeds 2^64 - 1 |
| `GoStrconv.Atoi` | t-plot.go:101 | the value always lies within the 64-bit range |
| `GoStrconv.AtoiValue` | t-plot.go:101 | the value of Atoi: the bound of the sign when the leading digits overflow 64 bits, whatever follows; otherwise 0 on a syntax error; the exact value of a well-formed field when in range, otherwise the nearest bound |
| `GoStrconv.AtoiOfOverflowingDigits` | t-plot.go:101 | digits worth more than 2^64 - 1 read as the largest int (smallest with '-'), whatever text follows them |
| `GoStrconv.DigitsValueOfNatDigits` | t-plot.go:101 | reading back the decimal digits of n gives n |
| `GoStrconv.ParseDecimalOfItoa` | t-plot.go:101 | round trip: parsing Itoa(n) gives exactly n |
| `GoStrconv.AtoiOfItoa` | t-plot.go:101 | round trip: Atoi(Itoa(n)) == n for every 64-bit n |
| `TPlot.LineInfo` | t-plot.go:94-101 | width is the rune count; value 0 if the column is missing; otherwise Atoi of field columnN: the bound of the sign if its leading digits overflow, 0 if it is otherwise not a decimal integer, its value if in range |
| `TPlot.LineInfoReadsColumn` | t-plot.go:96-101 | on words joined by spaces whose column k is Itoa(n), the extracted value is n |
| `TPlot.GetTextInfo` | t-plot.go:91-105 | one entry per line, in input order, each the metrics of its line |
| `TPlot.GetAllMax` | t-plot.go:107-119 | both maxima are >= 0 and >= every entry, and each is attained or 0; empty input gives (0, 0) |
| `TPlot.ScaleIsUnique` | t-plot.go:107-119 | the properties GetAllMax ensures determine its result |
| `TPlot.LabelWidthOfScale` | t-plot.go:94-118 | the width part of the scale of the metrics is the length of the longest line |
| `TPlot.PadRight` | t-plot.go:162-165 | the padded line has rune length max(len, width), starts with the line and is followed only by spaces |
| `TPlot.AlignTextLines` | t-plot.go:159-169 | one padded line per line, in order; if no line is wider than maxs.width, every result is exactly that wide |
| `TPlot.TermWidth` | t-plot.go:149-156 | 0 becomes 80; a width above 150 becomes 150; other widths are kept; the result is never above 150 and is >= 1 for a non-negative query |
| `TPlot.TermWidthIdempotent` | t-plot.go:149-154 | clamping twice is clamping once |
| `TPlot.ChartWidth` | t-plot.go:125-133 | an explicit positive width wins; otherwise the result is the larger of 10 and termWidth - labelWidth - 8; always >= 1 |
| `TPlot.TruncDiv` | t-plot.go:175 | the quotient has the sign of the dividend, and a dividend smaller in magnitude than the divisor gives 0 on both sides of 0 |
| `TPlot.TruncDivBounds` | t-plot.go:175 | the conversion to int rounds the exact quotient toward zero |
| `TPlot.TruncDivScaled` | t-plot.go:175 | for width >= 0 and 0 <= num <= maxNum the scaled quotient lies in [0, width]; it is width for num == maxNum and 0 for num == 0 |
| `TPlot.BarLength` | t-plot.go:175 | bar length within [0, width] for width >= 0 and 0 <= num <= maxNum; exactly width for the largest value; 0 for 0 |
| `TPlot.TruncDivMonotone` | t-plot.go:175 | the toward-zero quotient is monotone in the dividend |
| `TPlot.BarLengthMonotone` | t-plot.go:175 | a larger value never gets a shorter bar |
| `TPlot.Clip` | t-plot.go:176 | a run drawn from column 0 covers between 0 and width cells, exactly its length when that fits |
| `TPlot.BarRow` | t-plot.go:176-185 | a rendered row is width cells; cell k is the fill rune exactly when k is below the bar length, otherwise a space |
| `TPlot.RenderChart` | t-plot.go:171-191 | for empty input or a positive maximum: one row per entry, row i the bar of entry i's value on the scale, drawn with the first rune of barChar |
| `TPlot.ChartRowLayout` | t-plot.go:139 | a row is the label, spaces to the label column, a tab in that column, then the bar |
| `TPlot.AddChart` | t-plot.go:121-143 | for empty input or a positive maximum: one row per line, equal to padded label + tab + bar at the computed chart width; an explicit width fixes the bar part's length; rows form a table when no label exceeds maxs.width |
| `TPlot.ValueScaleOfLines` | t-plot.go:94-118 | the value part of the scale is >= 0 and >= every line's value, is attained or 0, and is positive when some line's value is |
| `TPlot.BarsOfMetrics` | t-plot.go:49-51 | rows built from the metrics of the lines are the label + tab + bar rows of BarsOf |
| `TPlot.BarCellsOfRow` | t-plot.go:139-143 | in such rows, the line holding the largest value has a bar that fills the chart column, and a zero value has a blank one |
| `TPlot.Plot` | t-plot.go:49-51 | for empty input or input with a positive value: the label width is the longest line's length and the scale the largest value (0 when none is positive); row i is line i padded to the label width, a tab, then the bar of line i's value on that scale at the computed chart width (BarsOf); the rows form a table, and an explicit width is exactly the chart column |
| `Styles.String` | styles.go:13-24 | csBarSimple, csBarHorizontal1px and csBarVertical1px print as "bar-simple", "bar-horizontal-1px" and "bar-vertical-1px"; the result is "unknown" exactly when the value is not one of the three styles |
| `Styles.StringInjective` | styles.go:13-20 | distinct styles have distinct names |
| `Styles.Parse` | styles.go:27-35 | a parsed name denotes one of the three styles, whose String is that name; every style's name parses to it |
| `Styles.ParseOfString` | styles.go:13-37 | round trip: Parse(String(cs)) == Some(cs) for each declared style |
| `Styles.StringOfParse` | styles.go:13-37 | round trip: when Parse(s) succeeds, String of its result is s |
| `Styles.StyleVar.constructor` | styles.go:7-8 | a new variable holds the zero value, csBarSimple |
| `Styles.StyleVar.Set` | styles.go:26-38 | succeeds exactly for the three names and stores the matching style; otherwise returns an error naming the string and leaves the variable unchanged |

## Left out

- `main`'s I/O, `parseArgs` (the flag package, `-h`, the empty `-c` check), `readStdin` and `printErr`/`os.Exit`: these are input, output and process control.
- `term.GetSize` in `getTermWidth`: it queries the terminal. Only the clamp applied to its result is modelled (`TermWidth`), and the queried width is a parameter.
- The drawing library (`tcg.NewBuffer`, `HLine`, `NewPixelMode`, `RenderAsStrings`) is not part of this model. `BarRow` assumes a rendered row is `width` cells: the fill rune for cells covered by the run, a space for the rest. It also assumes a run longer than the row is clipped and a negative length draws nothing.
- BarRow: assumes `RenderAsStrings` keeps the trailing blank cells of a row, that is, it does not trim them. The model does not check this against the library.
- AddChart: the clause `|res[i]| == Max(|lines[i]|, maxs.width) + 1 + cfg.width` and the row length in `IsChartLayout` rest on that BarRow assumption. If the library trimmed trailing spaces, only the label, the tab and the drawn cells would remain as stated.
- Plot: the row length in its `IsChartLayout` clause, and the phrase "an explicit width is exactly the chart column", rest on the same assumption. So does the row length in `BarCellsOfRow`.
- The error return of `NewPixelMode` (t-plot.go:181-183) is not modelled: the library is not part of this model.
- The row-count check at t-plot.go:186-188 is not modelled: in the model the rendered rows are one per entry by construction.
- BarLength: computes `num * width / maxNum` exactly, rounded toward zero. Go computes it in float64, so inputs near a rounding boundary, or values beyond 2^53, may differ by one. For `num == 0` and `num == maxNum` the two agree exactly.
- BarLength: requires `maxNum > 0`. When the input is not empty but no value is positive, Go computes `0/0` or `x/0` in floating point, and converting NaN or an infinity to `int` is implementation-defined.
- RenderChart: requires `info == [] || maxs.num > 0`, for the same reason. Empty input draws no bar and divides nothing, so it is allowed.
- AddChart: requires `info == [] || maxs.num > 0`, as RenderChart does.
- Plot: requires that the input be empty or that some line have a positive value, as RenderChart does.
- Negative values are modelled with the same toward-zero rounding. They give a negative length, which the unseen `HLine` receives; `BarRow` assumes it draws nothing.
- LineInfo: requires `columnN >= 1`, because `-k 0` or a negative column indexes `fields[columnN-1]` out of range and panics (t-plot.go:101).
- Invalid UTF-8 is not modelled: strings are sequences of Unicode scalar values, so the invalid-byte counting of `RuneCountInString` and the decoding of `DecodeRuneInString` do not arise.
- The `String` method of `chartStyle` takes its receiver by value, so it is the module function `Styles.String` rather than a member of `StyleVar`. Nothing in `t-plot.go` calls `Set` or `String`: `parseArgs` (t-plot.go:60-79) registers no style flag. So both are modelled for `styles.go` alone.
- Atoi: the `*NumError` that `strconv.Atoi` returns with the value is not modelled, because t-plot discards it (t-plot.go:101).
- The error text of `Set` (`fmt.Errorf` with `%q` quoting) is modelled as the value `UnknownChartStyle(s)`, not as formatted text.
