# Boxplot summary of a retail table, in Dafny

This project models the boxplot-summary helpers of `src/seanlib.py`, a
notebook-support library for exploratory retail data analysis. It also models
the cell encoder of its market-basket loader.

- `df_gen` summarises one numeric column into a pseudo-frame. The frame holds
  the five plotted datums `[q0, q1, q2, q3, q4]` and one annotation per side.
  The fences `q0` and `q4` are `median -/+ 1.5 * (q3 - q1)`. They are centred
  on the median, not on the quartiles as Tukey's fences are, and the model
  keeps that choice. On each side the annotation is an outlier mark at the
  fence when the true extreme lies beyond it, and a bound mark at the true
  extreme otherwise.
- `prod_chart` turns a pseudo-frame into a chart unit. The x-axis domain is
  the range from `q0` to `q4`, padded by a tenth of its width on each side.
  Each side gets a red rule for an outlier mark or a blue rule for a bound
  mark.
- `checklist` and `boxplotblast` keep the columns whose dtype name is
  `float32`, `float64`, `int16`, `int32` or `int64`, in table order, and build
  one chart unit per kept column. The units are stacked vertically.
- `encode_units` maps a quantity to 0 when it is at most 0, to 1 when it is at
  least 1, and to nothing (Python `None`) when it lies strictly between.

Modules, one per component of the source file:

- `Wrappers`: `Option` and `Result`.
- `Stats`: the column minimum and maximum.
- `BoxPlot`: `df_gen`.
- `Chart`: `prod_chart`, covering the domain and the layer choice.
- `Blast`: `checklist` and `boxplotblast`.
- `Basket`: `encode_units`.
- `ColumnClash`: the pseudo-frame as a table of named columns, exactly as the
  source builds it. It backs the finding below.

Numbers are exact `real`s. The quartiles (`quantile(0.25)`, `median()`,
`quantile(0.75)`) come from the tabular-data library, so they enter the model
as parameters (`BoxPlot.Quartiles`). The minimum and maximum are computed over
the column's cells, which must be a non-empty `seq<real>`.

`df_gen`, `prod_chart` and `boxplotblast` change local state step by step.
They are methods whose bodies follow the source:

- `DfGen` fills a summary with placeholder fences, overwrites the fences, and
  then adds one annotation per side.
- `ProdChart` assigns each side's layer through the source's sequence of `if`s.
- `BoxplotBlast` selects the numeric columns. Its helper `StackCharts` charts
  the first one and then appends one unit per further column in a loop.

Each method is proved equal to a specification function (`FrameOf`, `UnitOf`,
`ChartOf`), and the properties are proved as lemmas about those functions.

The pseudo-frame's optional annotation columns become explicit per-side
values. `Mark.Outlier` stands for the `outlierL`/`outlierR` column, and
`Mark.Bound` for the `min`/`max` column. `None` means the column has not been
added yet, which is the source's layer placeholder `0`.

On a table with no numeric column, the source's `numCols[0]` raises an
IndexError; `BoxplotBlast` returns `Failure(NoNumericColumns)` instead. When a
numeric column's name is used by two columns, `data[colname]` is a table, its
statistics are series, and `df_gen`'s first `if` raises; `BoxplotBlast`
returns `Failure(RepeatedName(name))`.

## Model

| member | source | states |
|---|---|---|
| `Stats.Min` | src/seanlib.py:31 | the column minimum is one of the column's values and no value is smaller |
| `Stats.Max` | src/seanlib.py:37 | the column maximum is one of the column's values and no value is larger |
| `Stats.ExtremesAt` | src/seanlib.py:31-37 | a value no other value undercuts is the minimum, and a value no other exceeds is the maximum |
| `BoxPlot.DfGen` | src/seanlib.py:29-53 | equals `FrameOf`; the frame keeps the column name and has five datums; both sides get an annotation; the lower one is an outlier iff min < q0 and the upper one iff max > q4 |
| `BoxPlot.FencesCentredOnMedian` | src/seanlib.py:38-39 | the fences lie 1.5 IQR on either side of the median, symmetric about it, and collapse onto the median exactly when q1 = q3 |
| `BoxPlot.FencesBracketMedian` | src/seanlib.py:38-39 | q1 <= q3 implies q0 <= median <= q4 |
| `BoxPlot.FencesInsideTukey` | src/seanlib.py:28-39 | with ordered quartiles the median-centred fences lie inside Tukey's, so every Tukey outlier is also an outlier here |
| `BoxPlot.DatumAscending` | src/seanlib.py:41 | the datum column is exactly [q0, q1, median, q3, q4] with the two fences at both ends, ascending when q1 <= median <= q3 |
| `BoxPlot.LowerMarkCases` | src/seanlib.py:43-46 | exactly one lower mark: an outlier iff min < q0, placed at q0, else a bound at the true min; its position is the larger of min and q0 |
| `BoxPlot.UpperMarkCases` | src/seanlib.py:48-51 | exactly one upper mark: an outlier iff max > q4, placed at q4, else a bound at the true max; its position is the smaller of max and q4 |
| `BoxPlot.MarksWithinFences` | src/seanlib.py:43-51 | when min <= q1 <= median <= q3 <= max, both marks lie between the fences |
| `BoxPlot.ExampleColumn` | src/seanlib.py:29-53 | for [1,2,3,4,5,100] with quartiles 2.25/3.5/4.75: datums [-0.25,2.25,3.5,4.75,7.25], Bound(1) below and Outlier(7.25) above |
| `Chart.ProdChart` | src/seanlib.py:60-100 | equals `UnitOf`; keeps the name and datums; a side gets a rule iff its annotation is present, and the rule is red iff the annotation is an outlier |
| `Chart.PaddedDomainContainsFences` | src/seanlib.py:65-67 | for q0 <= q4 the domain contains [q0, q4], pads both sides equally, and is 1.2 times the fence range wide |
| `Chart.PaddedDomainRecoversFences` | src/seanlib.py:65-67 | a fact about the model, not a promise of the source (which never inverts the domain): the fences are recovered from the domain by removing 1/12 of its width on each side |
| `Chart.PaddedDomainDegenerate` | src/seanlib.py:65-67 | the domain has zero width exactly when q0 = q4 |
| `Chart.PaddedDomainExample` | src/seanlib.py:65-67 | fences 0 and 10 give the domain [-1, 11] |
| `Chart.LayersOfSummary` | src/seanlib.py:79-98 | for a frame made by `df_gen`, neither side keeps the placeholder: red at q0 iff min < q0, else blue at min; red at q4 iff max > q4, else blue at max |
| `Chart.RulesInsideDomain` | src/seanlib.py:65-73 | the unit's domain is the padded fence range, and with ordered statistics both rules fall inside the clipped domain |
| `Blast.ChecklistIsNumericKind` | src/seanlib.py:57-58 | `checklist` accepts a dtype name iff it names one of float32, float64, int16, int32, int64 |
| `Blast.ChecklistRefusesOthers` | src/seanlib.py:57-58 | bool, object, int8, uint64, float16 and the nullable Int64 are refused |
| `Blast.NumericColumns` | src/seanlib.py:108-110 | a column is kept iff it is in the table and its dtype passes `checklist`; no more columns than the table has |
| `Blast.NumericColumnsAppend` | src/seanlib.py:108-110 | selection distributes over concatenation, so kept columns stay in table order |
| `Blast.NumericColumnsIdempotent` | src/seanlib.py:108-110 | selecting again from the selection changes nothing |
| `Blast.NumericColumnsAllNumeric` | src/seanlib.py:108-110 | a table of numeric columns only is kept whole |
| `Blast.ChartColumn` | src/seanlib.py:111 | `prod_chart(df_gen(df, c), c)` yields the unit `ChartOf(c)` |
| `Blast.StackCharts` | src/seanlib.py:111-115 | one unit per column, the k-th being the chart of the k-th column, in order |
| `Blast.BoxplotBlast` | src/seanlib.py:106-119 | fails with `NoNumericColumns` iff no column is numeric (the IndexError); otherwise fails with `RepeatedName` iff a numeric column's name is used by another column too, and names that name (`data[colname]` at line 30 is then a table and the `if` at line 43 raises); otherwise one unit per kept column, the k-th unit being the chart of the k-th kept column |
| `Blast.SelectionExample` | src/seanlib.py:106-115 | a table [A:int64, B:object, C:float64] yields two units, A's then C's |
| `Basket.EncodeUnits` | src/seanlib.py:136-140 | any value returned is 0 or 1 |
| `Basket.EncodeUnitsCases` | src/seanlib.py:136-140 | 0 iff x <= 0, 1 iff x >= 1, no value iff 0 < x < 1 |
| `Basket.EncodeUnitsWholeQuantities` | src/seanlib.py:136-140 | every whole quantity is encoded: 1 if positive, else 0 |
| `Basket.EncodeUnitsMonotoneAndIdempotent` | src/seanlib.py:136-140 | where defined, encoding is monotone; and, as a fact about the model only (the loader never re-encodes a cell), 0 and 1 are fixed points of the encoder |
| `ColumnClash.DfGenColumns` | src/seanlib.py:41-51 | the pseudo-frame, as a map from column name to contents, always has a `datum` column and a column under the analysed column's name |
| `ColumnClash.AgreesUnlessReserved` | src/seanlib.py:41-98 | for a column whose name is not min, max, outlierL, outlierR or datum, the label and both layers picked by column name equal those of the tagged model |
| `ColumnClash.MinNamedColumnLosesOutlier` | src/seanlib.py:43-89 | for every column named `min` whose min is below q0, the source's lower layer is a blue rule over the label text, not the red rule at q0 |
| `ColumnClash.MinLabelOverridesOutlier` | src/seanlib.py:41-89 | the same for any summary with min < q0: the `min` label column survives beside `outlierL`, and the later blue branch wins |
| `ColumnClash.MinNamedColumnExample` | src/seanlib.py:41-89 | [-10, 1, 1, 2, 3, 3, 4], whose linear quartiles are 1/2/3, has fence -1 and minimum -10, so a column named `min` with these values is drawn with a blue rule over its label |
| `ColumnClash.MaxNamedColumnLosesLabel` | src/seanlib.py:41-71 | for every column named `max` whose max is inside q4, the y field holds the maximum instead of the name the tagged model keeps |

## Findings

| source | as written | input that shows it | evidently intended | confidence | as-written member | corrected member |
|---|---|---|---|---|---|---|
| src/seanlib.py:41-98 | the pseudo-frame keeps the analysed column's label under the column's own name. `df_gen` then adds `outlierL`/`min`/`outlierR`/`max` columns to the same frame, and `prod_chart` picks layers by testing those names | a numeric column named `min` with values [-10, 1, 1, 2, 3, 3, 4], whose linear quartiles are 1/2/3 (q0 = -1). The frame holds both `outlierL` and the label `min`, so the blue branch wins and the lower rule is drawn over the text "min" | the column name should never decide a layer: the lower rule is red at q0 = -1, and the label stays the name | not executed | `ColumnClash.MinNamedColumnLosesOutlier`, `ColumnClash.MinNamedColumnExample` | `Chart.LayersOfSummary` |

`ColumnClash.AgreesUnlessReserved` proves that the tagged model matches the
source for every column name outside the five reserved ones. Every other
module uses the tagged model.

## Left out

- Module imports and notebook/display settings (src/seanlib.py:4-20) are environment side effects.
- Rendering of the charts is left out: `mark_boxplot`, `encode`, axis titles, sizes, and the `+`/`&` composition are calls into the charting library. A unit keeps only its label, datums, domain and the colour and position of its rules. Vertical stacking is the order of the returned sequence.
- pandas' quantile, median, min and max are replaced. The quartiles are parameters, and min/max are `Stats.Min`/`Stats.Max` over exact reals. NaN cells and floating-point rounding are not modelled.
- Stats.Min: requires a non-empty column. On an empty column pandas returns NaN, and the comparisons in `df_gen` would then pick bound marks at NaN.
- Blast.BoxplotBlast: requires every numeric column to be non-empty, for the same reason. It does not model the printed colour legend (src/seanlib.py:117), which is console output.
- Blast.BoxplotBlast: column labels are modelled as strings. A non-string label, such as pandas' default integer labels, makes `colname+":O"` (src/seanlib.py:71) raise a TypeError; that failure is not modelled.
- Blast.BoxplotBlast: when several numeric columns have repeated names, the source raises at the first of them in table order; the model reports some repeated numeric name, not necessarily the first.
- Blast.BoxplotBlast, BoxPlot.DfGen, Chart.ProdChart: for a column named `min`, `max`, `outlierL`, `outlierR` or `datum`, these give the intended picture of the tagged model, not the one the source draws; the source's picture for those names is stated in `ColumnClash` (see Findings).
- The domain computation of the as-written column model in `ColumnClash` is not stated. It reads the `datum` column, which is always the list of datums, so it equals `Chart.PaddedDomain`.
- `loadcleandata` (src/seanlib.py:122-133) is left out: it reads an Excel file and reshapes the data with pandas groupby/unstack. Its cell encoder `encode_units` is modelled.
- `getrules` (src/seanlib.py:144-147) is left out: it only calls external rule-mining routines.
