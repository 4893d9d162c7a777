/** The pseudo-frame as src/seanlib.py really builds it: a table whose columns
    are found by NAME. `df_gen` starts from the columns `colname` (the label,
    every row holding the column's own name) and `datum`, then adds
    `outlierL` or `min` and `outlierR` or `max`; `prod_chart` decides each
    side's layer by asking which of those names are present, and draws the
    rule at the value held under that name.

    When the analysed column is itself called `min`, `max`, `outlierL`,
    `outlierR` or `datum`, its label column and an annotation column share a
    name. This module states that behaviour and shows where it departs from
    the tagged model of BoxPlot and Chart, which the rest of the project uses. */
module ColumnClash {
  import opened Wrappers
  import opened Stats
  import opened BoxPlot
  import opened Chart

  /** The contents of one pseudo-frame column: the repeated label, the five
      datums, or one number repeated on every row. */
  datatype Series = Labels(text: string) | Datums(xs: seq<real>) | Constant(v: real)

  /** A layer whose x field is a column: the placeholder `0`, or a rule of a
      colour over the contents of the named column. */
  datatype FieldRule = Placeholder | FieldRule(colour: Colour, field: Series)

  /** What decides the picture beyond the domain: the contents of the label
      (y) column and the two layers. */
  datatype Lines = Lines(yField: Series, lowerLine: FieldRule, upperLine: FieldRule)

  const Reserved: set<string> := {"min", "max", "outlierL", "outlierR", "datum"}

  /** The pseudo-frame's own column names are pairwise distinct. */
  lemma NamesDistinct()
    ensures "min" != "max" && "outlierL" != "outlierR"
    ensures "min" != "outlierL" && "min" != "outlierR" && "min" != "datum"
    ensures "max" != "outlierL" && "max" != "outlierR" && "max" != "datum"
    ensures "datum" != "outlierL" && "datum" != "outlierR"
  {
    assert "min"[1] != "max"[1];
    assert "outlierL"[7] != "outlierR"[7];
    assert |"min"| != |"outlierL"| && |"min"| != |"datum"| && |"outlierL"| != |"datum"|;
  }

  /** `df_gen`'s columns. In the dictionary literal a repeated key keeps its
      last value, and an assignment to an existing column replaces it. */
  function DfGenColumns(colname: string, s: Summary): (cols: map<string, Series>)
    ensures "datum" in cols && colname in cols
  {
    var base := map[colname := Labels(colname)]["datum" := Datums(Datum(s))];
    var withLower := if s.min < s.q0 then base["outlierL" := Constant(s.q0)]
                     else base["min" := Constant(s.min)];
    if s.max > s.q4 then withLower["outlierR" := Constant(s.q4)]
    else withLower["max" := Constant(s.max)]
  }

  /** `prod_chart`'s layer choice by column name; a later `if` overrides an
      earlier one. */
  function LinesByName(cols: map<string, Series>, colname: string): Lines
    requires colname in cols
  {
    var lower0 := Placeholder;
    var lower1 := if "outlierL" in cols then FieldRule(Red, cols["outlierL"]) else lower0;
    var lower2 := if "min" in cols then FieldRule(Blue, cols["min"]) else lower1;
    var upper0 := Placeholder;
    var upper1 := if "outlierR" in cols then FieldRule(Red, cols["outlierR"]) else upper0;
    var upper2 := if "max" in cols then FieldRule(Blue, cols["max"]) else upper1;
    Lines(cols[colname], lower2, upper2)
  }

  /** The source as written, for one column. */
  function LinesAsWritten(colname: string, cells: seq<real>, q: Quartiles): Lines
    requires |cells| > 0
  {
    LinesByName(DfGenColumns(colname, SummaryOf(cells, q)), colname)
  }

  function AsFieldRule(l: Layer): FieldRule
  {
    match l
    case NoLayer => Placeholder
    case Rule(c, x) => FieldRule(c, Constant(x))
  }

  /** The same picture read off the tagged model: the label is the column's
      name and each layer is the one the mark asks for. */
  function LinesIntended(colname: string, cells: seq<real>, q: Quartiles): Lines
    requires |cells| > 0
  {
    var u := UnitOf(FrameOf(colname, cells, q));
    Lines(Labels(u.name), AsFieldRule(u.lowerLine), AsFieldRule(u.upperLine))
  }

  /** For every column whose name is not one of the pseudo-frame's own column
      names, the source as written draws exactly what the tagged model says. */
  lemma AgreesUnlessReserved(colname: string, cells: seq<real>, q: Quartiles)
    requires |cells| > 0
    requires colname !in Reserved
    ensures LinesAsWritten(colname, cells, q) == LinesIntended(colname, cells, q)
  {
    var s := SummaryOf(cells, q);
    var cols := DfGenColumns(colname, s);
    assert cols[colname] == Labels(colname);
    assert "outlierL" in cols <==> s.min < s.q0;
    assert "min" in cols <==> !(s.min < s.q0);
    assert "outlierR" in cols <==> s.max > s.q4;
    assert "max" in cols <==> !(s.max > s.q4);
  }

  /** Every column named `min` whose minimum lies below the lower fence (for
      instance [-10, 1, 1, 2, 3, 3, 4], whose linear quartiles are 1, 2, 3 and
      whose lower fence is -1): the source
      keeps the label column `min` next to `outlierL`, so the blue branch
      overrides the red one and the rule is drawn over the label text instead
      of the red rule at the fence that `Chart.LayersOfSummary` gives. */
  lemma MinNamedColumnLosesOutlier(cells: seq<real>, q: Quartiles)
    requires |cells| > 0 && Min(cells) < LowerFence(q)
    ensures LinesAsWritten("min", cells, q).lowerLine == FieldRule(Blue, Labels("min"))
  {
    MinLabelOverridesOutlier(SummaryOf(cells, q));
  }

  /** The same, for any summary whose minimum is below its lower fence. */
  lemma MinLabelOverridesOutlier(s: Summary)
    requires s.min < s.q0
    ensures LinesByName(DfGenColumns("min", s), "min").lowerLine == FieldRule(Blue, Labels("min"))
  {
    NamesDistinct();
    var withLower := map["min" := Labels("min")]["datum" := Datums(Datum(s))]["outlierL" := Constant(s.q0)];
    assert withLower["min"] == Labels("min");
    var cols := DfGenColumns("min", s);
    if s.max > s.q4 {
      assert cols == withLower["outlierR" := Constant(s.q4)];
      assert "outlierL" in cols && cols["min"] == Labels("min");
    } else {
      assert cols == withLower["max" := Constant(s.max)];
      assert "outlierL" in cols && cols["min"] == Labels("min");
    }
  }

  /** Every column named `max` whose maximum stays inside the upper fence: the
      bound column `max` replaces the label column, so the y axis shows the
      maximum where the column's name belongs. */
  lemma MaxNamedColumnLosesLabel(cells: seq<real>, q: Quartiles)
    requires |cells| > 0 && Max(cells) <= UpperFence(q)
    ensures LinesAsWritten("max", cells, q).yField == Constant(Max(cells))
    ensures LinesIntended("max", cells, q).yField == Labels("max")
  {
  }

  /** The first lemma's premise is met: [-10, 1, 1, 2, 3, 3, 4], whose linear
      quartiles are 1, 2 and 3, has its minimum below the fence -1. */
  lemma MinNamedColumnExample(cells: seq<real>)
    requires cells == [-10.0, 1.0, 1.0, 2.0, 3.0, 3.0, 4.0]
    ensures LowerFence(Quartiles(1.0, 2.0, 3.0)) == -1.0 && Min(cells) == -10.0
    ensures LinesAsWritten("min", cells, Quartiles(1.0, 2.0, 3.0)).lowerLine == FieldRule(Blue, Labels("min"))
  {
    ExtremesAt(cells, 0, 6);
    MinNamedColumnLosesOutlier(cells, Quartiles(1.0, 2.0, 3.0));
  }
}
