/** Column selection and the batch driver (`checklist` and `boxplotblast` in
    src/seanlib.py): keep the columns whose dtype name is one of five numeric
    kinds, in table order, and build one chart unit per kept column; the units
    are stacked vertically in that order. */
module Blast {
  import opened Wrappers
  import opened BoxPlot
  import opened Chart

  /** The dtype kinds `checklist` recognises. */
  datatype NumericKind = Float32 | Float64 | Int16 | Int32 | Int64

  function KindName(k: NumericKind): string
  {
    match k
    case Float32 => "float32"
    case Float64 => "float64"
    case Int16 => "int16"
    case Int32 => "int32"
    case Int64 => "int64"
  }

  /** `checklist`: is the dtype name in the list of numeric kinds? */
  function Checklist(dtype: string): bool
  {
    dtype in ["float32", "float64", "int16", "int32", "int64"]
  }

  /** A column of the input table: its name, its dtype name, its cells (only
      read when the column is numeric) and the quartiles the tabular-data
      library computes for it. */
  datatype Column = Column(name: string, dtype: string, cells: seq<real>, quartiles: Quartiles)

  /** The boolean-mask selection `df.columns[df.dtypes.apply(checklist)]`. */
  function NumericColumns(table: seq<Column>): (r: seq<Column>)
    ensures |r| <= |table|
    ensures forall c :: c in r <==> c in table && Checklist(c.dtype)
  {
    if table == [] then []
    else (if Checklist(table[0].dtype) then [table[0]] else []) + NumericColumns(table[1..])
  }

  /** Every numeric column has at least one cell to summarise. */
  predicate Summarisable(table: seq<Column>)
  {
    var numCols := NumericColumns(table);
    forall k :: 0 <= k < |numCols| ==> |numCols[k].cells| > 0
  }

  /** The chart unit of one column. */
  function ChartOf(c: Column): ChartUnit
    requires |c.cells| > 0
  {
    UnitOf(FrameOf(c.name, c.cells, c.quartiles))
  }

  /** Why `boxplotblast` raises: `numCols[0]` on an empty selection (an
      IndexError), or a numeric column whose name the table uses twice, so that
      `data[colname]` yields a table, its statistics are series, and the `if`
      of `df_gen` cannot decide (a ValueError). */
  datatype BlastError = NoNumericColumns | RepeatedName(name: string)

  /** Some numeric column shares its name with another column of the table. */
  predicate HasRepeatedNumericName(table: seq<Column>)
  {
    exists i, j :: 0 <= i < |table| && 0 <= j < |table| && i != j &&
      table[i].name == table[j].name && Checklist(table[i].dtype)
  }

  /** One pass of the driver's body: `prod_chart(df_gen(df, item), item)`. */
  method ChartColumn(c: Column) returns (unit: ChartUnit)
    requires |c.cells| > 0
    ensures unit == ChartOf(c)
  {
    var frame := DfGen(c.name, c.cells, c.quartiles);
    unit := ProdChart(frame);
  }

  /** `boxplotblast`'s stacking: chart the first numeric column, then append
      the chart of each further one, in order (`finalChart & currChart`). */
  method StackCharts(numCols: seq<Column>) returns (finalChart: seq<ChartUnit>)
    requires |numCols| > 0
    requires forall k :: 0 <= k < |numCols| ==> |numCols[k].cells| > 0
    ensures |finalChart| == |numCols|
    ensures forall k :: 0 <= k < |numCols| ==> finalChart[k] == ChartOf(numCols[k])
  {
    var first := ChartColumn(numCols[0]);
    finalChart := [first];

    for i := 1 to |numCols|
      invariant |finalChart| == i
      invariant forall k :: 0 <= k < i ==> finalChart[k] == ChartOf(numCols[k])
    {
      var currChart := ChartColumn(numCols[i]);
      finalChart := finalChart + [currChart];
    }
  }

  /** `boxplotblast`: select the numeric columns and stack their charts; on a
      table with none, `numCols[0]` raises an IndexError, and a numeric column
      whose name is repeated makes `df_gen` raise. The legend it prints is not
      modelled. */
  method BoxplotBlast(table: seq<Column>) returns (r: Result<seq<ChartUnit>, BlastError>)
    requires Summarisable(table)
    ensures r == Failure(NoNumericColumns) <==> NumericColumns(table) == []
    ensures r.Failure? && r.error.RepeatedName? <==> NumericColumns(table) != [] && HasRepeatedNumericName(table)
    ensures r.Failure? && r.error.RepeatedName? ==>
      exists i, j :: 0 <= i < |table| && 0 <= j < |table| && i != j &&
        table[i].name == table[j].name == r.error.name && Checklist(table[i].dtype)
    ensures r.Success? ==>
      |r.value| == |NumericColumns(table)| &&
      forall k :: 0 <= k < |r.value| ==> r.value[k] == ChartOf(NumericColumns(table)[k])
  {
    var numCols := NumericColumns(table);
    if |numCols| == 0 {
      return Failure(NoNumericColumns);
    }
    if HasRepeatedNumericName(table) {
      var i, j :| 0 <= i < |table| && 0 <= j < |table| && i != j &&
        table[i].name == table[j].name && Checklist(table[i].dtype);
      return Failure(RepeatedName(table[i].name));
    }
    var finalChart := StackCharts(numCols);
    return Success(finalChart);
  }

  // ---------------------------------------------------------------- checklist

  /** `checklist` accepts a dtype name exactly when it names one of the five
      numeric kinds. */
  lemma ChecklistIsNumericKind(dtype: string)
    ensures Checklist(dtype) <==> exists k :: KindName(k) == dtype
  {
    if Checklist(dtype) {
      var k := if dtype == "float32" then Float32 else if dtype == "float64" then Float64
               else if dtype == "int16" then Int16 else if dtype == "int32" then Int32 else Int64;
      assert KindName(k) == dtype;
    }
  }

  /** Other dtypes pandas reports are refused: booleans, objects (strings),
      8-bit and unsigned integers, 16-bit floats, the nullable `Int64`. */
  lemma ChecklistRefusesOthers()
    ensures !Checklist("bool") && !Checklist("object") && !Checklist("int8") &&
            !Checklist("uint64") && !Checklist("float16") && !Checklist("Int64")
  {
  }

  // ---------------------------------------------------------------- selection

  /** Selection distributes over concatenation: the kept columns of a table
      are the kept columns of its head followed by those of its tail, so the
      table's order is preserved. */
  lemma {:induction false} NumericColumnsAppend(a: seq<Column>, b: seq<Column>)
    ensures NumericColumns(a + b) == NumericColumns(a) + NumericColumns(b)
  {
    if a == [] {
      assert a + b == b;
    } else {
      assert (a + b)[1..] == a[1..] + b;
      NumericColumnsAppend(a[1..], b);
    }
  }

  /** Selecting twice keeps what selecting once keeps. */
  lemma {:induction false} NumericColumnsIdempotent(table: seq<Column>)
    ensures NumericColumns(NumericColumns(table)) == NumericColumns(table)
  {
    if table != [] {
      var head := if Checklist(table[0].dtype) then [table[0]] else [];
      NumericColumnsAppend(head, NumericColumns(table[1..]));
      NumericColumnsIdempotent(table[1..]);
      if Checklist(table[0].dtype) {
        assert head[1..] == [];
      }
    }
  }

  /** A table of numeric columns only is kept whole. */
  lemma {:induction false} NumericColumnsAllNumeric(table: seq<Column>)
    requires forall i :: 0 <= i < |table| ==> Checklist(table[i].dtype)
    ensures NumericColumns(table) == table
  {
    if table != [] {
      NumericColumnsAllNumeric(table[1..]);
    }
  }

  /** A table [A: int64, B: object, C: float64] yields two units, A's then C's. */
  lemma SelectionExample(a: seq<real>, b: seq<real>, c: seq<real>, qa: Quartiles, qb: Quartiles, qc: Quartiles)
    requires |a| > 0 && |c| > 0
    ensures var t := [Column("A", "int64", a, qa), Column("B", "object", b, qb), Column("C", "float64", c, qc)];
      NumericColumns(t) == [t[0], t[2]] &&
      ChartOf(NumericColumns(t)[0]).name == "A" && ChartOf(NumericColumns(t)[1]).name == "C"
  {
    var t := [Column("A", "int64", a, qa), Column("B", "object", b, qb), Column("C", "float64", c, qc)];
    NumericColumnsAppend([t[0]], [t[1], t[2]]);
    NumericColumnsAppend([t[1]], [t[2]]);
    assert t == [t[0]] + [t[1], t[2]];
    assert [t[1], t[2]] == [t[1]] + [t[2]];
  }
}
