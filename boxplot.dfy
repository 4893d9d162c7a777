/** The boxplot summary of one numeric column (`df_gen` in src/seanlib.py).

    The summary holds the seven entries of the source's `qDict`: the column's
    true minimum and maximum, its three quartiles as the tabular-data library
    computes them, and two fences. The fences are centred on the MEDIAN
    (`median -/+ 1.5 * IQR`), not on the first and third quartiles as Tukey's
    fences are; the model keeps that choice. The pseudo-frame handed to the
    chart carries the five plotted datums and, per side, the one annotation
    column `df_gen` adds: an outlier mark drawn at the fence or a bound mark
    drawn at the true extreme. */
module BoxPlot {
  import opened Wrappers
  import opened Stats

  /** The quartiles of a column, an input of the model (`quantile(0.25)`,
      `median()`, `quantile(0.75)`). */
  datatype Quartiles = Quartiles(q1: real, median: real, q3: real)

  /** The source's `qDict`. */
  datatype Summary = Summary(min: real, q0: real, q1: real, q2: real, q3: real, q4: real, max: real)

  /** One side's annotation column: `outlierL`/`outlierR` (Outlier) or
      `min`/`max` (Bound), holding the coordinate where the rule is drawn. */
  datatype Mark = Outlier(at: real) | Bound(at: real)

  /** The source's `pseudoDF`: the label column (`name`), the `datum` column, and the
      annotation column of each side (None while it has not been added). */
  datatype PseudoFrame = PseudoFrame(name: string, datum: seq<real>, lowerMark: Option<Mark>, upperMark: Option<Mark>)

  function Iqr(q: Quartiles): real { q.q3 - q.q1 }

  function LowerFence(q: Quartiles): real { q.median - 1.5 * Iqr(q) }

  function UpperFence(q: Quartiles): real { q.median + 1.5 * Iqr(q) }

  /** Tukey's textbook fences, which the source does NOT use; kept as a
      reference to compare the median-centred fences with. */
  function TukeyLower(q: Quartiles): real { q.q1 - 1.5 * Iqr(q) }

  function TukeyUpper(q: Quartiles): real { q.q3 + 1.5 * Iqr(q) }

  /** What pandas guarantees of its own statistics on a non-empty column. */
  predicate Ordered(cells: seq<real>, q: Quartiles)
    requires |cells| > 0
  {
    Min(cells) <= q.q1 <= q.median <= q.q3 <= Max(cells)
  }

  function SummaryOf(cells: seq<real>, q: Quartiles): Summary
    requires |cells| > 0
  {
    Summary(Min(cells), LowerFence(q), q.q1, q.median, q.q3, UpperFence(q), Max(cells))
  }

  function Datum(s: Summary): seq<real> { [s.q0, s.q1, s.q2, s.q3, s.q4] }

  /** The lower annotation: outlier at the fence when the true minimum lies
      below it, else a bound at the true minimum. */
  function LowerMarkOf(s: Summary): Mark
  {
    if s.min < s.q0 then Outlier(s.q0) else Bound(s.min)
  }

  function UpperMarkOf(s: Summary): Mark
  {
    if s.max > s.q4 then Outlier(s.q4) else Bound(s.max)
  }

  /** The pseudo-frame `df_gen` returns, stated as a value. */
  function FrameOf(colname: string, cells: seq<real>, q: Quartiles): PseudoFrame
    requires |cells| > 0
  {
    var s := SummaryOf(cells, q);
    PseudoFrame(colname, Datum(s), Some(LowerMarkOf(s)), Some(UpperMarkOf(s)))
  }

  /** `df_gen`, step by step: fill the summary with placeholder fences,
      overwrite them, build the two-column frame, then add one annotation
      column per side. */
  method DfGen(colname: string, cells: seq<real>, q: Quartiles) returns (frame: PseudoFrame)
    requires |cells| > 0
    ensures frame == FrameOf(colname, cells, q)
    ensures frame.name == colname && |frame.datum| == 5
    ensures frame.lowerMark.Some? && frame.upperMark.Some?
    ensures frame.lowerMark.value.Outlier? <==> Min(cells) < LowerFence(q)
    ensures frame.upperMark.value.Outlier? <==> Max(cells) > UpperFence(q)
  {
    var qDict := Summary(Min(cells), 0.0, q.q1, q.median, q.q3, 0.0, Max(cells));
    qDict := qDict.(q0 := qDict.q2 - 1.5 * (qDict.q3 - qDict.q1));
    qDict := qDict.(q4 := qDict.q2 + 1.5 * (qDict.q3 - qDict.q1));

    frame := PseudoFrame(colname, [qDict.q0, qDict.q1, qDict.q2, qDict.q3, qDict.q4], None, None);

    if qDict.min < qDict.q0 {
      frame := frame.(lowerMark := Some(Outlier(qDict.q0)));
    } else {
      frame := frame.(lowerMark := Some(Bound(qDict.min)));
    }

    if qDict.max > qDict.q4 {
      frame := frame.(upperMark := Some(Outlier(qDict.q4)));
    } else {
      frame := frame.(upperMark := Some(Bound(qDict.max)));
    }
  }

  // ---------------------------------------------------------------- fences

  /** The fences are symmetric about the median, each 1.5 IQR away, and they
      collapse onto the median exactly when the IQR is zero. */
  lemma FencesCentredOnMedian(q: Quartiles)
    ensures q.median - LowerFence(q) == UpperFence(q) - q.median == 1.5 * (q.q3 - q.q1)
    ensures LowerFence(q) + UpperFence(q) == 2.0 * q.median
    ensures (LowerFence(q) == q.median == UpperFence(q)) <==> q.q1 == q.q3
  {
  }

  /** With q1 <= q3 the median lies between the fences. */
  lemma FencesBracketMedian(q: Quartiles)
    requires q.q1 <= q.q3
    ensures LowerFence(q) <= q.median <= UpperFence(q)
  {
  }

  /** The median-centred fences lie inside Tukey's whenever the quartiles are
      ordered, so a value Tukey calls an outlier is an outlier here too. */
  lemma FencesInsideTukey(q: Quartiles, x: real)
    requires q.q1 <= q.median <= q.q3
    ensures TukeyLower(q) <= LowerFence(q) && UpperFence(q) <= TukeyUpper(q)
    ensures x < TukeyLower(q) ==> x < LowerFence(q)
    ensures x > TukeyUpper(q) ==> x > UpperFence(q)
  {
  }

  // ---------------------------------------------------------------- datums

  /** The datum column is exactly [q0, q1, q2, q3, q4], ascending when the
      quartiles are. */
  lemma DatumAscending(cells: seq<real>, q: Quartiles)
    requires |cells| > 0
    requires q.q1 <= q.median <= q.q3
    ensures var d := FrameOf("", cells, q).datum;
      |d| == 5 && d[0] == LowerFence(q) && d[1] == q.q1 && d[2] == q.median &&
      d[3] == q.q3 && d[4] == UpperFence(q) &&
      forall i, j :: 0 <= i <= j < 5 ==> d[i] <= d[j]
  {
    var d := FrameOf("", cells, q).datum;
    assert d[0] <= d[1] by { assert q.median - q.q1 <= q.q3 - q.q1 <= 1.5 * (q.q3 - q.q1); }
    assert d[3] <= d[4] by { assert q.q3 - q.median <= q.q3 - q.q1 <= 1.5 * (q.q3 - q.q1); }
  }

  // ---------------------------------------------------------------- marks

  /** Lower side: outlier at the fence iff the minimum lies below the fence,
      otherwise bound at the true minimum; either way the mark sits at the
      larger of the minimum and the fence. */
  lemma LowerMarkCases(cells: seq<real>, q: Quartiles)
    requires |cells| > 0
    ensures var m := FrameOf("", cells, q).lowerMark;
      m.Some? &&
      (m.value.Outlier? <==> Min(cells) < LowerFence(q)) &&
      (m.value.Outlier? ==> m.value.at == LowerFence(q)) &&
      (m.value.Bound? ==> m.value.at == Min(cells)) &&
      m.value.at == (if Min(cells) < LowerFence(q) then LowerFence(q) else Min(cells))
  {
  }

  /** Upper side: outlier at the fence iff the maximum lies above the fence,
      otherwise bound at the true maximum. */
  lemma UpperMarkCases(cells: seq<real>, q: Quartiles)
    requires |cells| > 0
    ensures var m := FrameOf("", cells, q).upperMark;
      m.Some? &&
      (m.value.Outlier? <==> Max(cells) > UpperFence(q)) &&
      (m.value.Outlier? ==> m.value.at == UpperFence(q)) &&
      (m.value.Bound? ==> m.value.at == Max(cells)) &&
      m.value.at == (if Max(cells) > UpperFence(q) then UpperFence(q) else Max(cells))
  {
  }

  /** Every mark lies between the fences, given the usual order of a column's
      statistics: the annotation is never drawn beyond the box's whiskers. */
  lemma MarksWithinFences(cells: seq<real>, q: Quartiles)
    requires |cells| > 0
    requires Ordered(cells, q)
    ensures var f := FrameOf("", cells, q);
      LowerFence(q) <= f.lowerMark.value.at <= UpperFence(q) &&
      LowerFence(q) <= f.upperMark.value.at <= UpperFence(q)
  {
    assert q.q1 <= UpperFence(q) by { FencesBracketMedian(q); }
    assert LowerFence(q) <= q.q3 by { FencesBracketMedian(q); }
  }

  /** The worked example [1, 2, 3, 4, 5, 100] with quartiles 2.25, 3.5, 4.75:
      fences -0.25 and 7.25, a bound at the minimum 1 and an outlier at 7.25. */
  lemma ExampleColumn(cells: seq<real>)
    requires cells == [1.0, 2.0, 3.0, 4.0, 5.0, 100.0]
    ensures var f := FrameOf("x", cells, Quartiles(2.25, 3.5, 4.75));
      f.datum == [-0.25, 2.25, 3.5, 4.75, 7.25] &&
      f.lowerMark == Some(Bound(1.0)) && f.upperMark == Some(Outlier(7.25))
  {
    ExtremesAt(cells, 0, 5);
  }
}
