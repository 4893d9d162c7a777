/** One chart unit (`prod_chart` in src/seanlib.py), with the rendering library
    stripped away: the padded axis domain and, per side, the annotation rule
    chosen from the pseudo-frame's annotation column. */
module Chart {
  import opened Wrappers
  import opened Stats
  import opened BoxPlot

  datatype Colour = Red | Blue

  /** An annotation layer: the source's placeholder `0` (no rule), or a
      vertical rule of a colour at a coordinate. */
  datatype Layer = NoLayer | Rule(colour: Colour, x: real)

  /** The x-axis domain of the boxplot. */
  datatype Domain = Domain(lower: real, upper: real)

  /** What `prod_chart` decides: the label and datums it plots, the domain it
      scales them into, and the two annotation layers it adds. */
  datatype ChartUnit = ChartUnit(name: string, datum: seq<real>, domain: Domain, lowerLine: Layer, upperLine: Layer)

  /** The fence-to-fence range padded by a tenth of itself on each side. */
  function PaddedDomain(q0: real, q4: real): Domain
  {
    var axisRange := q4 - q0;
    Domain(q0 - axisRange * 0.1, q4 + axisRange * 0.1)
  }

  /** The layer an annotation column asks for: red at an outlier mark, blue
      at a bound mark, the placeholder when the column is absent. */
  function LayerFor(m: Option<Mark>): Layer
  {
    match m
    case None => NoLayer
    case Some(Outlier(v)) => Rule(Red, v)
    case Some(Bound(v)) => Rule(Blue, v)
  }

  /** The chart unit `prod_chart` builds, stated as a value. */
  function UnitOf(frame: PseudoFrame): ChartUnit
    requires |frame.datum| >= 5
  {
    ChartUnit(frame.name, frame.datum, PaddedDomain(frame.datum[0], frame.datum[4]),
              LayerFor(frame.lowerMark), LayerFor(frame.upperMark))
  }

  /** `prod_chart`: compute the domain from the first and fifth datum, then
      choose each side's layer through the source's sequence of `if`s. */
  method ProdChart(frame: PseudoFrame) returns (unit: ChartUnit)
    requires |frame.datum| >= 5
    ensures unit == UnitOf(frame)
    ensures unit.name == frame.name && unit.datum == frame.datum
    ensures unit.lowerLine.Rule? <==> frame.lowerMark.Some?
    ensures unit.upperLine.Rule? <==> frame.upperMark.Some?
    ensures unit.lowerLine.Rule? ==> (unit.lowerLine.colour == Red <==> frame.lowerMark.value.Outlier?)
    ensures unit.upperLine.Rule? ==> (unit.upperLine.colour == Red <==> frame.upperMark.value.Outlier?)
  {
    var axisRange := frame.datum[4] - frame.datum[0];
    var lower := frame.datum[0] - axisRange * 0.1;
    var upper := frame.datum[4] + axisRange * 0.1;

    var lowerLine := NoLayer;
    var upperLine := NoLayer;

    if frame.lowerMark.Some? && frame.lowerMark.value.Outlier? {
      lowerLine := Rule(Red, frame.lowerMark.value.at);
    }
    if frame.lowerMark.Some? && frame.lowerMark.value.Bound? {
      lowerLine := Rule(Blue, frame.lowerMark.value.at);
    }

    if frame.upperMark.Some? && frame.upperMark.value.Outlier? {
      upperLine := Rule(Red, frame.upperMark.value.at);
    }
    if frame.upperMark.Some? && frame.upperMark.value.Bound? {
      upperLine := Rule(Blue, frame.upperMark.value.at);
    }

    unit := ChartUnit(frame.name, frame.datum, Domain(lower, upper), lowerLine, upperLine);
  }

  // ---------------------------------------------------------------- domain

  /** The padded domain contains the fences, pads both sides by the same
      tenth of the range, and is 1.2 times as wide as the range. */
  lemma PaddedDomainContainsFences(q0: real, q4: real)
    requires q0 <= q4
    ensures var d := PaddedDomain(q0, q4);
      d.lower <= q0 <= q4 <= d.upper &&
      q0 - d.lower == d.upper - q4 &&
      d.upper - d.lower == 1.2 * (q4 - q0)
  {
  }

  /** A fact about the model only (the chart never inverts its domain): the
      padding is undone by shrinking the domain by 1/12 of its width on each
      side, so the domain determines the fences it was built from. */
  lemma PaddedDomainRecoversFences(q0: real, q4: real)
    ensures var d := PaddedDomain(q0, q4);
      d.lower + (d.upper - d.lower) / 12.0 == q0 &&
      d.upper - (d.upper - d.lower) / 12.0 == q4
  {
  }

  /** The domain has zero width exactly when the two fences coincide. */
  lemma PaddedDomainDegenerate(q0: real, q4: real)
    ensures PaddedDomain(q0, q4).lower == PaddedDomain(q0, q4).upper <==> q0 == q4
  {
  }

  /** Fences 0 and 10 give the domain [-1, 11]. */
  lemma PaddedDomainExample()
    ensures PaddedDomain(0.0, 10.0) == Domain(-1.0, 11.0)
  {
  }

  // ---------------------------------------------------------------- layers

  /** For a frame built by `df_gen`, each side gets a rule (never the
      placeholder), red iff the extreme lies beyond the fence, drawn at the
      fence then and at the true extreme otherwise. */
  lemma LayersOfSummary(colname: string, cells: seq<real>, q: Quartiles)
    requires |cells| > 0
    ensures var u := UnitOf(FrameOf(colname, cells, q));
      u.lowerLine.Rule? && u.upperLine.Rule? &&
      u.lowerLine == (if Min(cells) < LowerFence(q) then Rule(Red, LowerFence(q)) else Rule(Blue, Min(cells))) &&
      u.upperLine == (if Max(cells) > UpperFence(q) then Rule(Red, UpperFence(q)) else Rule(Blue, Max(cells)))
  {
  }

  /** The domain of a `df_gen` frame is the padded range between its fences,
      and with the usual order of the statistics both rules fall inside it,
      so the clipped boxplot never hides an annotation. */
  lemma RulesInsideDomain(colname: string, cells: seq<real>, q: Quartiles)
    requires |cells| > 0
    requires Ordered(cells, q)
    ensures var u := UnitOf(FrameOf(colname, cells, q));
      u.domain == PaddedDomain(LowerFence(q), UpperFence(q)) &&
      u.domain.lower <= u.lowerLine.x <= u.domain.upper &&
      u.domain.lower <= u.upperLine.x <= u.domain.upper
  {
    var f := FrameOf(colname, cells, q);
    MarksWithinFences(cells, q);
    assert f.lowerMark == FrameOf("", cells, q).lowerMark;
    assert f.upperMark == FrameOf("", cells, q).upperMark;
    FencesBracketMedian(q);
    PaddedDomainContainsFences(LowerFence(q), UpperFence(q));
  }
}
