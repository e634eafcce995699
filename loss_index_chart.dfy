/** The loss-index evolution chart (frontend/src/components/charts/LossIndexChart.jsx):
    real and predicted index per period, with eight built-in points when there is no data.
    `None` stands for `null`. */
module LossIndexChart {
  import opened Wrappers
  import opened Seqs
  import opened PeriodLabels

  /** An evolution point as the dashboard endpoint returns it. */
  datatype EvolutionPoint = EvolutionPoint(
    periodo: PeriodValue, indiceReal: Option<real>, indicePredicho: Option<real>)

  /** A point of the chart; `actual` is the series the source calls `real`. */
  datatype ChartPoint = ChartPoint(month: string, actual: Option<real>, predicted: Option<real>)

  /** `v ? Math.abs(v) : null`: 0 and `null` are not drawn. */
  function AbsIfTruthy(v: Option<real>): (r: Option<real>)
    ensures r.Some? <==> TruthyNumber(v)
    ensures r.Some? ==> r.value == Abs(v.value) && r.value > 0.0
  {
    if TruthyNumber(v) then Some(Abs(v.value)) else None
  }

  function PointOf(e: EvolutionPoint): ChartPoint {
    ChartPoint(LastTwoLabel(e.periodo), AbsIfTruthy(e.indiceReal), AbsIfTruthy(e.indicePredicho))
  }

  /** The eight built-in points, January to August; August has no real value. */
  const MockPoints: seq<ChartPoint> := [
    ChartPoint("Ene", Some(8.5), Some(8.2)), ChartPoint("Feb", Some(9.2), Some(9.0)),
    ChartPoint("Mar", Some(7.8), Some(8.1)), ChartPoint("Abr", Some(10.1), Some(9.8)),
    ChartPoint("May", Some(8.9), Some(9.2)), ChartPoint("Jun", Some(9.5), Some(9.3)),
    ChartPoint("Jul", Some(11.2), Some(10.8)), ChartPoint("Ago", None, Some(10.5))]

  /** `chartData`: the built-in points for an empty list, otherwise one point per record in
      order. */
  function ChartData(data: seq<EvolutionPoint>): (ps: seq<ChartPoint>)
    ensures data == [] ==> ps == MockPoints
    ensures data != [] ==> |ps| == |data|
    ensures data != [] ==> forall i :: 0 <= i < |data| ==> ps[i] == PointOf(data[i])
  {
    if data == [] then MockPoints
    else seq(|data|, i requires 0 <= i < |data| => PointOf(data[i]))
  }

  /** Every value drawn is positive, whether it comes from the data or the built-in points. */
  lemma DrawnValuesPositive(data: seq<EvolutionPoint>, i: nat)
    requires i < |ChartData(data)|
    ensures ChartData(data)[i].actual.Some? ==> ChartData(data)[i].actual.value > 0.0
    ensures ChartData(data)[i].predicted.Some? ==> ChartData(data)[i].predicted.value > 0.0
  {
    if data != [] {
      assert ChartData(data)[i] == PointOf(data[i]);
    }
  }

  /** The built-in points are labelled with the first eight short months, in order. */
  lemma MockMonthsInOrder()
    ensures |MockPoints| == 8
    ensures forall i :: 0 <= i < 8 ==> MockPoints[i].month == ShortMonths[i]
  {
  }

  /** A negative index is drawn with the same height as its opposite. */
  lemma SignIgnored(v: Option<real>)
    ensures AbsIfTruthy(Neg(v)) == AbsIfTruthy(v)
  {
    if v.Some? {
      assert Abs(-v.value) == Abs(v.value);
    }
  }

  function Neg(v: Option<real>): Option<real> {
    if v.Some? then Some(-v.value) else None
  }
}
