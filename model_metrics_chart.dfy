/** The metric bar chart of the models page
    (frontend/src/components/charts/ModelMetricsChart.jsx): the built-in models shown when
    none are passed, the configuration of each metric, the choice of the best model by a
    `reduce`, and the colour of each bar. */
module ModelMetricsChart {
  import opened Wrappers

  /** A model as the chart receives it: its name and its metric values by key; a key that is
      absent reads as `undefined`. */
  datatype MetricModel = MetricModel(name: string, metrics: map<string, real>)

  /** The value of a metric, `None` for `undefined`. */
  function ValueOf(m: MetricModel, metric: string): (v: Option<real>)
    ensures v.Some? <==> metric in m.metrics
    ensures v.Some? ==> v.value == m.metrics[metric]
  {
    if metric in m.metrics then Some(m.metrics[metric]) else None
  }

  const MockModels: seq<MetricModel> := [
    MetricModel("XGBoost", map["mae" := 0.042, "rmse" := 0.068, "r2" := 0.94]),
    MetricModel("Prophet", map["mae" := 0.058, "rmse" := 0.089, "r2" := 0.88])]

  /** `displayModels`: the models passed, or the two built-in ones when there are none. */
  function DisplayModels(models: seq<MetricModel>): (ms: seq<MetricModel>)
    ensures |ms| > 0
    ensures models != [] ==> ms == models
    ensures models == [] ==> ms == MockModels
  {
    if models != [] then models else MockModels
  }

  // ---------------------------------------------------------------- configuration

  datatype MetricConfig = MetricConfig(caption: string, color: string, description: string)

  const Configs: map<string, MetricConfig> := map[
    "mae" := MetricConfig("MAE (Error Absoluto Medio)", "#008f4c", "Valores menores son mejores"),
    "rmse" := MetricConfig("RMSE (Error Cuadrático Medio)", "#2e7d5f", "Valores menores son mejores"),
    "mape" := MetricConfig("MAPE (Error Porcentual Absoluto Medio)", "#4a90e2",
                           "Valores menores son mejores (%)"),
    "mase" := MetricConfig("MASE (Error Absoluto Escalado Medio)", "#f39c12",
                           "Valores menores que 1 indican mejor predicción que el modelo naive"),
    "r2" := MetricConfig("R² Score (Coeficiente de Determinación)", "#6fcf97",
                         "Valores cercanos a 1 son mejores")]

  /** `metricConfig[metric] || metricConfig.mae`: an unknown metric uses the MAE
      configuration. */
  function ConfigFor(metric: string): (c: MetricConfig)
    ensures metric in Configs ==> c == Configs[metric]
    ensures metric !in Configs ==> c == Configs["mae"]
  {
    if metric in Configs then Configs[metric] else Configs["mae"]
  }

  /** The five metrics have five different bar colours. */
  lemma ConfigColorsDistinct(a: string, b: string)
    requires a in Configs && b in Configs && a != b
    ensures ConfigFor(a).color != ConfigFor(b).color
  {
  }

  // ---------------------------------------------------------------- best model

  /** The step of the `reduce`: the accumulated model is kept only when it is strictly
      better; a comparison with `undefined` is false, so the current model then wins. */
  function KeepPrev(prev: MetricModel, current: MetricModel, metric: string): bool {
    var p := ValueOf(prev, metric);
    var c := ValueOf(current, metric);
    p.Some? && c.Some? && (if metric == "r2" then p.value > c.value else p.value < c.value)
  }

  /** The index of the model the `reduce` over `ms` ends on. */
  function BestIndex(ms: seq<MetricModel>, metric: string): (i: nat)
    requires |ms| > 0
    ensures i < |ms|
    decreases |ms|
  {
    if |ms| == 1 then 0
    else
      var b := BestIndex(ms[..|ms| - 1], metric);
      if KeepPrev(ms[b], ms[|ms| - 1], metric) then b else |ms| - 1
  }

  /** `getBestModel()`: always one of the models displayed. */
  function BestModel(models: seq<MetricModel>, metric: string): (best: MetricModel)
    ensures best in DisplayModels(models)
  {
    var ms := DisplayModels(models);
    ms[BestIndex(ms, metric)]
  }

  /** The metric is defined for every model. */
  predicate AllDefined(ms: seq<MetricModel>, metric: string) {
    forall j :: 0 <= j < |ms| ==> metric in ms[j].metrics
  }

  /** `x` is better than or as good as `y` for the metric: larger for r2, smaller otherwise. */
  predicate AtLeastAsGood(x: real, y: real, metric: string) {
    if metric == "r2" then x >= y else x <= y
  }

  /** When every model has the metric, the best is the LAST model attaining the optimum:
      none is better, and every later model is strictly worse. */
  lemma {:induction false} BestIsLastOptimum(ms: seq<MetricModel>, metric: string)
    requires |ms| > 0 && AllDefined(ms, metric)
    ensures forall j :: 0 <= j < |ms| ==>
      AtLeastAsGood(ms[BestIndex(ms, metric)].metrics[metric], ms[j].metrics[metric], metric)
    ensures forall j :: BestIndex(ms, metric) < j < |ms| ==>
      !AtLeastAsGood(ms[j].metrics[metric], ms[BestIndex(ms, metric)].metrics[metric], metric)
    decreases |ms|
  {
    if |ms| > 1 {
      var init := ms[..|ms| - 1];
      assert AllDefined(init, metric);
      BestIsLastOptimum(init, metric);
    }
  }

  /** A last model without the metric always wins the final step of the `reduce`; so a
      metric no model has (such as "mape" for the built-in models) picks the last model. */
  lemma UndefinedLastWins(ms: seq<MetricModel>, metric: string)
    requires |ms| > 0 && metric !in ms[|ms| - 1].metrics
    ensures BestIndex(ms, metric) == |ms| - 1
  {
  }

  /** For the built-in models XGBoost is best on r2, MAE and RMSE. */
  lemma MockBest()
    ensures BestModel([], "r2").name == "XGBoost"
    ensures BestModel([], "mae").name == "XGBoost"
    ensures BestModel([], "rmse").name == "XGBoost"
    ensures BestModel([], "mape").name == "Prophet"
  {
    assert MockModels[..1] == [MockModels[0]];
  }

  // ---------------------------------------------------------------- bars

  const Grey := "#BDBDBD"

  /** The fill of a bar: the metric colour for a model named like the best one, grey
      otherwise. */
  function BarColor(entry: MetricModel, best: MetricModel, metric: string): (c: string)
    ensures entry.name == best.name ==> c == ConfigFor(metric).color
    ensures entry.name != best.name ==> c == Grey
  {
    if entry.name == best.name then ConfigFor(metric).color else Grey
  }

  function BarColors(models: seq<MetricModel>, metric: string): (cs: seq<string>)
    ensures |cs| == |DisplayModels(models)|
    ensures forall i :: 0 <= i < |cs| ==>
      cs[i] == BarColor(DisplayModels(models)[i], BestModel(models, metric), metric)
  {
    var ms := DisplayModels(models);
    var best := BestModel(models, metric);
    seq(|ms|, i requires 0 <= i < |ms| => BarColor(ms[i], best, metric))
  }

  /** Some bar is always coloured, and when the names are distinct it is exactly one. */
  lemma OneBarHighlighted(models: seq<MetricModel>, metric: string)
    ensures ConfigFor(metric).color in BarColors(models, metric)
    ensures (forall i, j :: 0 <= i < j < |DisplayModels(models)| ==>
               DisplayModels(models)[i].name != DisplayModels(models)[j].name)
      ==> forall i, j :: 0 <= i < j < |BarColors(models, metric)| ==>
            !(BarColors(models, metric)[i] != Grey && BarColors(models, metric)[j] != Grey)
  {
    var ms := DisplayModels(models);
    var k := BestIndex(ms, metric);
    assert BarColors(models, metric)[k] == ConfigFor(metric).color;
    ColorsDiffer(metric);
  }

  /** No metric colour is the grey of the other bars. */
  lemma ColorsDiffer(metric: string)
    ensures ConfigFor(metric).color != Grey
  {
  }
}
