/** The model comparison cards (frontend/src/components/ui/ModelComparisonCard.jsx): the
    colour of each metric, the built-in models shown when none are passed, and which card is
    marked as the active one. */
module ModelComparisonCard {
  import opened Wrappers

  // ---------------------------------------------------------------- colours

  /** `getMetricColor`: for r2 higher is better (0.9 and 0.8 are the lower bounds of the
      good and fair bands); for every other metric lower is better (0.05 and 0.08 are the
      upper bounds). */
  function MetricColor(value: real, metric: string): (c: string)
    ensures metric == "r2" ==> (c == "text-success" <==> value >= 0.9)
    ensures metric == "r2" ==> (c == "text-warning" <==> 0.8 <= value < 0.9)
    ensures metric == "r2" ==> (c == "text-error" <==> value < 0.8)
    ensures metric != "r2" ==> (c == "text-success" <==> value <= 0.05)
    ensures metric != "r2" ==> (c == "text-warning" <==> 0.05 < value <= 0.08)
    ensures metric != "r2" ==> (c == "text-error" <==> value > 0.08)
  {
    if metric == "r2" then
      if value >= 0.9 then "text-success" else if value >= 0.8 then "text-warning" else "text-error"
    else
      if value <= 0.05 then "text-success" else if value <= 0.08 then "text-warning" else "text-error"
  }

  /** How good a colour says a value is: error, warning, success. */
  function Rank(c: string): nat {
    if c == "text-success" then 2 else if c == "text-warning" then 1 else 0
  }

  /** A better value never gets a worse colour: a higher r2, or a lower error. */
  lemma MetricColorMonotone(x: real, y: real, metric: string)
    requires if metric == "r2" then x <= y else y <= x
    ensures Rank(MetricColor(x, metric)) <= Rank(MetricColor(y, metric))
  {
  }

  // ---------------------------------------------------------------- cards

  /** A model as the card receives it; a metric that is `undefined` is `None`. */
  datatype ComparedModel = ComparedModel(
    id: string, name: string, mae: Option<real>, rmse: Option<real>, r2: Option<real>,
    trainTime: string, isBest: bool)

  const MockModels: seq<ComparedModel> := [
    ComparedModel("xgboost", "XGBoost", Some(0.042), Some(0.068), Some(0.94), "3.2 min", true),
    ComparedModel("prophet", "Prophet", Some(0.058), Some(0.089), Some(0.88), "5.1 min", false)]

  /** `displayModels`: the models passed, or the two built-in ones when there are none. */
  function DisplayModels(models: seq<ComparedModel>): (ms: seq<ComparedModel>)
    ensures models != [] ==> ms == models
    ensures models == [] ==> ms == MockModels
  {
    if models != [] then models else MockModels
  }

  /** Of the built-in models exactly the first carries the "Mejor" badge, and it is the one
      with the best colours on every metric. */
  lemma MockBadge()
    ensures |MockModels| == 2 && MockModels[0].isBest && !MockModels[1].isBest
    ensures MetricColor(MockModels[0].mae.value, "mae") == "text-success"
    ensures MetricColor(MockModels[0].r2.value, "r2") == "text-success"
    ensures Rank(MetricColor(MockModels[1].rmse.value, "rmse"))
         < Rank(MetricColor(MockModels[0].rmse.value, "rmse"))
  {
  }

  /** What a card shows besides its figures. */
  datatype Card = Card(
    id: string, highlighted: bool, bestBadge: bool, activeBadge: bool,
    maeColor: string, rmseColor: string, r2Color: string)

  /** A card is highlighted and says "Modelo activo" exactly when its id is the selected
      model; a card whose metric is `undefined` cannot be drawn (`toFixed` on `undefined`
      throws), which is the `Err`. */
  function CardOf(m: ComparedModel, selectedModel: Option<string>): (r: Result<Card, string>)
    ensures r.Ok? <==> m.mae.Some? && m.rmse.Some? && m.r2.Some?
    ensures r.Ok? ==> r.value.id == m.id && r.value.bestBadge == m.isBest
    ensures r.Ok? ==> (r.value.activeBadge <==> selectedModel == Some(m.id))
    ensures r.Ok? ==> r.value.highlighted == r.value.activeBadge
    ensures r.Ok? ==> r.value.maeColor == MetricColor(m.mae.value, "mae")
    ensures r.Ok? ==> r.value.rmseColor == MetricColor(m.rmse.value, "rmse")
    ensures r.Ok? ==> r.value.r2Color == MetricColor(m.r2.value, "r2")
  {
    if m.mae.None? || m.rmse.None? || m.r2.None? then Err("TypeError")
    else
      var active := selectedModel == Some(m.id);
      Ok(Card(m.id, active, m.isBest, active, MetricColor(m.mae.value, "mae"),
             MetricColor(m.rmse.value, "rmse"), MetricColor(m.r2.value, "r2")))
  }

  /** The cards of the displayed models, in order, or the first failure. */
  function Cards(ms: seq<ComparedModel>, selectedModel: Option<string>): (r: Result<seq<Card>, string>)
    ensures r.Ok? <==> forall i :: 0 <= i < |ms| ==> CardOf(ms[i], selectedModel).Ok?
    ensures r.Ok? ==> |r.value| == |ms|
    ensures r.Ok? ==> forall i :: 0 <= i < |ms| ==> r.value[i] == CardOf(ms[i], selectedModel).value
  {
    if ms == [] then Ok([])
    else
      match CardOf(ms[0], selectedModel)
      case Err(e) => Err(e)
      case Ok(c) =>
        match Cards(ms[1..], selectedModel)
        case Err(e) => Err(e)
        case Ok(rest) =>
          assert forall i :: 1 <= i < |ms| ==> ms[i] == ms[1..][i - 1];
          Ok([c] + rest)
  }

  /** With distinct ids at most one card is marked active. */
  lemma AtMostOneActive(ms: seq<ComparedModel>, selectedModel: Option<string>)
    requires forall i, j :: 0 <= i < j < |ms| ==> ms[i].id != ms[j].id
    requires Cards(ms, selectedModel).Ok?
    ensures forall i, j :: 0 <= i < j < |ms| ==>
      !(Cards(ms, selectedModel).value[i].activeBadge && Cards(ms, selectedModel).value[j].activeBadge)
  {
  }

  /** `onClick`: the id passed to `onSelectModel`, or nothing when no handler is given. */
  function OnCardClick(handlerGiven: bool, m: ComparedModel): (selected: Option<string>)
    ensures selected.Some? <==> handlerGiven
    ensures selected.Some? ==> selected.value == m.id
  {
    if handlerGiven then Some(m.id) else None
  }

  /** Clicking a card and feeding the id back as the selection marks that card active. */
  lemma ClickSelects(m: ComparedModel)
    requires m.mae.Some? && m.rmse.Some? && m.r2.Some?
    ensures CardOf(m, OnCardClick(true, m)).value.activeBadge
  {
  }
}
