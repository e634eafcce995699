/** The model routes (backend/app/api/routes/models.py): the mean metrics of every model,
    the comparison of the models on one metric, the best row overall, and the best model of
    every valve. */
module ModelsRoute {
  import opened Wrappers
  import opened Text
  import opened Seqs
  import opened Sorting
  import opened Frames

  /** A row of the model metrics: its valve, its model and its numeric cells by column; a
      NaN cell is absent from `values`. */
  datatype MetricRow = MetricRow(valvula: string, modelo: string, values: map<string, real>)

  datatype MetricsTable = MetricsTable(columns: seq<string>, rows: seq<MetricRow>)

  /** `df.empty`. */
  predicate IsEmpty(t: MetricsTable) {
    t.rows == [] || t.columns == []
  }

  function Value(r: MetricRow, c: string): Option<real> {
    if c in r.values then Some(r.values[c]) else None
  }

  /** `df[c]` over some rows. */
  function ColumnOf(rows: seq<MetricRow>, c: string): seq<Option<real>> {
    seq(|rows|, k requires 0 <= k < |rows| => Value(rows[k], c))
  }

  /** The cells of a column are those of its rows. */
  lemma ColumnAt(rows: seq<MetricRow>, c: string)
    ensures |ColumnOf(rows, c)| == |rows|
    ensures forall k :: 0 <= k < |rows| ==> ColumnOf(rows, c)[k] == Value(rows[k], c)
  {
  }

  /** `row.get(c, None)`: `None` without the column, as with a NaN cell. */
  function Get(r: MetricRow, columns: seq<string>, c: string): Option<real> {
    if c in columns then Value(r, c) else None
  }

  function Modelos(rows: seq<MetricRow>): (ms: seq<string>)
    ensures |ms| == |rows| && forall k :: 0 <= k < |rows| ==> ms[k] == rows[k].modelo
  {
    seq(|rows|, k requires 0 <= k < |rows| => rows[k].modelo)
  }

  function Valvulas(rows: seq<MetricRow>): (vs: seq<string>)
    ensures |vs| == |rows| && forall k :: 0 <= k < |rows| ==> vs[k] == rows[k].valvula
  {
    seq(|rows|, k requires 0 <= k < |rows| => rows[k].valvula)
  }

  /** `df[df['MODELO'] == m]`. */
  function ModelRows(rows: seq<MetricRow>, m: string): seq<MetricRow> {
    Filter(rows, (r: MetricRow) => r.modelo == m)
  }

  /** `df[df['VALVULA'] == v]`. */
  function ValveRows(rows: seq<MetricRow>, v: string): seq<MetricRow> {
    Filter(rows, (r: MetricRow) => r.valvula == v)
  }

  /** `if valvula_id: df = df[df['VALVULA'] == valvula_id]`; a `KeyError` without that column. */
  function ByValve(t: MetricsTable, valvula: Option<string>): Result<seq<MetricRow>, Raised> {
    if !Truthy(valvula) then Ok(t.rows)
    else if "VALVULA" !in t.columns then Err(OtherRaised(KeyErrorMessage("VALVULA")))
    else Ok(ValveRows(t.rows, valvula.value))
  }

  function InvalidMetricDetail(metric: string): string {
    "Métrica '" + metric + "' no válida"
  }

  /** A fixed stand-in for the text of the error raised when every value `idxmin` sees is NaN;
      the real text depends on the pandas version. */
  const NoMinimumMessage := "attempt to get argmin of an empty sequence"

  // ---------------------------------------------------------------- metrics of every model

  datatype ModelMetrics = ModelMetrics(
    mae: real, rmse: real, mape: Option<real>, mase: Option<real>, r2: Option<real>, nTest: Option<int>)

  datatype ModelInfo = ModelInfo(id: string, name: string, valvula: Option<string>, metrics: ModelMetrics)

  /** `str(modelo).lower().replace(" ", "_")`; Python's `str.lower` agrees with
      `JsLowerChar` on the Latin-1 range modelled. */
  function ModelId(name: string): (id: string)
    ensures |id| == |name|
    ensures forall i :: 0 <= i < |id| ==> id[i] != ' ' && !('A' <= id[i] <= 'Z')
    ensures forall i :: 0 <= i < |id| ==> id[i] == (if name[i] == ' ' then '_' else JsLowerChar(name[i]))
  {
    var lower := JsLower(name);
    seq(|lower|, i requires 0 <= i < |lower| => if lower[i] == ' ' then '_' else lower[i])
  }

  /** Making an id of an id changes nothing. */
  lemma ModelIdIdempotent(name: string)
    ensures ModelId(ModelId(name)) == ModelId(name)
  {
    var id := ModelId(name);
    forall i | 0 <= i < |id| ensures ModelId(id)[i] == id[i] {
      assert JsLowerChar(id[i]) == id[i];
    }
  }

  /** The mean of an optional column as reported: `None` without the column, for a NaN mean,
      and (through the test `if mape`) for a mean of exactly 0. */
  function OptionalMean(rows: seq<MetricRow>, columns: seq<string>, c: string): (v: Option<real>)
    ensures v.Some? <==> c in columns && TruthyNumber(MeanSkipNaN(ColumnOf(rows, c)))
    ensures v.Some? ==> v == MeanSkipNaN(ColumnOf(rows, c))
  {
    if c in columns && TruthyNumber(MeanSkipNaN(ColumnOf(rows, c))) then MeanSkipNaN(ColumnOf(rows, c)) else None
  }

  /** The text of the `ValueError` of `int(nan)`. */
  const NaNToIntMessage := "cannot convert float NaN to integer"

  /** The entry of one model from its rows, or what computing it raises. */
  function InfoOf(group: seq<MetricRow>, columns: seq<string>, modelo: string, valvula: Option<string>): Result<ModelInfo, Raised> {
    if "MAE" !in columns then Err(OtherRaised(KeyErrorMessage("MAE")))
    else if "RMSE" !in columns then Err(OtherRaised(KeyErrorMessage("RMSE")))
    else if "N_TEST" in columns && MeanSkipNaN(ColumnOf(group, "N_TEST")).None? then Err(OtherRaised(NaNToIntMessage))
    else
      Ok(ModelInfo(ModelId(modelo), modelo, valvula, ModelMetrics(
        MeanOrZero(ColumnOf(group, "MAE")), MeanOrZero(ColumnOf(group, "RMSE")),
        OptionalMean(group, columns, "MAPE"), OptionalMean(group, columns, "MASE"), OptionalMean(group, columns, "R2"),
        if "N_TEST" in columns then Some(Truncate(MeanSkipNaN(ColumnOf(group, "N_TEST")).value)) else None)))
  }

  /** The entry of model `m` from the rows of that model. */
  function InfoFor(df: seq<MetricRow>, columns: seq<string>, valvula: Option<string>, m: string): Result<ModelInfo, Raised> {
    InfoOf(ModelRows(df, m), columns, m, valvula)
  }

  /** The entries of the models `ms`, in order, or the first error one of them raises. */
  function Infos(df: seq<MetricRow>, columns: seq<string>, ms: seq<string>, valvula: Option<string>)
    : Result<seq<ModelInfo>, Raised>
  {
    CollectAll(ms, m => InfoFor(df, columns, valvula, m))
  }

  function MaeKey(m: ModelInfo): real {
    m.metrics.mae
  }

  const MetricsPrefix := "Error al obtener métricas de modelos: "

  function MetricsOutcome(loaded: Result<MetricsTable, string>, valvula: Option<string>): Result<seq<ModelInfo>, Raised> {
    if loaded.Err? then LoadFailure(loaded.error)
    else if IsEmpty(loaded.value) then Ok([])
    else match ByValve(loaded.value, valvula)
      case Err(e) => Err(e)
      case Ok(df) =>
        if "MODELO" !in loaded.value.columns then Err(OtherRaised(KeyErrorMessage("MODELO")))
        else MetricsFrom(df, loaded.value.columns, valvula)
  }

  /** The entries of the distinct models of the rows kept, sorted by MAE. */
  function MetricsFrom(df: seq<MetricRow>, columns: seq<string>, valvula: Option<string>): Result<seq<ModelInfo>, Raised> {
    match Infos(df, columns, Distinct(Modelos(df)), valvula)
    case Err(e) => Err(e)
    case Ok(l) => Ok(SortBy(l, MaeKey))
  }

  /** `get_models_metrics`, as a function; its handler has no `except HTTPException` clause. */
  function ModelsMetrics(loaded: Result<MetricsTable, string>, valvula: Option<string>): Result<seq<ModelInfo>, HttpError> {
    Handle(MetricsPrefix, false, MetricsOutcome(loaded, valvula))
  }

  /** `get_models_metrics`: one entry per distinct model, appended in order of first
      appearance, then sorted by MAE. */
  method GetModelsMetrics(loaded: Result<MetricsTable, string>, valvula: Option<string>)
    returns (r: Result<seq<ModelInfo>, HttpError>)
    ensures r == ModelsMetrics(loaded, valvula)
  {
    if loaded.Err? {
      return Err(HttpError(500, MetricsPrefix + loaded.error));
    }
    var t := loaded.value;
    if IsEmpty(t) {
      return Ok([]);
    }
    var filtered := ByValve(t, valvula);
    if filtered.Err? {
      return Handle(MetricsPrefix, false, Err(filtered.error));
    }
    var df := filtered.value;
    if "MODELO" !in t.columns {
      return Err(HttpError(500, MetricsPrefix + KeyErrorMessage("MODELO")));
    }
    var collected := Collect(Distinct(Modelos(df)), m => InfoFor(df, t.columns, valvula, m));
    if collected.Err? {
      return Handle(MetricsPrefix, false, Err(collected.error));
    }
    r := Ok(SortBy(collected.value, MaeKey));
  }

  function Names(models: seq<ModelInfo>): (ns: seq<string>)
    ensures |ns| == |models| && forall k :: 0 <= k < |models| ==> ns[k] == models[k].name
  {
    seq(|models|, k requires 0 <= k < |models| => models[k].name)
  }

  /** Sorting the entries a loop collected keeps exactly one entry per key. */
  lemma SortedCollected<K, U>(keys: seq<K>, f: K -> Result<U, Raised>, key: U -> real)
    requires CollectAll(keys, f).Ok?
    ensures var sorted := SortBy(CollectAll(keys, f).value, key);
      |sorted| == |keys| && SortedBy(sorted, key)
      && (forall u :: u in sorted ==> exists j :: 0 <= j < |keys| && f(keys[j]) == Ok(u))
      && (forall j :: 0 <= j < |keys| ==> f(keys[j]).value in sorted)
  {
    var l := CollectAll(keys, f).value;
    var sorted := SortBy(l, key);
    forall u | u in sorted
      ensures exists j :: 0 <= j < |keys| && f(keys[j]) == Ok(u)
    {
      assert u in multiset(sorted);
      var j :| 0 <= j < |l| && l[j] == u;
    }
    forall j | 0 <= j < |keys|
      ensures f(keys[j]).value in sorted
    {
      assert l[j] in multiset(l);
    }
  }

  /** Sorting one entry per key keeps exactly one entry per key. */
  lemma SortedMapped<K, U>(keys: seq<K>, f: K -> U, key: U -> real)
    ensures var sorted := SortBy(Mapped(keys, f), key);
      |sorted| == |keys| && SortedBy(sorted, key)
      && (forall u :: u in sorted ==> exists j :: 0 <= j < |keys| && f(keys[j]) == u)
      && (forall j :: 0 <= j < |keys| ==> f(keys[j]) in sorted)
  {
    var l := Mapped(keys, f);
    var sorted := SortBy(l, key);
    forall u | u in sorted
      ensures exists j :: 0 <= j < |keys| && f(keys[j]) == u
    {
      assert u in multiset(sorted);
      var j :| 0 <= j < |l| && l[j] == u;
    }
    forall j | 0 <= j < |keys|
      ensures f(keys[j]) in sorted
    {
      assert l[j] in multiset(l);
    }
  }

  /** The entry of a model carries its name, an id derived from it, and the mean MAE of its
      rows. */
  lemma InfoForFacts(df: seq<MetricRow>, columns: seq<string>, valvula: Option<string>, m: string)
    requires InfoFor(df, columns, valvula, m).Ok?
    ensures var e := InfoFor(df, columns, valvula, m).value;
      e.name == m && e.id == ModelId(m) && e.valvula == valvula
      && e.metrics.mae == MeanOrZero(ColumnOf(ModelRows(df, m), "MAE"))
  {
  }

  /** The entries of the distinct models name exactly those models, each with its own MAE. */
  lemma MetricsFromListed(df: seq<MetricRow>, columns: seq<string>, valvula: Option<string>)
    requires MetricsFrom(df, columns, valvula).Ok?
    ensures var models := MetricsFrom(df, columns, valvula).value;
      |models| == |Distinct(Modelos(df))|
      && (forall x :: x in Names(models) <==> x in Modelos(df))
      && SortedBy(models, MaeKey)
      && (forall e :: e in models ==>
            e.id == ModelId(e.name) && e.metrics.mae == MeanOrZero(ColumnOf(ModelRows(df, e.name), "MAE")))
  {
    var ms := Distinct(Modelos(df));
    var f := m => InfoFor(df, columns, valvula, m);
    assert MetricsFrom(df, columns, valvula).value == SortBy(CollectAll(ms, f).value, MaeKey);
    SortedCollected(ms, f, MaeKey);
    MetricsFromEntries(df, columns, valvula);
    MetricsFromNames(df, columns, valvula);
  }

  /** Each entry carries the id of its name and the mean MAE of that model's rows. */
  lemma MetricsFromEntries(df: seq<MetricRow>, columns: seq<string>, valvula: Option<string>)
    requires MetricsFrom(df, columns, valvula).Ok?
    ensures forall e :: e in MetricsFrom(df, columns, valvula).value ==>
      e.id == ModelId(e.name) && e.metrics.mae == MeanOrZero(ColumnOf(ModelRows(df, e.name), "MAE"))
  {
    var ms := Distinct(Modelos(df));
    var f := m => InfoFor(df, columns, valvula, m);
    var models := MetricsFrom(df, columns, valvula).value;
    assert models == SortBy(CollectAll(ms, f).value, MaeKey);
    SortedCollected(ms, f, MaeKey);
    forall e | e in models
      ensures e.id == ModelId(e.name) && e.metrics.mae == MeanOrZero(ColumnOf(ModelRows(df, e.name), "MAE"))
    {
      var j :| 0 <= j < |ms| && f(ms[j]) == Ok(e);
      InfoForFacts(df, columns, valvula, ms[j]);
    }
  }

  /** The entries name exactly the models of the rows. */
  lemma MetricsFromNames(df: seq<MetricRow>, columns: seq<string>, valvula: Option<string>)
    requires MetricsFrom(df, columns, valvula).Ok?
    ensures forall x :: x in Names(MetricsFrom(df, columns, valvula).value) <==> x in Modelos(df)
  {
    var ms := Distinct(Modelos(df));
    var f := m => InfoFor(df, columns, valvula, m);
    var models := MetricsFrom(df, columns, valvula).value;
    assert models == SortBy(CollectAll(ms, f).value, MaeKey);
    SortedCollected(ms, f, MaeKey);
    forall x ensures x in Names(models) <==> x in ms {
      NamesOfCollected(df, columns, valvula, ms, models, x);
    }
  }

  lemma NamesOfCollected(df: seq<MetricRow>, columns: seq<string>, valvula: Option<string>, ms: seq<string>,
                         models: seq<ModelInfo>, x: string)
    requires forall e :: e in models ==> exists j :: 0 <= j < |ms| && InfoFor(df, columns, valvula, ms[j]) == Ok(e)
    requires forall j :: 0 <= j < |ms| ==>
      (InfoFor(df, columns, valvula, ms[j]).Ok? && InfoFor(df, columns, valvula, ms[j]).value in models)
    ensures x in Names(models) <==> x in ms
  {
    if x in Names(models) {
      var k :| 0 <= k < |models| && Names(models)[k] == x;
      assert models[k] in models;
      var j :| 0 <= j < |ms| && InfoFor(df, columns, valvula, ms[j]) == Ok(models[k]);
      InfoForFacts(df, columns, valvula, ms[j]);
    }
    if x in ms {
      var j :| 0 <= j < |ms| && ms[j] == x;
      InfoForFacts(df, columns, valvula, ms[j]);
      var k :| 0 <= k < |models| && models[k] == InfoFor(df, columns, valvula, ms[j]).value;
      assert Names(models)[k] == x;
    }
  }

  /** A successful answer has one entry per distinct model of the rows kept (those of the
      valve when one is given), sorted by MAE; each entry's MAE is the mean of its model's
      MAE cells (0 when all are NaN), and its id is derived from its name. */
  lemma MetricsListed(loaded: Result<MetricsTable, string>, valvula: Option<string>)
    requires ModelsMetrics(loaded, valvula).Ok? && loaded.Ok? && !IsEmpty(loaded.value)
    ensures ByValve(loaded.value, valvula).Ok?
    ensures var df := ByValve(loaded.value, valvula).value;
      var models := ModelsMetrics(loaded, valvula).value;
      |models| == |Distinct(Modelos(df))|
      && (forall x :: x in Names(models) <==> x in Modelos(df))
      && SortedBy(models, MaeKey)
      && (forall e :: e in models ==>
            e.id == ModelId(e.name) && e.metrics.mae == MeanOrZero(ColumnOf(ModelRows(df, e.name), "MAE")))
  {
    var df := ByValve(loaded.value, valvula).value;
    assert ModelsMetrics(loaded, valvula).value == MetricsFrom(df, loaded.value.columns, valvula).value;
    MetricsFromListed(df, loaded.value.columns, valvula);
  }

  /** A model whose mean MAPE is exactly 0 is reported without a MAPE, as when the column
      is missing. */
  lemma ZeroMapeReportedAbsent(group: seq<MetricRow>, columns: seq<string>, modelo: string, valvula: Option<string>)
    requires "MAE" in columns && "RMSE" in columns && "N_TEST" !in columns
    requires MeanSkipNaN(ColumnOf(group, "MAPE")) == Some(0.0)
    ensures InfoOf(group, columns, modelo, valvula).Ok?
    ensures InfoOf(group, columns, modelo, valvula).value.metrics.mape.None?
  {
  }

  // ---------------------------------------------------------------- comparison on one metric

  datatype ModelComparison = ModelComparison(modelo: string, value: real, nValves: nat)

  datatype ComparisonResponse = ComparisonResponse(metric: string, models: seq<ModelComparison>)

  function ComparisonOf(df: seq<MetricRow>, col: string, m: string): ModelComparison {
    ModelComparison(m, MeanOrZero(ColumnOf(ModelRows(df, m), col)), |ModelRows(df, m)|)
  }

  function ValueKey(c: ModelComparison): real {
    c.value
  }

  function InvalidComparisonDetail(metric: string): string {
    "Métrica '" + metric + "' no válida. Opciones: mae, rmse, mape, mase"
  }

  const ComparisonPrefix := "Error en comparación de modelos: "

  /** The two text columns of the metrics table; every other column holds numbers. */
  predicate IsTextColumn(c: string) {
    c == "VALVULA" || c == "MODELO"
  }

  /** Stands for the text of the `TypeError` that `.mean()` raises on a column of strings;
      pandas builds it from the cells, and the model keeps only that it is raised. */
  const TextMeanMessage := "TypeError: mean of a text column"

  function ComparisonOutcome(loaded: Result<MetricsTable, string>, metric: string, valvula: Option<string>)
    : Result<ComparisonResponse, Raised>
  {
    if loaded.Err? then LoadFailure(loaded.error)
    else if IsEmpty(loaded.value) then Ok(ComparisonResponse(metric, []))
    else match ByValve(loaded.value, valvula)
      case Err(e) => Err(e)
      case Ok(df) =>
        var col := PyUpper(metric);
        if col !in loaded.value.columns then Err(HttpRaised(400, InvalidComparisonDetail(metric)))
        else if "MODELO" !in loaded.value.columns then Err(OtherRaised(KeyErrorMessage("MODELO")))
        else if IsTextColumn(col) && df != [] then Err(OtherRaised(TextMeanMessage))
        else Ok(ComparisonResponse(metric, Comparisons(df, col)))
  }

  /** The comparison of every distinct model, in order of first appearance, sorted by value. */
  function Comparisons(df: seq<MetricRow>, col: string): seq<ModelComparison> {
    var ms := Distinct(Modelos(df));
    SortBy(Mapped(ms, m => ComparisonOf(df, col, m)), ValueKey)
  }

  /** `get_models_comparison`, as a function. */
  function ModelsComparison(loaded: Result<MetricsTable, string>, metric: string, valvula: Option<string>)
    : Result<ComparisonResponse, HttpError>
  {
    Handle(ComparisonPrefix, true, ComparisonOutcome(loaded, metric, valvula))
  }

  /** `get_models_comparison`: one entry per distinct model, appended in order of first
      appearance, then sorted by value. */
  method GetModelsComparison(loaded: Result<MetricsTable, string>, metric: string, valvula: Option<string>)
    returns (r: Result<ComparisonResponse, HttpError>)
    ensures r == ModelsComparison(loaded, metric, valvula)
  {
    if loaded.Err? {
      return Err(HttpError(500, ComparisonPrefix + loaded.error));
    }
    var t := loaded.value;
    if IsEmpty(t) {
      return Ok(ComparisonResponse(metric, []));
    }
    var filtered := ByValve(t, valvula);
    if filtered.Err? {
      return Handle(ComparisonPrefix, true, Err(filtered.error));
    }
    var df := filtered.value;
    var col := PyUpper(metric);
    if col !in t.columns {
      return Err(HttpError(400, InvalidComparisonDetail(metric)));
    }
    if "MODELO" !in t.columns {
      return Err(HttpError(500, ComparisonPrefix + KeyErrorMessage("MODELO")));
    }
    if IsTextColumn(col) && df != [] {
      return Err(HttpError(500, ComparisonPrefix + TextMeanMessage));
    }
    var comparison := MapEach(Distinct(Modelos(df)), m => ComparisonOf(df, col, m));
    r := Ok(ComparisonResponse(metric, SortBy(comparison, ValueKey)));
  }

  /** A metric that is not a column (compared upper-cased) is a 400 that reaches the client
      unchanged. */
  lemma ComparisonRejectsMetric(loaded: Result<MetricsTable, string>, metric: string, valvula: Option<string>)
    requires loaded.Ok? && !IsEmpty(loaded.value) && ByValve(loaded.value, valvula).Ok?
    ensures PyUpper(metric) !in loaded.value.columns <==>
      ModelsComparison(loaded, metric, valvula) == Err(HttpError(400, InvalidComparisonDetail(metric)))
  {
  }

  /** Comparing on `modelo` or `valvula` passes the column check but fails with a 500 as
      soon as a model has rows, since the mean of its text cells raises; with no rows kept
      the answer is an empty comparison. */
  lemma ComparisonOnText(loaded: Result<MetricsTable, string>, metric: string, valvula: Option<string>)
    requires loaded.Ok? && !IsEmpty(loaded.value) && ByValve(loaded.value, valvula).Ok?
    requires IsTextColumn(PyUpper(metric)) && PyUpper(metric) in loaded.value.columns
    requires "MODELO" in loaded.value.columns
    ensures ByValve(loaded.value, valvula).value != [] ==>
      ModelsComparison(loaded, metric, valvula) == Err(HttpError(500, ComparisonPrefix + TextMeanMessage))
    ensures ByValve(loaded.value, valvula).value == [] ==>
      ModelsComparison(loaded, metric, valvula) == Ok(ComparisonResponse(metric, []))
  {
    var df := ByValve(loaded.value, valvula).value;
    if df == [] {
      assert Distinct(Modelos(df)) == [];
    }
  }

  /** The comparison of a model of the rows names it, averages its cells of the metric and
      counts its rows, at least one. */
  lemma ComparisonOfFacts(df: seq<MetricRow>, col: string, m: string)
    requires m in Modelos(df)
    ensures var e := ComparisonOf(df, col, m);
      e.modelo == m && e.value == MeanOrZero(ColumnOf(ModelRows(df, m), col))
      && e.nValves == |ModelRows(df, m)| >= 1
  {
    var u :| 0 <= u < |df| && Modelos(df)[u] == m;
    assert df[u] in ModelRows(df, m);
  }

  /** Each model of the rows has exactly one entry, sorted by value from the smallest; each
      value is the mean of the model's cells of that metric (0 when all are NaN) and
      `n_valves` counts the model's rows. */
  lemma ComparisonsListed(df: seq<MetricRow>, col: string)
    ensures var cs := Comparisons(df, col);
      |cs| == |Distinct(Modelos(df))|
      && SortedBy(cs, ValueKey)
      && (forall m :: m in Modelos(df) ==> ComparisonOf(df, col, m) in cs)
      && (forall e :: e in cs ==> e.modelo in Modelos(df) && e == ComparisonOf(df, col, e.modelo))
  {
    SortedMapped(Distinct(Modelos(df)), m => ComparisonOf(df, col, m), ValueKey);
    ComparisonsSound(df, col);
    ComparisonsComplete(df, col);
  }

  /** Every entry is the comparison of a model of the rows. */
  lemma ComparisonsSound(df: seq<MetricRow>, col: string)
    ensures forall e :: e in Comparisons(df, col) ==> e.modelo in Modelos(df) && e == ComparisonOf(df, col, e.modelo)
  {
    var ms := Distinct(Modelos(df));
    var f := m => ComparisonOf(df, col, m);
    SortedMapped(ms, f, ValueKey);
    forall e | e in Comparisons(df, col)
      ensures e.modelo in Modelos(df) && e == ComparisonOf(df, col, e.modelo)
    {
      var j :| 0 <= j < |ms| && f(ms[j]) == e;
      ComparisonOfFacts(df, col, ms[j]);
    }
  }

  /** Every model of the rows has its comparison listed. */
  lemma ComparisonsComplete(df: seq<MetricRow>, col: string)
    ensures forall m :: m in Modelos(df) ==> ComparisonOf(df, col, m) in Comparisons(df, col)
  {
    var ms := Distinct(Modelos(df));
    var f := m => ComparisonOf(df, col, m);
    SortedMapped(ms, f, ValueKey);
    forall m | m in Modelos(df)
      ensures ComparisonOf(df, col, m) in Comparisons(df, col)
    {
      var j :| 0 <= j < |ms| && ms[j] == m;
      assert f(ms[j]) in Comparisons(df, col);
    }
  }

  /** A successful answer is the comparison of the models of the rows kept, and names the
      metric asked for. */
  lemma ComparisonListed(loaded: Result<MetricsTable, string>, metric: string, valvula: Option<string>)
    requires ModelsComparison(loaded, metric, valvula).Ok? && loaded.Ok? && !IsEmpty(loaded.value)
    ensures ByValve(loaded.value, valvula).Ok?
    ensures var df := ByValve(loaded.value, valvula).value;
      var resp := ModelsComparison(loaded, metric, valvula).value;
      resp.metric == metric && resp.models == Comparisons(df, PyUpper(metric))
  {
  }

  // ---------------------------------------------------------------- best row overall

  datatype BestModel = BestModel(
    modelo: string, valvula: string, metric: string, value: real, mae: real, rmse: real, mape: Option<real>)

  const NoModelsDetail := "No hay datos de modelos disponibles"
  const BestPrefix := "Error al obtener mejor modelo: "

  /** The answer from the row picked, or the `KeyError` reading it raises. */
  function BestOf(row: MetricRow, columns: seq<string>, metric: string, col: string): Result<BestModel, Raised> {
    if "MAE" !in columns then Err(OtherRaised(KeyErrorMessage("MAE")))
    else if "RMSE" !in columns then Err(OtherRaised(KeyErrorMessage("RMSE")))
    else if "MODELO" !in columns then Err(OtherRaised(KeyErrorMessage("MODELO")))
    else if "VALVULA" !in columns then Err(OtherRaised(KeyErrorMessage("VALVULA")))
    else
      Ok(BestModel(row.modelo, row.valvula, metric, NanToZero(Value(row, col)),
                   NanToZero(Value(row, "MAE")), NanToZero(Value(row, "RMSE")), Get(row, columns, "MAPE")))
  }

  function BestOutcome(loaded: Result<MetricsTable, string>, metric: string): Result<BestModel, Raised> {
    if loaded.Err? then LoadFailure(loaded.error)
    else if IsEmpty(loaded.value) then Err(HttpRaised(404, NoModelsDetail))
    else
      var t := loaded.value;
      var col := PyUpper(metric);
      if col !in t.columns then Err(HttpRaised(400, InvalidMetricDetail(metric)))
      else match FirstArgMin(ColumnOf(t.rows, col))
        case None => Err(OtherRaised(NoMinimumMessage))
        case Some(k) => BestOf(t.rows[k], t.columns, metric, col)
  }

  /** `get_best_model`. */
  function BestModelRoute(loaded: Result<MetricsTable, string>, metric: string): Result<BestModel, HttpError> {
    Handle(BestPrefix, true, BestOutcome(loaded, metric))
  }

  /** No data is a 404 and an unknown metric a 400, both unchanged; a successful answer is
      the first row whose value of the metric is no greater than any other value present. */
  lemma BestIsFirstMinimum(loaded: Result<MetricsTable, string>, metric: string)
    requires loaded.Ok?
    ensures IsEmpty(loaded.value) ==> BestModelRoute(loaded, metric) == Err(HttpError(404, NoModelsDetail))
    ensures !IsEmpty(loaded.value) && PyUpper(metric) !in loaded.value.columns ==>
      BestModelRoute(loaded, metric) == Err(HttpError(400, InvalidMetricDetail(metric)))
    ensures BestModelRoute(loaded, metric).Ok? ==>
      var rows := loaded.value.rows;
      var col := PyUpper(metric);
      var k := FirstArgMin(ColumnOf(rows, col));
      var best := BestModelRoute(loaded, metric).value;
      k.Some? && Value(rows[k.value], col).Some?
      && best.modelo == rows[k.value].modelo && best.valvula == rows[k.value].valvula
      && best.value == Value(rows[k.value], col).value
      && (forall i :: 0 <= i < |rows| && Value(rows[i], col).Some? ==> best.value <= Value(rows[i], col).value)
      && (forall i :: 0 <= i < k.value && Value(rows[i], col).Some? ==> best.value < Value(rows[i], col).value)
  {
    ColumnAt(loaded.value.rows, PyUpper(metric));
  }

  // ---------------------------------------------------------------- best model of each valve

  datatype BestModelByValve = BestModelByValve(
    valvula: string, mejorModelo: string, mae: real, rmse: real, mape: Option<real>, mase: Option<real>, r2: Option<real>)

  datatype BestByValveResponse = BestByValveResponse(valves: seq<BestModelByValve>, totalValvulas: nat)

  /** The entry of one valve from its rows, or what computing it raises. */
  function EntryFor(group: seq<MetricRow>, columns: seq<string>, col: string, v: string): Result<BestModelByValve, Raised> {
    match FirstArgMin(ColumnOf(group, col))
    case None => Err(OtherRaised(NoMinimumMessage))
    case Some(k) =>
      var row := group[k];
      if "MAE" !in columns then Err(OtherRaised(KeyErrorMessage("MAE")))
      else if "RMSE" !in columns then Err(OtherRaised(KeyErrorMessage("RMSE")))
      else if "MODELO" !in columns then Err(OtherRaised(KeyErrorMessage("MODELO")))
      else
        Ok(BestModelByValve(v, row.modelo, NanToZero(Value(row, "MAE")), NanToZero(Value(row, "RMSE")),
                            Get(row, columns, "MAPE"), Get(row, columns, "MASE"), Get(row, columns, "R2")))
  }

  /** The entry of valve `v` from the rows of that valve. */
  function EntryOfValve(df: seq<MetricRow>, columns: seq<string>, col: string, v: string): Result<BestModelByValve, Raised> {
    EntryFor(ValveRows(df, v), columns, col, v)
  }

  /** The entries of the valves `vs`, in order, or the first error one of them raises. */
  function Entries(df: seq<MetricRow>, columns: seq<string>, col: string, vs: seq<string>)
    : Result<seq<BestModelByValve>, Raised>
  {
    CollectAll(vs, v => EntryOfValve(df, columns, col, v))
  }

  function EntryMaeKey(e: BestModelByValve): real {
    e.mae
  }

  const BestByValvePrefix := "Error al obtener mejores modelos por válvula: "

  function BestByValveOutcome(loaded: Result<MetricsTable, string>, metric: string): Result<BestByValveResponse, Raised> {
    if loaded.Err? then LoadFailure(loaded.error)
    else if IsEmpty(loaded.value) then Ok(BestByValveResponse([], 0))
    else
      var t := loaded.value;
      var col := PyUpper(metric);
      if col !in t.columns then Err(HttpRaised(400, InvalidMetricDetail(metric)))
      else if "VALVULA" !in t.columns then Err(OtherRaised(KeyErrorMessage("VALVULA")))
      else match BestEntries(t.rows, t.columns, col)
        case Err(e) => Err(e)
        case Ok(l) => Ok(BestByValveResponse(l, |l|))
  }

  /** The entries of the distinct valves, sorted by MAE. */
  function BestEntries(rows: seq<MetricRow>, columns: seq<string>, col: string): Result<seq<BestModelByValve>, Raised> {
    match Entries(rows, columns, col, Distinct(Valvulas(rows)))
    case Err(e) => Err(e)
    case Ok(l) => Ok(SortBy(l, EntryMaeKey))
  }

  /** `get_best_models_by_valve`, as a function. */
  function BestModelsByValve(loaded: Result<MetricsTable, string>, metric: string): Result<BestByValveResponse, HttpError> {
    Handle(BestByValvePrefix, true, BestByValveOutcome(loaded, metric))
  }

  /** `get_best_models_by_valve`: one entry per distinct valve, appended in order of first
      appearance, then sorted by MAE. */
  method GetBestModelsByValve(loaded: Result<MetricsTable, string>, metric: string)
    returns (r: Result<BestByValveResponse, HttpError>)
    ensures r == BestModelsByValve(loaded, metric)
  {
    if loaded.Err? {
      return Err(HttpError(500, BestByValvePrefix + loaded.error));
    }
    var t := loaded.value;
    if IsEmpty(t) {
      return Ok(BestByValveResponse([], 0));
    }
    var col := PyUpper(metric);
    if col !in t.columns {
      return Err(HttpError(400, InvalidMetricDetail(metric)));
    }
    if "VALVULA" !in t.columns {
      return Err(HttpError(500, BestByValvePrefix + KeyErrorMessage("VALVULA")));
    }
    var collected := Collect(Distinct(Valvulas(t.rows)), v => EntryOfValve(t.rows, t.columns, col, v));
    if collected.Err? {
      return Handle(BestByValvePrefix, true, Err(collected.error));
    }
    var sorted := SortBy(collected.value, EntryMaeKey);
    r := Ok(BestByValveResponse(sorted, |sorted|));
  }

  /** Row `j` is a row of valve `v` whose metric is present and no greater than that of any
      row of the valve. */
  predicate MinimalRowOfValve(rows: seq<MetricRow>, col: string, v: string, j: int) {
    0 <= j < |rows| && rows[j].valvula == v && Value(rows[j], col).Some?
    && forall i :: 0 <= i < |rows| && rows[i].valvula == v && Value(rows[i], col).Some? ==>
         Value(rows[j], col).value <= Value(rows[i], col).value
  }

  /** Row `k` of `group` has a present metric no greater than any other present one, and
      every earlier row with a present metric has a strictly greater one: the row `idxmin`
      picks. */
  predicate FirstMinimal(group: seq<MetricRow>, col: string, k: int) {
    0 <= k < |group| && Value(group[k], col).Some?
    && (forall i :: 0 <= i < |group| && Value(group[i], col).Some? ==>
          Value(group[k], col).value <= Value(group[i], col).value)
    && (forall i :: 0 <= i < k && Value(group[i], col).Some? ==>
          Value(group[k], col).value < Value(group[i], col).value)
  }

  /** The entry of a valve is read from a row of that valve of minimal metric; among the
      valve's rows in table order, it is the first one of minimal metric. */
  lemma EntryIsMinimal(rows: seq<MetricRow>, columns: seq<string>, col: string, v: string)
    requires EntryOfValve(rows, columns, col, v).Ok?
    ensures var e := EntryOfValve(rows, columns, col, v).value;
      e.valvula == v && exists j :: MinimalRowOfValve(rows, col, v, j) && rows[j].modelo == e.mejorModelo
    ensures var e := EntryOfValve(rows, columns, col, v).value;
      exists k :: FirstMinimal(ValveRows(rows, v), col, k) && ValveRows(rows, v)[k].modelo == e.mejorModelo
  {
    var group := ValveRows(rows, v);
    var c := ColumnOf(group, col);
    ColumnAt(group, col);
    var k := FirstArgMin(c).value;
    var row := group[k];
    assert row in rows;
    var j :| 0 <= j < |rows| && rows[j] == row;
    forall i | 0 <= i < |rows| && rows[i].valvula == v && Value(rows[i], col).Some?
      ensures Value(rows[j], col).value <= Value(rows[i], col).value
    {
      assert rows[i] in group;
      var g :| 0 <= g < |group| && group[g] == rows[i];
      assert c[g].Some?;
    }
    assert MinimalRowOfValve(rows, col, v, j);
    assert FirstMinimal(group, col, k);
  }

  /** The valve of every entry, in order. */
  function ValveNames(entries: seq<BestModelByValve>): seq<string> {
    Mapped(entries, (e: BestModelByValve) => e.valvula)
  }

  lemma ValveNamesOfCollected(rows: seq<MetricRow>, columns: seq<string>, col: string, vs: seq<string>,
                              entries: seq<BestModelByValve>, v: string)
    requires forall e :: e in entries ==> exists j :: 0 <= j < |vs| && EntryOfValve(rows, columns, col, vs[j]) == Ok(e)
    requires forall j :: 0 <= j < |vs| ==>
      (EntryOfValve(rows, columns, col, vs[j]).Ok? && EntryOfValve(rows, columns, col, vs[j]).value in entries)
    ensures v in ValveNames(entries) <==> v in vs
  {
    if v in ValveNames(entries) {
      var k :| 0 <= k < |entries| && ValveNames(entries)[k] == v;
      assert entries[k] in entries;
      var j :| 0 <= j < |vs| && EntryOfValve(rows, columns, col, vs[j]) == Ok(entries[k]);
      EntryIsMinimal(rows, columns, col, vs[j]);
    }
    if v in vs {
      var j :| 0 <= j < |vs| && vs[j] == v;
      EntryIsMinimal(rows, columns, col, vs[j]);
      var k :| 0 <= k < |entries| && entries[k] == EntryOfValve(rows, columns, col, vs[j]).value;
      assert ValveNames(entries)[k] == v;
    }
  }

  /** The sorted entries name every valve exactly once, sorted by MAE, each with a model of a
      row of that valve whose metric is no greater than that of any other row of the valve. */
  lemma BestEntriesListed(rows: seq<MetricRow>, columns: seq<string>, col: string)
    requires BestEntries(rows, columns, col).Ok?
    ensures var entries := BestEntries(rows, columns, col).value;
      |entries| == |Distinct(Valvulas(rows))|
      && (forall v :: v in ValveNames(entries) <==> v in Valvulas(rows))
      && SortedBy(entries, EntryMaeKey)
      && (forall e :: e in entries ==>
            exists j :: MinimalRowOfValve(rows, col, e.valvula, j) && rows[j].modelo == e.mejorModelo)
  {
    var vs := Distinct(Valvulas(rows));
    var f := v => EntryOfValve(rows, columns, col, v);
    var entries := BestEntries(rows, columns, col).value;
    assert entries == SortBy(CollectAll(vs, f).value, EntryMaeKey);
    SortedCollected(vs, f, EntryMaeKey);
    forall e | e in entries
      ensures exists j :: MinimalRowOfValve(rows, col, e.valvula, j) && rows[j].modelo == e.mejorModelo
    {
      var k :| 0 <= k < |vs| && f(vs[k]) == Ok(e);
      EntryIsMinimal(rows, columns, col, vs[k]);
    }
    forall v ensures v in ValveNames(entries) <==> v in vs {
      ValveNamesOfCollected(rows, columns, col, vs, entries, v);
    }
  }

  /** A successful answer lists the sorted best entries of the valves, with
      `total_valvulas` their number. */
  lemma BestByValveListed(loaded: Result<MetricsTable, string>, metric: string)
    requires BestModelsByValve(loaded, metric).Ok? && loaded.Ok? && !IsEmpty(loaded.value)
    ensures var t := loaded.value;
      var resp := BestModelsByValve(loaded, metric).value;
      BestEntries(t.rows, t.columns, PyUpper(metric)) == Ok(resp.valves)
      && resp.totalValvulas == |resp.valves|
  {
  }
}
