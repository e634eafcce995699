/** The dashboard routes (backend/app/api/routes/dashboard.py): the KPIs built from the best
    model of every valve, the monthly evolution of the loss index, the valves with the largest
    losses, and the status of every valve with its latest alert level. */
module DashboardRoute {
  import opened Wrappers
  import opened Text
  import opened Seqs
  import opened Sorting
  import opened Frames
  import M = ModelsRoute
  import B = BalancesRoute
  import A = AlertsRoute

  // ---------------------------------------------------------------- tables

  /** The virtual balances with their header. */
  datatype BalancesTable = BalancesTable(columns: seq<string>, rows: seq<B.BalanceRow>)

  /** A row of the per-valve summary; a NaN cell or a missing column is `None`, and the dates
      are the text `str` gives of their cells. */
  datatype ResumenRow = ResumenRow(
    valvula: string, fechaMin: string, fechaMax: string,
    entradaSum: Option<real>, salidaSum: Option<real>, indiceMean: Option<real>,
    macromedidor: Option<real>)

  datatype ResumenTable = ResumenTable(columns: seq<string>, rows: seq<ResumenRow>)

  /** The alert table with its header. */
  datatype AlertsTable = AlertsTable(columns: seq<string>, rows: seq<A.AlertRow>)

  /** A row of the top-losses table; a NaN cell or a missing column is `None`. */
  datatype TopRow = TopRow(
    valvula: string, perdidasAbs: Option<real>, perdidasPromedio: Option<real>, indice: Option<real>,
    entradaPromedio: Option<real>, salidaPromedio: Option<real>, numPeriodos: Option<real>)

  datatype TopTable = TopTable(columns: seq<string>, rows: seq<TopRow>)

  // ---------------------------------------------------------------- the most frequent model

  /** How many times `x` occurs in `s`. */
  function Occurrences(s: seq<string>, x: string): (n: nat)
    ensures n <= |s|
    ensures n > 0 <==> x in s
  {
    if s == [] then 0 else (if s[0] == x then 1 else 0) + Occurrences(s[1..], x)
  }

  /** The largest number of occurrences in `s` of an element of `t`. */
  function MaxOccurrences(s: seq<string>, t: seq<string>): (m: nat)
    ensures forall x :: x in t ==> Occurrences(s, x) <= m
    ensures t != [] ==> exists x :: x in t && Occurrences(s, x) == m
  {
    if t == [] then 0
    else
      var rest := MaxOccurrences(s, t[1..]);
      if Occurrences(s, t[0]) >= rest then Occurrences(s, t[0]) else rest
  }

  const NoModel := "N/A"

  /** `series.mode()[0]`: of the most frequent values the first in ascending order; "N/A"
      for no value. */
  function Mode(s: seq<string>): (m: string)
    ensures s == [] ==> m == NoModel
    ensures s != [] ==> m in s && forall x :: x in s ==> Occurrences(s, x) <= Occurrences(s, m)
    ensures s != [] ==> forall x :: x in s && Occurrences(s, x) == Occurrences(s, m) ==> x == m || StrLt(m, x)
  {
    if s == [] then NoModel
    else
      var top := MaxOccurrences(s, s);
      var candidates := Filter(s, (x: string) => Occurrences(s, x) == top);
      var w :| w in s && Occurrences(s, w) == top;
      assert w in candidates;
      var sorted := SortedDistinctStrings(candidates);
      assert w in sorted;
      assert sorted[0] in candidates;
      sorted[0]
  }

  /** Two different values together occur at most as often as the list is long. */
  lemma {:induction false} OccurrencesOfTwo(s: seq<string>, x: string, y: string)
    requires x != y
    ensures Occurrences(s, x) + Occurrences(s, y) <= |s|
  {
    if s != [] {
      OccurrencesOfTwo(s[1..], x, y);
    }
  }

  /** A model that is the best of more than half of the valves is the one reported. */
  lemma ModeOfMajority(s: seq<string>, x: string)
    requires Occurrences(s, x) * 2 > |s|
    ensures Mode(s) == x
  {
    var m := Mode(s);
    if m != x {
      OccurrencesOfTwo(s, m, x);
    }
  }

  // ---------------------------------------------------------------- KPIs

  /** The model KPIs: means over the best rows, the most frequent best model, and how many
      distinct best models there are. */
  datatype ModelKpis = ModelKpis(mae: real, rmse: real, r2: Option<real>, mejorModelo: string, modelosUnicos: nat)

  const NoModelKpis := ModelKpis(0.0, 0.0, None, NoModel, 0)

  datatype KpiResponse = KpiResponse(
    mae: real, rmse: real, r2: Option<real>, perdidasTotales: real, valvulasMonitoreadas: nat,
    indicePromedio: real, mejorModelo: string, modelosUnicos: nat, usaModeloPorValvula: bool)

  /** The row of valve `v` with the smallest MAE (`idxmin`), or what finding it raises. */
  function BestRowFor(rows: seq<M.MetricRow>, columns: seq<string>, v: string): Result<M.MetricRow, Raised> {
    if "MAE" !in columns then Err(OtherRaised(KeyErrorMessage("MAE")))
    else
      var group := M.ValveRows(rows, v);
      match FirstArgMin(M.ColumnOf(group, "MAE"))
      case None => Err(OtherRaised(M.NoMinimumMessage))
      case Some(k) => if "MODELO" !in columns then Err(OtherRaised(KeyErrorMessage("MODELO"))) else Ok(group[k])
  }

  /** The best row of every distinct valve, in order of first appearance. */
  function BestRows(t: M.MetricsTable): Result<seq<M.MetricRow>, Raised> {
    CollectAll(Distinct(M.Valvulas(t.rows)), v => BestRowFor(t.rows, t.columns, v))
  }

  /** `modelos_usados`: the models of the rows. */
  function ModelSet(rows: seq<M.MetricRow>): (s: set<string>)
    ensures forall m :: m in s <==> exists r :: r in rows && r.modelo == m
  {
    if rows == [] then {}
    else
      var n := |rows| - 1;
      assert forall r :: r in rows <==> r in rows[..n] || r == rows[n] by {
        assert rows == rows[..n] + [rows[n]];
      }
      ModelSet(rows[..n]) + {rows[n].modelo}
  }

  lemma ModelSetSnoc(rows: seq<M.MetricRow>, x: M.MetricRow)
    ensures ModelSet(rows + [x]) == ModelSet(rows) + {x.modelo}
  {
    assert (rows + [x])[..|rows|] == rows;
  }

  /** The KPIs computed from the best rows. */
  function KpisFromBest(best: seq<M.MetricRow>, columns: seq<string>): Result<ModelKpis, Raised> {
    if "RMSE" !in columns then Err(OtherRaised(KeyErrorMessage("RMSE")))
    else
      Ok(ModelKpis(
        MeanOrZero(M.ColumnOf(best, "MAE")), MeanOrZero(M.ColumnOf(best, "RMSE")),
        if "MAPE" in columns then MeanSkipNaN(M.ColumnOf(best, "MAPE")) else None,
        Mode(M.Modelos(best)), |ModelSet(best)|))
  }

  function ModelKpisOf(t: M.MetricsTable): Result<ModelKpis, Raised> {
    if M.IsEmpty(t) then Ok(NoModelKpis)
    else if "VALVULA" !in t.columns then Err(OtherRaised(KeyErrorMessage("VALVULA")))
    else match BestRows(t)
      case Err(e) => Err(e)
      case Ok(best) => KpisFromBest(best, t.columns)
  }

  function Perdidas(rows: seq<B.BalanceRow>): seq<Option<real>> {
    seq(|rows|, k requires 0 <= k < |rows| => rows[k].perdidas)
  }

  /** `abs(sum)` of the losses, 0 without data or without the column. */
  function PerdidasTotales(b: BalancesTable): (r: real)
    ensures r >= 0.0
    ensures b.rows != [] && b.columns != [] && "PERDIDAS_M3" in b.columns ==> r == Abs(SumSkipNaN(Perdidas(b.rows)))
    ensures b.rows == [] || "PERDIDAS_M3" !in b.columns ==> r == 0.0
  {
    if b.rows != [] && b.columns != [] && "PERDIDAS_M3" in b.columns then Abs(SumSkipNaN(Perdidas(b.rows))) else 0.0
  }

  function IndiceMeans(rows: seq<ResumenRow>): seq<Option<real>> {
    seq(|rows|, k requires 0 <= k < |rows| => rows[k].indiceMean)
  }

  /** `abs(mean)` of the per-valve loss index, 0 without data, without the column, or when
      every cell is NaN. */
  function IndicePromedio(s: ResumenTable): (r: real)
    ensures r >= 0.0
    ensures (s.rows != [] && s.columns != [] && "INDICE_PERDIDAS_FINAL_MEAN" in s.columns
               && MeanSkipNaN(IndiceMeans(s.rows)).Some?) ==> r == Abs(MeanSkipNaN(IndiceMeans(s.rows)).value)
  {
    if s.rows != [] && s.columns != [] && "INDICE_PERDIDAS_FINAL_MEAN" in s.columns then AbsOrZero(MeanSkipNaN(IndiceMeans(s.rows)))
    else 0.0
  }

  function Monitored(s: ResumenTable): nat {
    if s.rows == [] || s.columns == [] then 0 else |s.rows|
  }

  const KpisPrefix := "Error al obtener KPIs: "

  function KpisOutcome(metrics: Result<M.MetricsTable, string>, resumen: Result<ResumenTable, string>,
                       balances: Result<BalancesTable, string>): Result<KpiResponse, Raised>
  {
    if metrics.Err? then LoadFailure(metrics.error)
    else if resumen.Err? then LoadFailure(resumen.error)
    else if balances.Err? then LoadFailure(balances.error)
    else match ModelKpisOf(metrics.value)
      case Err(e) => Err(e)
      case Ok(mk) =>
        Ok(KpiResponse(mk.mae, mk.rmse, mk.r2, PerdidasTotales(balances.value), Monitored(resumen.value),
                       IndicePromedio(resumen.value) * 100.0, mk.mejorModelo, mk.modelosUnicos, true))
  }

  /** `get_dashboard_kpis`, as a function. */
  function DashboardKpis(metrics: Result<M.MetricsTable, string>, resumen: Result<ResumenTable, string>,
                         balances: Result<BalancesTable, string>): Result<KpiResponse, HttpError>
  {
    Handle(KpisPrefix, false, KpisOutcome(metrics, resumen, balances))
  }

  lemma KpisOutcomeOk(metrics: Result<M.MetricsTable, string>, resumen: Result<ResumenTable, string>,
                      balances: Result<BalancesTable, string>)
    requires metrics.Ok? && resumen.Ok? && balances.Ok? && ModelKpisOf(metrics.value).Ok?
    ensures var mk := ModelKpisOf(metrics.value).value;
      KpisOutcome(metrics, resumen, balances)
        == Ok(KpiResponse(mk.mae, mk.rmse, mk.r2, PerdidasTotales(balances.value), Monitored(resumen.value),
                          IndicePromedio(resumen.value) * 100.0, mk.mejorModelo, mk.modelosUnicos, true))
  {
  }

  /** The loop of `get_dashboard_kpis`: the best row of every valve appended in order and its
      model added to the models used, stopping at the first valve that raises. */
  method CollectBestRows(vs: seq<string>, best: string -> Result<M.MetricRow, Raised>)
    returns (r: Result<(seq<M.MetricRow>, set<string>), Raised>)
    ensures CollectAll(vs, best).Err? ==> r == Err(CollectAll(vs, best).error)
    ensures CollectAll(vs, best).Ok? ==> r == Ok((CollectAll(vs, best).value, ModelSet(CollectAll(vs, best).value)))
  {
    var rows: seq<M.MetricRow> := [];
    var usados: set<string> := {};
    var i := 0;
    while i < |vs|
      invariant 0 <= i <= |vs|
      invariant CollectAll(vs[..i], best) == Ok(rows)
      invariant usados == ModelSet(rows)
    {
      var row := best(vs[i]);
      if row.Err? {
        CollectAllFirstError(vs, best, i);
        return Err(row.error);
      }
      CollectAllSnoc(vs, best, i, rows);
      ModelSetSnoc(rows, row.value);
      rows := rows + [row.value];
      usados := usados + {row.value.modelo};
      i := i + 1;
    }
    assert vs[..i] == vs;
    r := Ok((rows, usados));
  }

  /** `get_dashboard_kpis`. */
  method GetDashboardKpis(metrics: Result<M.MetricsTable, string>, resumen: Result<ResumenTable, string>,
                          balances: Result<BalancesTable, string>)
    returns (r: Result<KpiResponse, HttpError>)
    ensures r == DashboardKpis(metrics, resumen, balances)
  {
    if metrics.Err? {
      return Err(HttpError(500, KpisPrefix + metrics.error));
    }
    if resumen.Err? {
      return Err(HttpError(500, KpisPrefix + resumen.error));
    }
    if balances.Err? {
      return Err(HttpError(500, KpisPrefix + balances.error));
    }
    var t := metrics.value;
    var mk := NoModelKpis;
    if !M.IsEmpty(t) {
      if "VALVULA" !in t.columns {
        return Err(HttpError(500, KpisPrefix + KeyErrorMessage("VALVULA")));
      }
      var collected := CollectBestRows(Distinct(M.Valvulas(t.rows)), v => BestRowFor(t.rows, t.columns, v));
      if collected.Err? {
        assert ModelKpisOf(t) == Err(collected.error);
        return Handle(KpisPrefix, false, Err(collected.error));
      }
      var (best, usados) := collected.value;
      assert BestRows(t) == Ok(best);
      if "RMSE" !in t.columns {
        return Err(HttpError(500, KpisPrefix + KeyErrorMessage("RMSE")));
      }
      mk := ModelKpis(
        MeanOrZero(M.ColumnOf(best, "MAE")), MeanOrZero(M.ColumnOf(best, "RMSE")),
        if "MAPE" in t.columns then MeanSkipNaN(M.ColumnOf(best, "MAPE")) else None,
        Mode(M.Modelos(best)), |usados|);
    }
    assert ModelKpisOf(t) == Ok(mk);
    r := Ok(KpiResponse(mk.mae, mk.rmse, mk.r2, PerdidasTotales(balances.value), Monitored(resumen.value),
                        IndicePromedio(resumen.value) * 100.0, mk.mejorModelo, mk.modelosUnicos, true));
    KpisOutcomeOk(metrics, resumen, balances);
  }

  /** The best row of a valve is a row of that valve whose MAE is present and no greater than
      that of any other row of the valve; among the valve's rows in table order, it is the
      first one of minimal MAE. */
  lemma BestRowIsMinimal(rows: seq<M.MetricRow>, columns: seq<string>, v: string)
    requires BestRowFor(rows, columns, v).Ok?
    ensures var row := BestRowFor(rows, columns, v).value;
      row.valvula == v && exists j :: M.MinimalRowOfValve(rows, "MAE", v, j) && rows[j] == row
    ensures var row := BestRowFor(rows, columns, v).value;
      exists k :: M.FirstMinimal(M.ValveRows(rows, v), "MAE", k) && M.ValveRows(rows, v)[k] == row
  {
    var group := M.ValveRows(rows, v);
    var c := M.ColumnOf(group, "MAE");
    M.ColumnAt(group, "MAE");
    var k := FirstArgMin(c).value;
    var row := group[k];
    assert row in rows;
    var j :| 0 <= j < |rows| && rows[j] == row;
    forall i | 0 <= i < |rows| && rows[i].valvula == v && M.Value(rows[i], "MAE").Some?
      ensures M.Value(rows[j], "MAE").value <= M.Value(rows[i], "MAE").value
    {
      assert rows[i] in group;
      var g :| 0 <= g < |group| && group[g] == rows[i];
      assert c[g].Some?;
    }
    assert M.MinimalRowOfValve(rows, "MAE", v, j);
    assert M.FirstMinimal(group, "MAE", k);
  }

  /** The model KPIs come from one best row per distinct valve, in order, each of minimal MAE
      within its valve: MAE and RMSE are their means (0 when all are NaN), the `r2` field is
      their mean MAPE, the best model is their most frequent model, and the count of models
      is the number of distinct models among them. */
  lemma KpisFromBestRows(t: M.MetricsTable)
    requires ModelKpisOf(t).Ok? && !M.IsEmpty(t)
    ensures BestRows(t).Ok?
    ensures var best := BestRows(t).value;
      var vs := Distinct(M.Valvulas(t.rows));
      var mk := ModelKpisOf(t).value;
      |best| == |vs|
      && (forall k :: 0 <= k < |vs| ==>
            best[k].valvula == vs[k] && exists j :: M.MinimalRowOfValve(t.rows, "MAE", vs[k], j) && t.rows[j] == best[k])
      && mk.mae == MeanOrZero(M.ColumnOf(best, "MAE")) && mk.rmse == MeanOrZero(M.ColumnOf(best, "RMSE"))
      && mk.r2 == (if "MAPE" in t.columns then MeanSkipNaN(M.ColumnOf(best, "MAPE")) else None)
      && mk.mejorModelo == Mode(M.Modelos(best)) && mk.modelosUnicos == |ModelSet(best)|
  {
    var vs := Distinct(M.Valvulas(t.rows));
    var best := BestRows(t).value;
    forall k | 0 <= k < |vs|
      ensures best[k].valvula == vs[k] && exists j :: M.MinimalRowOfValve(t.rows, "MAE", vs[k], j) && t.rows[j] == best[k]
    {
      BestRowIsMinimal(t.rows, t.columns, vs[k]);
    }
  }

  /** The best model is one most frequent among the best rows, and the first in ascending
      order of those equally frequent. */
  lemma BestModelMostFrequent(t: M.MetricsTable)
    requires ModelKpisOf(t).Ok? && !M.IsEmpty(t)
    ensures BestRows(t).Ok?
    ensures var models := M.Modelos(BestRows(t).value);
      var mejor := ModelKpisOf(t).value.mejorModelo;
      mejor in models
      && (forall x :: x in models ==> Occurrences(models, x) <= Occurrences(models, mejor))
      && (forall x :: x in models && Occurrences(models, x) == Occurrences(models, mejor) ==> x == mejor || StrLt(mejor, x))
  {
    KpisFromBestRows(t);
    var vs := Distinct(M.Valvulas(t.rows));
    assert t.rows[0].valvula in M.Valvulas(t.rows);
  }

  /** Without metric rows the model KPIs are 0, 0, no `r2`, "N/A" and no models; the losses
      and the index never are negative, the index being reported as a percentage. */
  lemma KpisDefaultsAndSigns(metrics: Result<M.MetricsTable, string>, resumen: Result<ResumenTable, string>,
                             balances: Result<BalancesTable, string>)
    requires DashboardKpis(metrics, resumen, balances).Ok?
    ensures var k := DashboardKpis(metrics, resumen, balances).value;
      (M.IsEmpty(metrics.value) ==>
         k.mae == 0.0 && k.rmse == 0.0 && k.r2.None? && k.mejorModelo == NoModel && k.modelosUnicos == 0)
      && k.perdidasTotales >= 0.0 && k.indicePromedio >= 0.0
      && k.indicePromedio == IndicePromedio(resumen.value) * 100.0
      && (resumen.value.columns != [] ==> k.valvulasMonitoreadas == |resumen.value.rows|)
  {
  }

  // ---------------------------------------------------------------- loss index evolution

  datatype LossIndexPoint = LossIndexPoint(periodo: string, indiceReal: Option<real>, indicePredicho: Option<real>)

  /** The text of the `TypeError` of `~` on a NaN cell of ES_PRONOSTICO. */
  const FlagNegationMessage := "bad operand type for unary ~: 'float'"

  predicate IsForecast(r: B.BalanceRow) {
    r.esPronostico == B.Flag(true)
  }

  predicate IsActual(r: B.BalanceRow) {
    r.esPronostico == B.Flag(false)
  }

  /** A stand-in for the text of the `KeyError` pandas raises when the integers `~True`
      and `~False` (-2 and -1) select columns. */
  const FlagSelectionMessage := "KeyError: negated flags are not columns"

  predicate HasNaNFlag(rows: seq<B.BalanceRow>) {
    exists r :: r in rows && r.esPronostico.NaNFlag?
  }

  /** The first period of the rows kept, in ascending order: the first the loop visits. */
  function FirstPeriod(df: seq<B.BalanceRow>): (p: string)
    requires df != []
    ensures p in Periodos(df)
    ensures forall q :: q in Periodos(df) ==> p == q || StrLt(p, q)
  {
    var ps := SortedDistinctStrings(Periodos(df));
    assert Periodos(df)[0] in ps;
    forall q | q in Periodos(df) ensures ps[0] == q || StrLt(ps[0], q) {
      var k :| 0 <= k < |ps| && ps[k] == q;
    }
    ps[0]
  }

  /** A NaN flag anywhere in the table makes ES_PRONOSTICO a column of objects, and the
      loop fails on its first period: `~` raises a `TypeError` on the NaN when that
      period's rows hold one; otherwise it gives integers, and selecting with them raises a
      `KeyError`. */
  function FlagFailure(df: seq<B.BalanceRow>): string
    requires df != []
  {
    if HasNaNFlag(PeriodRows(df, FirstPeriod(df))) then FlagNegationMessage else FlagSelectionMessage
  }

  function Indices(rows: seq<B.BalanceRow>): seq<Option<real>> {
    seq(|rows|, k requires 0 <= k < |rows| => rows[k].indice)
  }

  function Periodos(rows: seq<B.BalanceRow>): (ps: seq<string>)
    ensures |ps| == |rows| && forall k :: 0 <= k < |rows| ==> ps[k] == rows[k].periodo
  {
    seq(|rows|, k requires 0 <= k < |rows| => rows[k].periodo)
  }

  function PeriodRows(rows: seq<B.BalanceRow>, p: string): seq<B.BalanceRow> {
    Filter(rows, (r: B.BalanceRow) => r.periodo == p)
  }

  /** The point of one period: the mean index of its actual rows and of its forecast rows,
      `None` when there is no such row or every index is NaN. */
  function PointOf(rows: seq<B.BalanceRow>, p: string): LossIndexPoint {
    var inPeriod := PeriodRows(rows, p);
    LossIndexPoint(p, MeanSkipNaN(Indices(Filter(inPeriod, IsActual))), MeanSkipNaN(Indices(Filter(inPeriod, IsForecast))))
  }

  /** `if valvula_id: df = df[df['PUNTO'] == valvula_id]`. */
  function ByPunto(t: BalancesTable, valvula: Option<string>): Result<seq<B.BalanceRow>, Raised> {
    if !Truthy(valvula) then Ok(t.rows)
    else if "PUNTO" !in t.columns then Err(OtherRaised(KeyErrorMessage("PUNTO")))
    else Ok(Filter(t.rows, (r: B.BalanceRow) => r.punto == valvula.value))
  }

  const EvolutionPrefix := "Error al obtener evolución: "

  /** The points of the rows kept: one per distinct period, in ascending order. */
  function PointsOf(df: seq<B.BalanceRow>): seq<LossIndexPoint> {
    Mapped(SortedDistinctStrings(Periodos(df)), p => PointOf(df, p))
  }

  function EvolutionOutcome(loaded: Result<BalancesTable, string>, valvula: Option<string>): Result<seq<LossIndexPoint>, Raised> {
    if loaded.Err? then LoadFailure(loaded.error)
    else if loaded.value.rows == [] || loaded.value.columns == [] then Ok([])
    else match ByPunto(loaded.value, valvula)
      case Err(e) => Err(e)
      case Ok(df) =>
        var t := loaded.value;
        if "PERIODO" !in t.columns || "INDICE_PERDIDAS_%" !in t.columns then Ok([])
        else if df != [] && "ES_PRONOSTICO" !in t.columns then Err(OtherRaised(KeyErrorMessage("ES_PRONOSTICO")))
        else if df != [] && HasNaNFlag(t.rows) then Err(OtherRaised(FlagFailure(df)))
        else Ok(PointsOf(df))
  }

  /** With both columns, the flag column and some rows kept, a NaN flag anywhere in the
      table is a 500 whose detail is the `TypeError` of `~` exactly when a row of the first
      period kept holds the NaN, the `KeyError` of the selection otherwise; without a NaN
      flag the route answers. */
  lemma EvolutionFlagFailure(loaded: Result<BalancesTable, string>, valvula: Option<string>)
    requires loaded.Ok? && loaded.value.rows != [] && loaded.value.columns != []
    requires "PERIODO" in loaded.value.columns && "INDICE_PERDIDAS_%" in loaded.value.columns
    requires "ES_PRONOSTICO" in loaded.value.columns
    requires ByPunto(loaded.value, valvula).Ok? && ByPunto(loaded.value, valvula).value != []
    ensures var df := ByPunto(loaded.value, valvula).value;
      HasNaNFlag(loaded.value.rows) ==>
        LossIndexEvolution(loaded, valvula) == Err(HttpError(500, EvolutionPrefix + FlagFailure(df)))
        && (FlagFailure(df) == FlagNegationMessage <==>
              exists r :: r in df && r.periodo == FirstPeriod(df) && r.esPronostico.NaNFlag?)
    ensures !HasNaNFlag(loaded.value.rows) ==> LossIndexEvolution(loaded, valvula).Ok?
  {
    var df := ByPunto(loaded.value, valvula).value;
    var inPeriod := PeriodRows(df, FirstPeriod(df));
    if exists r :: r in df && r.periodo == FirstPeriod(df) && r.esPronostico.NaNFlag? {
      var r :| r in df && r.periodo == FirstPeriod(df) && r.esPronostico.NaNFlag?;
      assert r in inPeriod;
    }
  }

  /** `get_loss_index_evolution`, as a function. */
  function LossIndexEvolution(loaded: Result<BalancesTable, string>, valvula: Option<string>)
    : Result<seq<LossIndexPoint>, HttpError>
  {
    Handle(EvolutionPrefix, false, EvolutionOutcome(loaded, valvula))
  }

  /** `get_loss_index_evolution`: one point per distinct period, appended in ascending order. */
  method GetLossIndexEvolution(loaded: Result<BalancesTable, string>, valvula: Option<string>)
    returns (r: Result<seq<LossIndexPoint>, HttpError>)
    ensures r == LossIndexEvolution(loaded, valvula)
  {
    if loaded.Err? {
      return Err(HttpError(500, EvolutionPrefix + loaded.error));
    }
    var t := loaded.value;
    if t.rows == [] || t.columns == [] {
      return Ok([]);
    }
    var filtered := ByPunto(t, valvula);
    if filtered.Err? {
      return Handle(EvolutionPrefix, false, Err(filtered.error));
    }
    var df := filtered.value;
    if "PERIODO" !in t.columns || "INDICE_PERDIDAS_%" !in t.columns {
      return Ok([]);
    }
    if df != [] && "ES_PRONOSTICO" !in t.columns {
      return Err(HttpError(500, EvolutionPrefix + KeyErrorMessage("ES_PRONOSTICO")));
    }
    if df != [] && HasNaNFlag(t.rows) {
      return Err(HttpError(500, EvolutionPrefix + FlagFailure(df)));
    }
    var evolution := MapEach(SortedDistinctStrings(Periodos(df)), p => PointOf(df, p));
    r := Ok(evolution);
  }

  /** A mean over rows is absent exactly when none of them has an index. */
  lemma MeanAbsentIffNoIndex(rows: seq<B.BalanceRow>)
    ensures MeanSkipNaN(Indices(rows)).None? <==> forall r :: r in rows ==> r.indice.None?
  {
    var c := Indices(rows);
    if exists r :: r in rows && r.indice.Some? {
      var r :| r in rows && r.indice.Some?;
      var k :| 0 <= k < |rows| && rows[k] == r;
      assert c[k] == Some(r.indice.value);
      assert r.indice.value in Present(c);
    }
    if Present(c) != [] {
      assert Some(Present(c)[0]) in c;
      var k :| 0 <= k < |c| && c[k] == Some(Present(c)[0]);
      assert rows[k] in rows;
    }
  }

  /** The point of a period: its actual index is absent exactly when no actual row of the
      period has an index, and likewise the forecast index. */
  lemma PointFacts(df: seq<B.BalanceRow>, p: string)
    ensures var pt := PointOf(df, p);
      pt.periodo == p
      && (pt.indiceReal.None? <==> forall r :: r in df && r.periodo == p && IsActual(r) ==> r.indice.None?)
      && (pt.indicePredicho.None? <==> forall r :: r in df && r.periodo == p && IsForecast(r) ==> r.indice.None?)
  {
    var inPeriod := PeriodRows(df, p);
    var actual := Filter(inPeriod, IsActual);
    var forecast := Filter(inPeriod, IsForecast);
    MeanAbsentIffNoIndex(actual);
    MeanAbsentIffNoIndex(forecast);
    assert forall r :: r in inPeriod <==> r in df && r.periodo == p;
    assert forall r :: r in actual <==> r in inPeriod && IsActual(r);
    assert forall r :: r in forecast <==> r in inPeriod && IsForecast(r);
  }

  /** One point per distinct period of the rows, in strictly ascending order of period, each
      as `PointFacts` describes. */
  lemma PointsListed(df: seq<B.BalanceRow>)
    ensures var points := PointsOf(df);
      (forall i, j :: 0 <= i < j < |points| ==> StrLt(points[i].periodo, points[j].periodo))
      && (forall p :: p in Periodos(df) <==> exists k :: 0 <= k < |points| && points[k].periodo == p)
      && (forall k :: 0 <= k < |points| ==>
            (points[k].indiceReal.None? <==>
               forall r :: r in df && r.periodo == points[k].periodo && IsActual(r) ==> r.indice.None?)
            && (points[k].indicePredicho.None? <==>
               forall r :: r in df && r.periodo == points[k].periodo && IsForecast(r) ==> r.indice.None?))
  {
    var ps := SortedDistinctStrings(Periodos(df));
    var points := PointsOf(df);
    forall k | 0 <= k < |points|
      ensures points[k].periodo == ps[k]
      ensures (points[k].indiceReal.None? <==>
               forall r :: r in df && r.periodo == points[k].periodo && IsActual(r) ==> r.indice.None?)
      ensures (points[k].indicePredicho.None? <==>
               forall r :: r in df && r.periodo == points[k].periodo && IsForecast(r) ==> r.indice.None?)
    {
      PointFacts(df, ps[k]);
    }
    forall p ensures p in Periodos(df) <==> exists k :: 0 <= k < |points| && points[k].periodo == p {
      if p in ps {
        var k :| 0 <= k < |ps| && ps[k] == p;
        assert points[k].periodo == p;
      }
    }
  }

  /** With both columns the answer is the points of the rows of the valve asked for (all rows
      without one). */
  lemma EvolutionPoints(loaded: Result<BalancesTable, string>, valvula: Option<string>)
    requires LossIndexEvolution(loaded, valvula).Ok?
    requires loaded.Ok? && loaded.value.rows != [] && loaded.value.columns != []
    requires "PERIODO" in loaded.value.columns && "INDICE_PERDIDAS_%" in loaded.value.columns
    ensures ByPunto(loaded.value, valvula).Ok?
    ensures LossIndexEvolution(loaded, valvula).value == PointsOf(ByPunto(loaded.value, valvula).value)
    ensures Truthy(valvula) ==> forall r :: r in ByPunto(loaded.value, valvula).value <==> r in loaded.value.rows && r.punto == valvula.value
    ensures !Truthy(valvula) ==> ByPunto(loaded.value, valvula).value == loaded.value.rows
  {
  }

  // ---------------------------------------------------------------- top valves

  datatype TopValve = TopValve(
    valvula: string, perdidasPromedio: real, indicePerdidas: real, entradaPromedio: real,
    salidaPromedio: real, numPeriodos: int)

  /** An entry: NaN (or a missing column) reported as 0, the index as an absolute value and
      the period count truncated. */
  function TopValveOf(r: TopRow): (v: TopValve)
    ensures v.indicePerdidas >= 0.0
  {
    TopValve(r.valvula, NanToZero(r.perdidasPromedio), AbsOrZero(r.indice), NanToZero(r.entradaPromedio),
             NanToZero(r.salidaPromedio), if r.numPeriodos.Some? then Truncate(r.numPeriodos.value) else 0)
  }

  predicate HasLoss(r: TopRow) {
    r.perdidasAbs.Some?
  }

  predicate NoLoss(r: TopRow) {
    r.perdidasAbs.None?
  }

  function NegatedLoss(r: TopRow): real {
    if r.perdidasAbs.Some? then -r.perdidasAbs.value else 0.0
  }

  /** `sort_values('PERDIDAS_ABS', ascending=False)`: rows with a loss from the largest, then
      the rows whose loss is NaN. */
  function ByLossDescending(rows: seq<TopRow>): seq<TopRow> {
    SortBy(Filter(rows, HasLoss), NegatedLoss) + Filter(rows, NoLoss)
  }

  /** The rows in the order the route takes them: sorted when there is a PERDIDAS_ABS column. */
  function Ordered(t: TopTable): seq<TopRow> {
    if "PERDIDAS_ABS" in t.columns then ByLossDescending(t.rows) else t.rows
  }

  /** `df.head(limit)`. */
  function Take(rows: seq<TopRow>, limit: nat): (r: seq<TopRow>)
    ensures |r| == (if limit < |rows| then limit else |rows|)
    ensures r == rows[..|r|]
  {
    if limit < |rows| then rows[..limit] else rows
  }

  /** One entry for each of the first `limit` rows in the route's order. */
  function TopEntries(t: TopTable, limit: nat): seq<TopValve> {
    Mapped(Take(Ordered(t), limit), TopValveOf)
  }

  const TopPrefix := "Error al obtener top válvulas: "

  function TopOutcome(loaded: Result<TopTable, string>, limit: nat): Result<seq<TopValve>, Raised> {
    if loaded.Err? then LoadFailure(loaded.error)
    else if loaded.value.rows == [] || loaded.value.columns == [] then Ok([])
    else if "VALVULA" !in loaded.value.columns then Err(OtherRaised(KeyErrorMessage("VALVULA")))
    else
      Ok(TopEntries(loaded.value, limit))
  }

  /** `get_top_valves`, for a `limit` the query validation lets through. */
  function TopValves(loaded: Result<TopTable, string>, limit: nat): Result<seq<TopValve>, HttpError>
    requires 1 <= limit <= 20
  {
    Handle(TopPrefix, false, TopOutcome(loaded, limit))
  }

  /** `get_top_valves`: the first `limit` rows in order, one entry each, appended in order. */
  method GetTopValves(loaded: Result<TopTable, string>, limit: nat) returns (r: Result<seq<TopValve>, HttpError>)
    requires 1 <= limit <= 20
    ensures r == TopValves(loaded, limit)
  {
    if loaded.Err? {
      return Err(HttpError(500, TopPrefix + loaded.error));
    }
    var t := loaded.value;
    if t.rows == [] || t.columns == [] {
      return Ok([]);
    }
    if "VALVULA" !in t.columns {
      return Err(HttpError(500, TopPrefix + KeyErrorMessage("VALVULA")));
    }
    var result := MapEach(Take(Ordered(t), limit), TopValveOf);
    r := Ok(result);
  }

  /** Sorting by loss keeps every row once: those with a loss in descending order, then
      those without. */
  lemma ByLossDescendingOrder(rows: seq<TopRow>)
    ensures var o := ByLossDescending(rows);
      multiset(o) == multiset(rows)
      && (forall i, j :: 0 <= i < j < |o| && o[j].perdidasAbs.Some? ==>
            o[i].perdidasAbs.Some? && o[i].perdidasAbs.value >= o[j].perdidasAbs.value)
  {
    var withLoss := Filter(rows, HasLoss);
    var without := Filter(rows, NoLoss);
    var sorted := SortBy(withLoss, NegatedLoss);
    var o := sorted + without;
    FilterSplits(rows);
    forall i, j | 0 <= i < j < |o| && o[j].perdidasAbs.Some?
      ensures o[i].perdidasAbs.Some? && o[i].perdidasAbs.value >= o[j].perdidasAbs.value
    {
      assert j < |sorted|;
      assert o[i] == sorted[i];
      assert sorted[i] in multiset(withLoss);
      assert o[j] == sorted[j];
      assert sorted[j] in multiset(withLoss);
    }
  }

  /** Splitting rows by whether they have a loss keeps each row once. */
  lemma {:induction false} FilterSplits(rows: seq<TopRow>)
    ensures multiset(Filter(rows, HasLoss)) + multiset(Filter(rows, NoLoss)) == multiset(rows)
  {
    if rows != [] {
      FilterSplits(rows[1..]);
      assert rows == [rows[0]] + rows[1..];
    }
  }

  /** Over a table with rows the route answers the 500 naming `VALVULA` when that column is
      missing, and `TopEntries` otherwise, whose count, indices and order TopEntriesListed
      states. */
  lemma TopValvesListed(loaded: Result<TopTable, string>, limit: nat)
    requires 1 <= limit <= 20
    requires loaded.Ok? && loaded.value.rows != [] && loaded.value.columns != []
    ensures "VALVULA" !in loaded.value.columns ==> TopValves(loaded, limit) == Err(HttpError(500, TopPrefix + KeyErrorMessage("VALVULA")))
    ensures "VALVULA" in loaded.value.columns ==> TopValves(loaded, limit) == Ok(TopEntries(loaded.value, limit))
  {
  }

  /** The entries are those of the first `limit` rows in the route's order (fewer when there
      are fewer rows), that order keeps every row once, every index is non-negative, and with
      a PERDIDAS_ABS column no row left out has a larger loss than a row taken. */
  lemma TopEntriesListed(t: TopTable, limit: nat)
    ensures var resp := TopEntries(t, limit);
      var o := Ordered(t);
      |resp| == (if limit < |t.rows| then limit else |t.rows|)
      && multiset(o) == multiset(t.rows)
      && (forall k :: 0 <= k < |resp| ==> resp[k] == TopValveOf(o[k]) && resp[k].indicePerdidas >= 0.0)
      && ("PERDIDAS_ABS" in t.columns ==>
            forall i, j :: 0 <= i < |resp| <= j < |o| && o[j].perdidasAbs.Some? ==>
              o[i].perdidasAbs.Some? && o[i].perdidasAbs.value >= o[j].perdidasAbs.value)
  {
    OrderedKeepsRows(t);
    var o := Ordered(t);
    var top := Take(o, limit);
    assert forall k :: 0 <= k < |top| ==> top[k] == o[k];
  }

  /** The order the route takes keeps every row once, and with a PERDIDAS_ABS column puts
      the rows with a loss first, from the largest. */
  lemma OrderedKeepsRows(t: TopTable)
    ensures var o := Ordered(t);
      |o| == |t.rows| && multiset(o) == multiset(t.rows)
      && ("PERDIDAS_ABS" in t.columns ==>
            forall i, j :: 0 <= i < j < |o| && o[j].perdidasAbs.Some? ==>
              o[i].perdidasAbs.Some? && o[i].perdidasAbs.value >= o[j].perdidasAbs.value)
  {
    if "PERDIDAS_ABS" in t.columns {
      ByLossDescendingOrder(t.rows);
    }
    var o := Ordered(t);
    assert |o| == |multiset(o)|;
  }

  // ---------------------------------------------------------------- valves status

  datatype ValveStatus = ValveStatus(
    valvula: string, fechaInicio: string, fechaFin: string, volumenEntradaTotal: real,
    volumenSalidaTotal: real, indicePromedio: real, nivelAlerta: string, tieneMacromedidor: bool)

  const NormalLevel := "NORMAL"

  /** The alert level of every valve: that of its last row. */
  function AlertLevels(rows: seq<A.AlertRow>): (m: map<string, string>)
    ensures forall v :: v in m <==> exists r :: r in rows && r.valvula == v
  {
    if rows == [] then map[]
    else
      var n := |rows| - 1;
      assert forall r :: r in rows <==> r in rows[..n] || r == rows[n] by {
        assert rows == rows[..n] + [rows[n]];
      }
      AlertLevels(rows[..n])[rows[n].valvula := rows[n].nivel]
  }

  /** The level of a valve is that of the last alert row naming it. */
  lemma {:induction false} AlertLevelIsLast(rows: seq<A.AlertRow>, k: nat)
    requires k < |rows|
    requires forall j :: k < j < |rows| ==> rows[j].valvula != rows[k].valvula
    ensures AlertLevels(rows)[rows[k].valvula] == rows[k].nivel
  {
    var n := |rows| - 1;
    if k < n {
      AlertLevelIsLast(rows[..n], k);
    }
  }

  /** `bool(row.get('TIENE_MACROMEDIDOR_SUM', False))`: false without the column; a NaN cell
      is a true float. */
  function Macromedidor(r: ResumenRow, columns: seq<string>): bool {
    "TIENE_MACROMEDIDOR_SUM" in columns && (r.macromedidor.None? || r.macromedidor.value != 0.0)
  }

  /** An entry: the dates as text ("" without the column), NaN totals as 0, the index as an
      absolute percentage, and the alert level of the valve or "NORMAL". */
  function StatusOf(r: ResumenRow, columns: seq<string>, levels: map<string, string>): (s: ValveStatus)
    ensures s.indicePromedio >= 0.0
    ensures s.nivelAlerta == (if r.valvula in levels then levels[r.valvula] else NormalLevel)
  {
    ValveStatus(
      r.valvula,
      if "FECHA_MIN" in columns then r.fechaMin else "",
      if "FECHA_MAX" in columns then r.fechaMax else "",
      NanToZero(r.entradaSum), NanToZero(r.salidaSum), AbsOrZero(r.indiceMean) * 100.0,
      if r.valvula in levels then levels[r.valvula] else NormalLevel,
      Macromedidor(r, columns))
  }

  /** The alert map, or the `KeyError` reading an alert row raises; the level is read before
      the valve. */
  function AlertMap(alertas: AlertsTable): Result<map<string, string>, Raised> {
    if alertas.rows == [] || alertas.columns == [] then Ok(map[])
    else if "NIVEL" !in alertas.columns then Err(OtherRaised(KeyErrorMessage("NIVEL")))
    else if "VALVULA" !in alertas.columns then Err(OtherRaised(KeyErrorMessage("VALVULA")))
    else Ok(AlertLevels(alertas.rows))
  }

  const StatusPrefix := "Error al obtener estado de válvulas: "

  function StatusOutcome(resumen: Result<ResumenTable, string>, alertas: Result<AlertsTable, string>)
    : Result<seq<ValveStatus>, Raised>
  {
    if resumen.Err? then LoadFailure(resumen.error)
    else if alertas.Err? then LoadFailure(alertas.error)
    else if resumen.value.rows == [] || resumen.value.columns == [] then Ok([])
    else match AlertMap(alertas.value)
      case Err(e) => Err(e)
      case Ok(levels) =>
        var s := resumen.value;
        if "VALVULA" !in s.columns then Err(OtherRaised(KeyErrorMessage("VALVULA")))
        else Ok(seq(|s.rows|, k requires 0 <= k < |s.rows| => StatusOf(s.rows[k], s.columns, levels)))
  }

  /** `get_valves_status`, as a function. */
  function ValvesStatus(resumen: Result<ResumenTable, string>, alertas: Result<AlertsTable, string>)
    : Result<seq<ValveStatus>, HttpError>
  {
    Handle(StatusPrefix, false, StatusOutcome(resumen, alertas))
  }

  /** The loop that fills `alertas_map`: every row sets the level of its valve. */
  method BuildAlertMap(rows: seq<A.AlertRow>) returns (m: map<string, string>)
    ensures m == AlertLevels(rows)
  {
    m := map[];
    var i := 0;
    while i < |rows|
      invariant 0 <= i <= |rows|
      invariant m == AlertLevels(rows[..i])
    {
      assert rows[..i + 1][..i] == rows[..i];
      m := m[rows[i].valvula := rows[i].nivel];
      i := i + 1;
    }
    assert rows[..i] == rows;
  }

  /** `get_valves_status`: the alert map, then one entry per summary row, appended in order. */
  method GetValvesStatus(resumen: Result<ResumenTable, string>, alertas: Result<AlertsTable, string>)
    returns (r: Result<seq<ValveStatus>, HttpError>)
    ensures r == ValvesStatus(resumen, alertas)
  {
    if resumen.Err? {
      return Err(HttpError(500, StatusPrefix + resumen.error));
    }
    if alertas.Err? {
      return Err(HttpError(500, StatusPrefix + alertas.error));
    }
    var s := resumen.value;
    if s.rows == [] || s.columns == [] {
      return Ok([]);
    }
    var a := alertas.value;
    var levels: map<string, string> := map[];
    if a.rows != [] && a.columns != [] {
      if "NIVEL" !in a.columns {
        return Err(HttpError(500, StatusPrefix + KeyErrorMessage("NIVEL")));
      }
      if "VALVULA" !in a.columns {
        return Err(HttpError(500, StatusPrefix + KeyErrorMessage("VALVULA")));
      }
      levels := BuildAlertMap(a.rows);
    }
    assert AlertMap(a) == Ok(levels);
    if "VALVULA" !in s.columns {
      return Err(HttpError(500, StatusPrefix + KeyErrorMessage("VALVULA")));
    }
    var status := StatusEntries(s.rows, s.columns, levels);
    assert status == seq(|s.rows|, k requires 0 <= k < |s.rows| => StatusOf(s.rows[k], s.columns, levels));
    r := Ok(status);
  }

  /** The loop of `get_valves_status`: one entry per summary row, appended in order. */
  method StatusEntries(rows: seq<ResumenRow>, columns: seq<string>, levels: map<string, string>)
    returns (status: seq<ValveStatus>)
    ensures status == seq(|rows|, k requires 0 <= k < |rows| => StatusOf(rows[k], columns, levels))
  {
    status := [];
    var i := 0;
    while i < |rows|
      invariant 0 <= i <= |rows|
      invariant |status| == i && forall k :: 0 <= k < i ==> status[k] == StatusOf(rows[k], columns, levels)
    {
      status := status + [StatusOf(rows[i], columns, levels)];
      i := i + 1;
    }
  }

  /** One entry per summary row, in order, for the same valve; its level is that of the last
      alert row of the valve, or "NORMAL" when no alert row names it; its index is never
      negative. */
  lemma StatusListed(resumen: Result<ResumenTable, string>, alertas: Result<AlertsTable, string>)
    requires ValvesStatus(resumen, alertas).Ok? && resumen.Ok? && alertas.Ok?
    requires resumen.value.rows != [] && resumen.value.columns != []
    ensures var rows := resumen.value.rows;
      var al := alertas.value.rows;
      var resp := ValvesStatus(resumen, alertas).value;
      |resp| == |rows|
      && (forall k :: 0 <= k < |rows| ==> resp[k].valvula == rows[k].valvula && resp[k].indicePromedio >= 0.0)
      && (forall k :: 0 <= k < |rows| ==>
            ((forall r :: r in al ==> r.valvula != rows[k].valvula) ==> resp[k].nivelAlerta == NormalLevel))
      && (alertas.value.columns != [] ==> forall k, j ::
            (0 <= k < |rows| && 0 <= j < |al| && al[j].valvula == rows[k].valvula
             && forall i :: j < i < |al| ==> al[i].valvula != rows[k].valvula) ==> resp[k].nivelAlerta == al[j].nivel)
  {
    var al := alertas.value.rows;
    var levels := AlertMap(alertas.value).value;
    if alertas.value.columns != [] {
      forall j | 0 <= j < |al| && (forall i :: j < i < |al| ==> al[i].valvula != al[j].valvula)
        ensures al[j].valvula in levels && levels[al[j].valvula] == al[j].nivel
      {
        assert al[j] in al;
        AlertLevelIsLast(al, j);
      }
    }
  }
}
