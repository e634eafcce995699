/** The alert routes (backend/app/api/routes/alerts.py): the filtered list of all alerts,
    the counts by level, the alerts of one valve and the critical alerts. */
module AlertsRoute {
  import opened Wrappers
  import opened Text
  import opened Seqs
  import opened Frames

  /** A row of the alerts table. A NaN or missing loss index or mean inflow is `None`; the
      columns of the table, and so the ones missing, are given beside the rows. */
  datatype AlertRow = AlertRow(
    valvula: string, nivel: string, mensajes: string, indice: Option<real>, entradaPromedio: Option<real>)

  /** `AlertMetrics` as the routes fill it: the absolute loss index (0 for NaN) and the mean
      inflow. */
  datatype AlertMetrics = AlertMetrics(indicePerdidas: real, entradaPromedio: Option<real>)

  function MetricsOf(r: AlertRow): (m: AlertMetrics)
    ensures m.indicePerdidas >= 0.0
    ensures r.indice.Some? ==> m.indicePerdidas == Abs(r.indice.value)
    ensures r.indice.None? ==> m.indicePerdidas == 0.0
    ensures m.entradaPromedio == r.entradaPromedio
  {
    AlertMetrics(AbsOrZero(r.indice), r.entradaPromedio)
  }

  // ---------------------------------------------------------------- all alerts

  /** `if nivel:` and `if valvula:` — a filter applies when its parameter is a non-empty
      string; the level is compared after upper-casing both sides, the valve exactly. */
  predicate PassesFilters(r: AlertRow, nivel: Option<string>, valvula: Option<string>) {
    (Truthy(nivel) ==> PyUpper(r.nivel) == PyUpper(nivel.value))
    && (Truthy(valvula) ==> r.valvula == valvula.value)
  }

  function Filtered(rows: seq<AlertRow>, nivel: Option<string>, valvula: Option<string>): seq<AlertRow> {
    Filter(rows, (r: AlertRow) => PassesFilters(r, nivel, valvula))
  }

  /** The level filter ignores case: asking for "critico" or "CRITICO" keeps the same rows. */
  lemma LevelFilterIgnoresCase(r: AlertRow, nivel: string, valvula: Option<string>)
    requires nivel != ""
    ensures PassesFilters(r, Some(PyUpper(nivel)), valvula) == PassesFilters(r, Some(nivel), valvula)
  {
    PyUpperIdempotent(nivel);
  }

  /** The fields the `Alert` schema requires, and the fields the route passes. */
  const AlertRequired: set<string> :=
    {"id", "fecha", "valvula", "ubicacion", "tipo", "severidad", "descripcion", "estado", "metricas"}
  const AlertGiven: set<string> := {"valvula", "nivel", "mensajes", "metricas"}

  /** The text of the validation error; its exact wording is not modelled. */
  const ValidationErrorText := "validation errors for Alert"

  datatype Alert = Alert(valvula: string, nivel: string, mensajes: string, metricas: AlertMetrics)

  function AlertOf(r: AlertRow): Alert {
    Alert(r.valvula, r.nivel, r.mensajes, MetricsOf(r))
  }

  /** `Alert(...)` with the route's arguments, validated against a schema's required
      fields: validation fails when one of them is not given. The route validates against
      `AlertRequired`. */
  function BuildAlert(r: AlertRow, required: set<string>): (a: Result<Alert, string>)
    ensures a.Ok? <==> required <= AlertGiven
    ensures a.Ok? ==> a.value == AlertOf(r)
  {
    if required <= AlertGiven then Ok(AlertOf(r)) else Err(ValidationErrorText)
  }

  /** The route never builds an alert: "id" is required and not given. */
  lemma AlertNeverBuilt(r: AlertRow)
    ensures BuildAlert(r, AlertRequired).Err?
  {
    assert "id" in AlertRequired;
    assert "id" !in AlertGiven;
  }

  datatype AlertsResponse = AlertsResponse(alertas: seq<Alert>, total: nat)

  const AlertsPrefix := "Error al obtener alertas: "

  /** Builds the alerts of `rows` in order; the first that fails validation fails the
      whole list. */
  function BuildAll(rows: seq<AlertRow>, required: set<string>): (r: Result<seq<Alert>, string>)
    ensures r.Ok? <==> rows == [] || BuildAlert(rows[0], required).Ok?
    ensures r.Ok? ==> |r.value| == |rows| && forall k :: 0 <= k < |rows| ==> r.value[k] == AlertOf(rows[k])
  {
    if rows != [] && !(required <= AlertGiven) then Err(ValidationErrorText)
    else Ok(seq(|rows|, k requires 0 <= k < |rows| => AlertOf(rows[k])))
  }

  /** The columns the filters index, in the order the route applies them: `NIVEL` when a
      level is asked for, then `VALVULA` when a valve is. */
  function FilterColumns(nivel: Option<string>, valvula: Option<string>): seq<string> {
    (if Truthy(nivel) then ["NIVEL"] else []) + (if Truthy(valvula) then ["VALVULA"] else [])
  }

  /** The columns each alert reads with `row[...]`, in argument order; the metric cells are
      read with `row.get` and never raise. */
  const AlertColumns: seq<string> := ["VALVULA", "NIVEL", "MENSAJES"]

  function AllAlertsOutcome(loaded: LoadedTable<AlertRow>, nivel: Option<string>, valvula: Option<string>,
                            required: set<string>)
    : Result<AlertsResponse, Raised>
  {
    if loaded.Err? then LoadFailure(loaded.error)
    else
      var t := loaded.value;
      if t.rows == [] then Ok(AlertsResponse([], 0))
      else match FirstMissing(t.columns, FilterColumns(nivel, valvula))
        case Some(c) => Err(OtherRaised(KeyErrorMessage(c)))
        case None =>
          var rows := Filtered(t.rows, nivel, valvula);
          if rows == [] then Ok(AlertsResponse([], 0))
          else match FirstMissing(t.columns, AlertColumns)
            case Some(c) => Err(OtherRaised(KeyErrorMessage(c)))
            case None =>
              match BuildAll(rows, required)
              case Err(e) => Err(OtherRaised(e))
              case Ok(list) => Ok(AlertsResponse(list, |list|))
  }

  /** `get_all_alerts` with alerts validated against `required`. */
  function AllAlertsWith(loaded: LoadedTable<AlertRow>, nivel: Option<string>, valvula: Option<string>,
                         required: set<string>)
    : Result<AlertsResponse, HttpError>
  {
    Handle(AlertsPrefix, false, AllAlertsOutcome(loaded, nivel, valvula, required))
  }

  /** `get_all_alerts`, as a function: alerts are validated against the `Alert` schema. */
  function AllAlerts(loaded: LoadedTable<AlertRow>, nivel: Option<string>, valvula: Option<string>)
    : Result<AlertsResponse, HttpError>
  {
    AllAlertsWith(loaded, nivel, valvula, AlertRequired)
  }

  /** `get_all_alerts`: filters, then appends one alert per row, reading the row's cells
      before validating the alert; a missing column or the first alert that fails validation
      against `required` ends the request with a 500. */
  method GetAllAlerts(loaded: LoadedTable<AlertRow>, nivel: Option<string>, valvula: Option<string>,
                      required: set<string>)
    returns (r: Result<AlertsResponse, HttpError>)
    ensures r == AllAlertsWith(loaded, nivel, valvula, required)
  {
    if loaded.Err? {
      return Err(HttpError(500, AlertsPrefix + loaded.error));
    }
    var t := loaded.value;
    if t.rows == [] {
      return Ok(AlertsResponse([], 0));
    }
    var filterMissing := FirstMissing(t.columns, FilterColumns(nivel, valvula));
    if filterMissing.Some? {
      return Err(HttpError(500, AlertsPrefix + KeyErrorMessage(filterMissing.value)));
    }
    var rows := Filtered(t.rows, nivel, valvula);
    var list: seq<Alert> := [];
    var i := 0;
    while i < |rows|
      invariant 0 <= i <= |rows|
      invariant |list| == i && forall k :: 0 <= k < i ==> list[k] == AlertOf(rows[k])
      invariant i > 0 ==> FirstMissing(t.columns, AlertColumns).None? && required <= AlertGiven
    {
      var missing := FirstMissing(t.columns, AlertColumns);
      if missing.Some? {
        return Err(HttpError(500, AlertsPrefix + KeyErrorMessage(missing.value)));
      }
      var a := BuildAlert(rows[i], required);
      if a.Err? {
        return Err(HttpError(500, AlertsPrefix + a.error));
      }
      list := list + [a.value];
      i := i + 1;
    }
    assert list == seq(|rows|, k requires 0 <= k < |rows| => AlertOf(rows[k]));
    r := Ok(AlertsResponse(list, |list|));
  }

  /** The filters can be applied: the table has every column they index. */
  predicate FiltersReadable(t: Table<AlertRow>, nivel: Option<string>, valvula: Option<string>) {
    FirstMissing(t.columns, FilterColumns(nivel, valvula)).None?
  }

  /** The list route answers only with an empty list: when the table has rows, a filter over
      a missing column is a 500 naming it, and as soon as one row passes the filters a missing
      cell column or the missing schema fields make it a 500. */
  lemma AllAlertsOnlyEmpty(loaded: LoadedTable<AlertRow>, nivel: Option<string>, valvula: Option<string>)
    ensures AllAlerts(loaded, nivel, valvula).Ok? ==> AllAlerts(loaded, nivel, valvula).value == AlertsResponse([], 0)
    ensures AllAlerts(loaded, nivel, valvula).Ok? <==>
      loaded.Ok? && (loaded.value.rows == [] ||
                     (FiltersReadable(loaded.value, nivel, valvula) && Filtered(loaded.value.rows, nivel, valvula) == []))
    ensures loaded.Ok? && loaded.value.rows != [] && !FiltersReadable(loaded.value, nivel, valvula) ==>
      AllAlerts(loaded, nivel, valvula) ==
        Err(HttpError(500, AlertsPrefix + KeyErrorMessage(FirstMissing(loaded.value.columns, FilterColumns(nivel, valvula)).value)))
    ensures loaded.Ok? && loaded.value.rows != [] && FiltersReadable(loaded.value, nivel, valvula)
            && Filtered(loaded.value.rows, nivel, valvula) != [] ==>
      AllAlerts(loaded, nivel, valvula).Err? && AllAlerts(loaded, nivel, valvula).error.status == 500
      && (FirstMissing(loaded.value.columns, AlertColumns).Some? ==>
            AllAlerts(loaded, nivel, valvula).error.detail ==
              AlertsPrefix + KeyErrorMessage(FirstMissing(loaded.value.columns, AlertColumns).value))
  {
    if loaded.Ok? {
      var rows := Filtered(loaded.value.rows, nivel, valvula);
      if rows != [] {
        AlertNeverBuilt(rows[0]);
      }
    }
  }

  // ---------------------------------------------------------------- stats

  datatype AlertStats = AlertStats(total: nat, criticas: nat, altas: nat, medias: nat, bajas: nat)

  /** Rows whose upper-cased level is `level`. */
  function CountLevel(rows: seq<AlertRow>, level: string): (n: nat)
    ensures n <= |rows|
  {
    if rows == [] then 0 else (if PyUpper(rows[0].nivel) == level then 1 else 0) + CountLevel(rows[1..], level)
  }

  /** `get_alert_stats`: counts by upper-cased level; both spellings of "CRÍTICO" are
      critical. */
  function Stats(rows: seq<AlertRow>): (s: AlertStats)
    ensures s.total == |rows|
    ensures s.criticas == CountLevel(rows, "CRITICO") + CountLevel(rows, "CRÍTICO")
    ensures s.altas == CountLevel(rows, "ALTO")
    ensures s.medias == CountLevel(rows, "MEDIO") && s.bajas == CountLevel(rows, "BAJO")
    ensures rows == [] ==> s == AlertStats(0, 0, 0, 0, 0)
  {
    if rows == [] then AlertStats(0, 0, 0, 0, 0)
    else
      AlertStats(|rows|, CountLevel(rows, "CRITICO") + CountLevel(rows, "CRÍTICO"),
                 CountLevel(rows, "ALTO"), CountLevel(rows, "MEDIO"), CountLevel(rows, "BAJO"))
  }

  const StatsPrefix := "Error al obtener estadísticas de alertas: "

  function StatsOutcome(loaded: LoadedTable<AlertRow>): Result<AlertStats, Raised> {
    if loaded.Err? then LoadFailure(loaded.error)
    else if loaded.value.rows == [] then Ok(AlertStats(0, 0, 0, 0, 0))
    else if "NIVEL" !in loaded.value.columns then Err(OtherRaised(KeyErrorMessage("NIVEL")))
    else Ok(Stats(loaded.value.rows))
  }

  /** `get_alert_stats`: the counts of a table that loads, unless it has rows and no `NIVEL`
      column to count, which is a 500 naming the column. */
  function AlertStatsRoute(loaded: LoadedTable<AlertRow>): (r: Result<AlertStats, HttpError>)
    ensures r.Ok? <==> loaded.Ok? && (loaded.value.rows == [] || "NIVEL" in loaded.value.columns)
    ensures r.Ok? ==> r.value == Stats(loaded.value.rows)
    ensures loaded.Err? ==> r == Err(HttpError(500, StatsPrefix + loaded.error))
    ensures loaded.Ok? && loaded.value.rows != [] && "NIVEL" !in loaded.value.columns ==>
      r == Err(HttpError(500, StatsPrefix + KeyErrorMessage("NIVEL")))
  {
    Handle(StatsPrefix, false, StatsOutcome(loaded))
  }

  /** Each row is counted at most once: the four counts add up to no more than the total. */
  lemma {:induction false} StatsBounded(rows: seq<AlertRow>)
    ensures var s := Stats(rows); s.criticas + s.altas + s.medias + s.bajas <= s.total
  {
    if rows != [] {
      StatsBounded(rows[1..]);
    }
  }

  // ---------------------------------------------------------------- one valve

  datatype ValveAlert = ValveAlert(nivel: string, mensajes: string, metricas: AlertMetrics)

  /** The answer for one valve; `mensaje` and `nivel_mas_alto` are keys that only some
      answers carry. */
  datatype ValveAlerts = ValveAlerts(
    valvula: string, alertas: seq<ValveAlert>, total: nat, mensaje: Option<string>,
    nivelMasAlto: Option<string>)

  function ValveAlertOf(r: AlertRow): ValveAlert {
    ValveAlert(r.nivel, r.mensajes, MetricsOf(r))
  }

  function RowsOfValve(rows: seq<AlertRow>, id: string): seq<AlertRow> {
    Filter(rows, (r: AlertRow) => r.valvula == id)
  }

  function NoAlertsMessage(id: string): string {
    "No hay alertas para " + id
  }

  const ValveAlertsPrefix := "Error al obtener alertas de válvula: "

  /** The columns each entry reads with `row[...]`; `nivel_mas_alto` reads `NIVEL` again. */
  const ValveAlertColumns: seq<string> := ["NIVEL", "MENSAJES"]

  function ValveAlertsOutcome(loaded: LoadedTable<AlertRow>, id: string): Result<ValveAlerts, Raised> {
    if loaded.Err? then LoadFailure(loaded.error)
    else
      var t := loaded.value;
      if t.rows == [] then Ok(ValveAlerts(id, [], 0, None, None))
      else if "VALVULA" !in t.columns then Err(OtherRaised(KeyErrorMessage("VALVULA")))
      else
        var vr := RowsOfValve(t.rows, id);
        if vr == [] then Ok(ValveAlerts(id, [], 0, Some(NoAlertsMessage(id)), None))
        else match FirstMissing(t.columns, ValveAlertColumns)
          case Some(c) => Err(OtherRaised(KeyErrorMessage(c)))
          case None =>
            Ok(ValveAlerts(id, seq(|vr|, k requires 0 <= k < |vr| => ValveAlertOf(vr[k])), |vr|, None, Some(vr[0].nivel)))
  }

  /** `get_valve_alerts`, as a function. */
  function ValveAlertsRoute(loaded: LoadedTable<AlertRow>, id: string): Result<ValveAlerts, HttpError> {
    Handle(ValveAlertsPrefix, false, ValveAlertsOutcome(loaded, id))
  }

  /** `get_valve_alerts`: one entry per row of the valve, appended in order, each reading its
      row's cells. */
  method GetValveAlerts(loaded: LoadedTable<AlertRow>, id: string) returns (r: Result<ValveAlerts, HttpError>)
    ensures r == ValveAlertsRoute(loaded, id)
  {
    if loaded.Err? {
      return Err(HttpError(500, ValveAlertsPrefix + loaded.error));
    }
    var t := loaded.value;
    if t.rows == [] {
      return Ok(ValveAlerts(id, [], 0, None, None));
    }
    if "VALVULA" !in t.columns {
      return Err(HttpError(500, ValveAlertsPrefix + KeyErrorMessage("VALVULA")));
    }
    var vr := RowsOfValve(t.rows, id);
    if vr == [] {
      return Ok(ValveAlerts(id, [], 0, Some(NoAlertsMessage(id)), None));
    }
    var list: seq<ValveAlert> := [];
    var i := 0;
    while i < |vr|
      invariant 0 <= i <= |vr|
      invariant |list| == i
      invariant forall k :: 0 <= k < i ==> list[k] == ValveAlertOf(vr[k])
      invariant i > 0 ==> FirstMissing(t.columns, ValveAlertColumns).None?
    {
      var missing := FirstMissing(t.columns, ValveAlertColumns);
      if missing.Some? {
        return Err(HttpError(500, ValveAlertsPrefix + KeyErrorMessage(missing.value)));
      }
      list := list + [ValveAlertOf(vr[i])];
      i := i + 1;
    }
    assert list == seq(|vr|, k requires 0 <= k < |vr| => ValveAlertOf(vr[k]));
    r := Ok(ValveAlerts(id, list, |list|, None, Some(vr[0].nivel)));
  }

  /** A table that loads answers exactly when it is empty, or has a `VALVULA` column and
      either no row of the valve or the cell columns too; otherwise the 500 names the first
      column missing. An answer has one entry per row of the valve, in order; `total` is
      their number; the message appears exactly when there are alerts but none for the
      valve, and `nivel_mas_alto` is the level of the first row of the valve. */
  lemma ValveAlertsShape(loaded: LoadedTable<AlertRow>, id: string)
    requires loaded.Ok?
    ensures var r := ValveAlertsRoute(loaded, id);
      var t := loaded.value;
      var vr := RowsOfValve(t.rows, id);
      (r.Ok? <==> t.rows == [] || ("VALVULA" in t.columns && (vr == [] || FirstMissing(t.columns, ValveAlertColumns).None?)))
      && (t.rows != [] && "VALVULA" !in t.columns ==>
            r == Err(HttpError(500, ValveAlertsPrefix + KeyErrorMessage("VALVULA"))))
      && (t.rows != [] && "VALVULA" in t.columns && vr != [] && FirstMissing(t.columns, ValveAlertColumns).Some? ==>
            r == Err(HttpError(500, ValveAlertsPrefix + KeyErrorMessage(FirstMissing(t.columns, ValveAlertColumns).value))))
      && (r.Ok? ==>
            r.value.valvula == id && r.value.total == |r.value.alertas| == |vr|
            && (forall k :: 0 <= k < |vr| ==> r.value.alertas[k] == ValveAlertOf(vr[k]))
            && (r.value.mensaje.Some? <==> t.rows != [] && vr == [])
            && (r.value.nivelMasAlto.Some? <==> vr != [])
            && (vr != [] ==> r.value.nivelMasAlto == Some(vr[0].nivel)))
  {
    if loaded.value.rows == [] {
      assert RowsOfValve(loaded.value.rows, id) == [];
    }
  }

  /** `nivel_mas_alto` is the first level, not the highest: a low alert listed before a
      critical one is reported as the valve's level. */
  lemma HighestIsFirst()
    ensures var rows := [AlertRow("V1", "BAJO", "m", None, None), AlertRow("V1", "CRITICO", "m", None, None)];
      var r := ValveAlertsRoute(Ok(Table(AlertsTableColumns, rows)), "V1");
      r.Ok? && r.value.nivelMasAlto == Some("BAJO")
  {
    var rows := [AlertRow("V1", "BAJO", "m", None, None), AlertRow("V1", "CRITICO", "m", None, None)];
    assert RowsOfValve(rows, "V1")[0] == rows[0];
    assert FirstMissing(AlertsTableColumns, ValveAlertColumns) == None;
  }

  /** The columns of the alerts table the routes read. */
  const AlertsTableColumns: seq<string> := ["VALVULA", "NIVEL", "MENSAJES", "INDICE_PERDIDAS_%", "ENTRADA_PROMEDIO"]

  // ---------------------------------------------------------------- critical

  /** The three spellings of a critical level, after upper-casing. */
  predicate IsCritical(r: AlertRow) {
    var u := PyUpper(r.nivel);
    u == "CRITICO" || u == "CRÍTICO" || u == "CRITICAL"
  }

  datatype CriticalAlert = CriticalAlert(valvula: string, mensajes: string, indicePerdidas: real)

  /** The critical answer; `requires_immediate_action` is absent when the table is empty. */
  datatype CriticalAlerts = CriticalAlerts(alertas: seq<CriticalAlert>, total: nat, requiresImmediateAction: Option<bool>)

  function CriticalAlertOf(r: AlertRow): CriticalAlert {
    CriticalAlert(r.valvula, r.mensajes, AbsOrZero(r.indice))
  }

  function CriticalRows(rows: seq<AlertRow>): seq<AlertRow> {
    Filter(rows, (r: AlertRow) => IsCritical(r))
  }

  const CriticalPrefix := "Error al obtener alertas críticas: "

  /** The columns each critical entry reads with `row[...]`. */
  const CriticalAlertColumns: seq<string> := ["VALVULA", "MENSAJES"]

  function CriticalOutcome(loaded: LoadedTable<AlertRow>): Result<CriticalAlerts, Raised> {
    if loaded.Err? then LoadFailure(loaded.error)
    else
      var t := loaded.value;
      if t.rows == [] then Ok(CriticalAlerts([], 0, None))
      else if "NIVEL" !in t.columns then Err(OtherRaised(KeyErrorMessage("NIVEL")))
      else
        var cr := CriticalRows(t.rows);
        if cr != [] && FirstMissing(t.columns, CriticalAlertColumns).Some? then
          Err(OtherRaised(KeyErrorMessage(FirstMissing(t.columns, CriticalAlertColumns).value)))
        else
          Ok(CriticalAlerts(seq(|cr|, k requires 0 <= k < |cr| => CriticalAlertOf(cr[k])), |cr|, Some(|cr| > 0)))
  }

  /** `get_critical_alerts`, as a function. */
  function CriticalRoute(loaded: LoadedTable<AlertRow>): Result<CriticalAlerts, HttpError> {
    Handle(CriticalPrefix, false, CriticalOutcome(loaded))
  }

  /** `get_critical_alerts`: one entry per critical row, appended in order, each reading its
      row's cells. */
  method GetCriticalAlerts(loaded: LoadedTable<AlertRow>) returns (r: Result<CriticalAlerts, HttpError>)
    ensures r == CriticalRoute(loaded)
  {
    if loaded.Err? {
      return Err(HttpError(500, CriticalPrefix + loaded.error));
    }
    var t := loaded.value;
    if t.rows == [] {
      return Ok(CriticalAlerts([], 0, None));
    }
    if "NIVEL" !in t.columns {
      return Err(HttpError(500, CriticalPrefix + KeyErrorMessage("NIVEL")));
    }
    var cr := CriticalRows(t.rows);
    var list: seq<CriticalAlert> := [];
    var i := 0;
    while i < |cr|
      invariant 0 <= i <= |cr|
      invariant |list| == i
      invariant forall k :: 0 <= k < i ==> list[k] == CriticalAlertOf(cr[k])
      invariant i > 0 ==> FirstMissing(t.columns, CriticalAlertColumns).None?
    {
      var missing := FirstMissing(t.columns, CriticalAlertColumns);
      if missing.Some? {
        assert CriticalOutcome(loaded) == Err(OtherRaised(KeyErrorMessage(missing.value)));
        return Err(HttpError(500, CriticalPrefix + KeyErrorMessage(missing.value)));
      }
      list := list + [CriticalAlertOf(cr[i])];
      i := i + 1;
    }
    assert list == seq(|cr|, k requires 0 <= k < |cr| => CriticalAlertOf(cr[k]));
    assert CriticalOutcome(loaded) == Ok(CriticalAlerts(list, |list|, Some(|list| > 0)));
    r := Ok(CriticalAlerts(list, |list|, Some(|list| > 0)));
  }

  /** Some row of the table is critical. */
  predicate AnyCritical(rows: seq<AlertRow>) {
    exists k :: 0 <= k < |rows| && IsCritical(rows[k])
  }

  /** Over a table with rows: without a `NIVEL` column the answer is a 500 naming it; with
      critical rows and a missing cell column, a 500 naming the first; otherwise the total is
      the number of critical rows and immediate action is asked for exactly when some row is
      critical. */
  lemma ImmediateActionIffCritical(t: Table<AlertRow>)
    requires t.rows != []
    ensures var r := CriticalRoute(Ok(t));
      var missing := FirstMissing(t.columns, CriticalAlertColumns);
      ("NIVEL" !in t.columns ==> r == Err(HttpError(500, CriticalPrefix + KeyErrorMessage("NIVEL"))))
      && ("NIVEL" in t.columns && AnyCritical(t.rows) && missing.Some? ==>
            r == Err(HttpError(500, CriticalPrefix + KeyErrorMessage(missing.value))))
      && (r.Ok? <==> "NIVEL" in t.columns && (!AnyCritical(t.rows) || missing.None?))
      && (r.Ok? ==>
            r.value.total == |CriticalRows(t.rows)|
            && (r.value.requiresImmediateAction == Some(true) <==> AnyCritical(t.rows)))
  {
    var rows := t.rows;
    var cr := CriticalRows(rows);
    if AnyCritical(rows) {
      var k :| 0 <= k < |rows| && IsCritical(rows[k]);
      assert rows[k] in cr;
    }
    if cr != [] {
      assert cr[0] in rows;
      var k :| 0 <= k < |rows| && rows[k] == cr[0];
      assert IsCritical(rows[k]);
    }
  }

  /** The critical list holds the rows the stats count as critical plus those spelled
      "CRITICAL", which the stats do not count. */
  lemma {:induction false} CriticalCoversStats(rows: seq<AlertRow>)
    ensures |CriticalRows(rows)| == Stats(rows).criticas + CountLevel(rows, "CRITICAL")
  {
    if rows != [] {
      CriticalCoversStats(rows[1..]);
    }
  }
}
