/** The alerts page of the frontend (frontend/src/pages/Alerts.jsx): the list shown (fetched
    alerts or the built-in ones), the four-criterion filter, the tallies, and the two state
    updates (status change and filter change). */
module AlertsPage {
  import opened Wrappers
  import opened Text
  import opened Seqs

  /** The optional metrics of an alert; an absent metric is `undefined`. */
  datatype Metrics = Metrics(
    indicePerdidas: Option<real>,
    desviacion: Option<real>,
    volumenPerdido: Option<real>,
    umbral: Option<real>)

  datatype Alert = Alert(
    id: int,
    fecha: string,
    valvula: string,
    ubicacion: string,
    tipo: string,
    severidad: string,
    descripcion: string,
    estado: string,
    metricas: Option<Metrics>)

  function M(ip: Option<real>, d: Option<real>, v: Option<real>, u: Option<real>): Metrics {
    Metrics(ip, d, v, u)
  }

  /** The eight built-in alerts shown while no alert has been fetched. */
  const MockAlerts: seq<Alert> := [
    Alert(1, "2025-08-15 14:30", "V-402", "Sector Norte", "Desbalance", "critica",
      "Índice de pérdidas superó el umbral crítico del 12%. Se detectó desbalance significativo entre volumen de entrada y salida.",
      "pendiente", Some(M(Some(14.2), None, Some(1850.0), Some(12.0)))),
    Alert(2, "2025-08-14 09:15", "V-318", "Sector Centro", "Anomalía", "alta",
      "Detección de patrón anómalo en consumo. Desviación del 25% respecto al comportamiento esperado.",
      "revisada", Some(M(None, Some(25.0), Some(980.0), None))),
    Alert(3, "2025-08-14 07:45", "V-125", "Sector Sur", "Desbalance", "alta",
      "Pérdidas superiores al promedio histórico. Índice de pérdidas en 11.8%.",
      "resuelta", Some(M(Some(11.8), None, Some(1420.0), None))),
    Alert(4, "2025-08-13 16:20", "V-567", "Sector Este", "Anomalía", "media",
      "Comportamiento atípico detectado en mediciones nocturnas. Variación inesperada del 18%.",
      "pendiente", Some(M(None, Some(18.0), Some(650.0), None))),
    Alert(5, "2025-08-13 11:30", "V-089", "Sector Oeste", "Desbalance", "media",
      "Índice de pérdidas ligeramente por encima del promedio (9.5%). Requiere seguimiento.",
      "revisada", Some(M(Some(9.5), None, Some(780.0), None))),
    Alert(6, "2025-08-12 19:00", "V-402", "Sector Norte", "Anomalía", "baja",
      "Pequeña desviación detectada en horario valle. Posible ajuste de demanda.",
      "resuelta", Some(M(None, Some(8.0), Some(320.0), None))),
    Alert(7, "2025-08-12 14:15", "V-318", "Sector Centro", "Desbalance", "critica",
      "Pérdidas críticas detectadas. Índice del 15.3%. Requiere intervención inmediata.",
      "pendiente", Some(M(Some(15.3), None, Some(2100.0), Some(12.0)))),
    Alert(8, "2025-08-11 10:45", "V-125", "Sector Sur", "Anomalía", "alta",
      "Patrón de consumo fuera de lo normal. Desviación del 22% respecto a predicción.",
      "revisada", Some(M(None, Some(22.0), Some(1150.0), None)))
  ]

  /** `displayAlerts`: the fetched alerts when there are any, otherwise the built-in ones. */
  function DisplayAlerts(alerts: seq<Alert>): (r: seq<Alert>)
    ensures |alerts| > 0 ==> r == alerts
    ensures alerts == [] ==> r == MockAlerts
    ensures |r| > 0
  {
    if |alerts| > 0 then alerts else MockAlerts
  }

  // ---------------------------------------------------------------- filtering

  datatype Filters = Filters(estado: string, severidad: string, tipo: string, valvula: string)

  /** The filters the page starts with: every criterion at its "all" sentinel. */
  const InitialFilters := Filters("todos", "todas", "todos", "")

  /** The filter predicate: every criterion that is not at its sentinel must match; the
      valve criterion applies only when non-empty and compares lower-cased substrings. */
  predicate Matches(f: Filters, a: Alert) {
    (f.estado == "todos" || a.estado == f.estado)
    && (f.severidad == "todas" || a.severidad == f.severidad)
    && (f.tipo == "todos" || a.tipo == f.tipo)
    && (f.valvula == "" || Includes(JsLower(a.valvula), JsLower(f.valvula)))
  }

  /** `filteredAlerts`. */
  function FilterAlerts(display: seq<Alert>, f: Filters): (r: seq<Alert>)
    ensures forall i :: 0 <= i < |r| ==> Matches(f, r[i]) && r[i] in display
    ensures forall i :: 0 <= i < |display| && Matches(f, display[i]) ==> display[i] in r
  {
    Filter(display, a => Matches(f, a))
  }

  /** The filtered list keeps the displayed order. */
  lemma FilteredIsSubsequence(display: seq<Alert>, f: Filters)
    ensures IsSubseq(FilterAlerts(display, f), display)
  {
    FilterIsSubseq(display, a => Matches(f, a));
  }

  /** With the initial filters every displayed alert is shown. */
  lemma InitialFiltersKeepAll(display: seq<Alert>)
    ensures FilterAlerts(display, InitialFilters) == display
  {
    FilterAll(display, a => Matches(InitialFilters, a));
  }

  /** A valve filter that is any substring of the lower-cased valve keeps the alert. */
  lemma ValveFilterSubstring(f: Filters, a: Alert, i: nat)
    requires f.estado == "todos" && f.severidad == "todas" && f.tipo == "todos"
    requires OccursAt(JsLower(a.valvula), JsLower(f.valvula), i)
    ensures Matches(f, a)
  {
    IncludesAt(JsLower(a.valvula), JsLower(f.valvula));
  }

  // ---------------------------------------------------------------- tallies

  predicate IsPendiente(a: Alert) { a.estado == "pendiente" }
  predicate IsRevisada(a: Alert) { a.estado == "revisada" }
  predicate IsResuelta(a: Alert) { a.estado == "resuelta" }
  predicate IsCritica(a: Alert) { a.severidad == "critica" }
  predicate IsAlta(a: Alert) { a.severidad == "alta" }
  predicate IsMedia(a: Alert) { a.severidad == "media" }
  predicate IsBaja(a: Alert) { a.severidad == "baja" }

  predicate KnownEstado(a: Alert) { IsPendiente(a) || IsRevisada(a) || IsResuelta(a) }
  predicate KnownSeveridad(a: Alert) { IsCritica(a) || IsAlta(a) || IsMedia(a) || IsBaja(a) }

  datatype Stats = Stats(
    pendientes: nat, revisadas: nat, resueltas: nat, total: nat,
    criticas: nat, altas: nat, medias: nat, bajas: nat)

  /** `stats`, computed over the displayed alerts and not the filtered ones. */
  function ComputeStats(display: seq<Alert>): (s: Stats)
    ensures s.total == |display|
  {
    Stats(
      Count(display, IsPendiente), Count(display, IsRevisada), Count(display, IsResuelta),
      |display|,
      Count(display, IsCritica), Count(display, IsAlta), Count(display, IsMedia),
      Count(display, IsBaja))
  }

  /** The three state counts add up to at most the total, exactly the total when every
      state is one of the three known ones. */
  lemma {:induction false} StateCountsSum(display: seq<Alert>)
    ensures var s := ComputeStats(display);
      s.pendientes + s.revisadas + s.resueltas <= s.total
      && ((forall i :: 0 <= i < |display| ==> KnownEstado(display[i]))
          ==> s.pendientes + s.revisadas + s.resueltas == s.total)
  {
    if display != [] {
      StateCountsSum(display[1..]);
      CountCons(display, IsPendiente);
      CountCons(display, IsRevisada);
      CountCons(display, IsResuelta);
    }
  }

  /** The four severity counts add up to at most the total, exactly the total when every
      severity is one of the four known ones. */
  lemma {:induction false} SeverityCountsSum(display: seq<Alert>)
    ensures var s := ComputeStats(display);
      s.criticas + s.altas + s.medias + s.bajas <= s.total
      && ((forall i :: 0 <= i < |display| ==> KnownSeveridad(display[i]))
          ==> s.criticas + s.altas + s.medias + s.bajas == s.total)
  {
    if display != [] {
      SeverityCountsSum(display[1..]);
      CountCons(display, IsCritica);
      CountCons(display, IsAlta);
      CountCons(display, IsMedia);
      CountCons(display, IsBaja);
    }
  }

  // ---------------------------------------------------------------- state updates

  /** `alerts.map(a => a.id === id ? {...a, estado} : a)`. */
  function SetStatus(alerts: seq<Alert>, id: int, estado: string): (r: seq<Alert>)
    ensures |r| == |alerts|
    ensures forall i :: 0 <= i < |alerts| ==>
      r[i] == if alerts[i].id == id then alerts[i].(estado := estado) else alerts[i]
  {
    if alerts == [] then []
    else
      var first := if alerts[0].id == id then alerts[0].(estado := estado) else alerts[0];
      [first] + SetStatus(alerts[1..], id, estado)
  }

  /** After a status change every alert with that id has the new status, and every other
      field and every other alert is unchanged. */
  lemma SetStatusEffect(alerts: seq<Alert>, id: int, estado: string, i: nat)
    requires i < |alerts|
    ensures SetStatus(alerts, id, estado)[i].id == alerts[i].id
    ensures alerts[i].id == id ==> SetStatus(alerts, id, estado)[i].estado == estado
    ensures SetStatus(alerts, id, estado)[i].(estado := alerts[i].estado) == alerts[i]
  {
  }

  /** What the status request ended in: it threw, or it answered with a `success` flag. */
  datatype UpdateOutcome = Threw | Answered(success: bool)

  /** What the alert request ended in: it threw, or it answered with an optional
      `alertas` list. */
  datatype LoadOutcome = LoadFailed | Loaded(alertas: Option<seq<Alert>>)

  const LoadErrorMessage := "Error al cargar las alertas. Por favor, intenta de nuevo."

  class AlertsPageState {
    var alerts: seq<Alert>
    var filters: Filters
    var error: Option<string>

    constructor ()
      ensures alerts == [] && filters == InitialFilters && error == None
    {
      alerts := [];
      filters := InitialFilters;
      error := None;
    }

    /** `loadAlerts`: on an answer the list becomes `alertas`, or empty when it is missing;
        on a failure the list is kept and the error message is set. */
    method LoadAlerts(outcome: LoadOutcome)
      modifies this
      ensures filters == old(filters)
      ensures outcome.Loaded? ==> alerts == outcome.alertas.GetOr([]) && error == None
      ensures outcome.LoadFailed? ==> alerts == old(alerts) && error == Some(LoadErrorMessage)
    {
      error := None;
      match outcome
      case Loaded(a) => alerts := a.GetOr([]);
      case LoadFailed => error := Some(LoadErrorMessage);
    }

    /** `handleUpdateStatus`: only an answer with `success` changes the list, and then only
        the status of the alerts with that id. The map runs over the fetched alerts, so while
        the built-in alerts are displayed the list stays empty. */
    method HandleUpdateStatus(id: int, estado: string, outcome: UpdateOutcome)
      modifies this`alerts
      ensures outcome == Answered(true) ==> alerts == SetStatus(old(alerts), id, estado)
      ensures outcome != Answered(true) ==> alerts == old(alerts)
      ensures old(alerts) == [] ==> alerts == []
    {
      if outcome == Answered(true) {
        alerts := SetStatus(alerts, id, estado);
      }
    }

    /** `handleFilterChange(key, value)`: only the named criterion changes; a key that is
        none of the four adds a property no criterion reads. */
    method HandleFilterChange(key: string, value: string)
      modifies this`filters
      ensures filters == match key
        case "estado" => old(filters).(estado := value)
        case "severidad" => old(filters).(severidad := value)
        case "tipo" => old(filters).(tipo := value)
        case "valvula" => old(filters).(valvula := value)
        case _ => old(filters)
    {
      match key
      case "estado" => filters := filters.(estado := value);
      case "severidad" => filters := filters.(severidad := value);
      case "tipo" => filters := filters.(tipo := value);
      case "valvula" => filters := filters.(valvula := value);
      case _ =>
    }
  }
}
