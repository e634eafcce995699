/** The alerts table (frontend/src/components/ui/AlertsTable.jsx): severity and status
    badges, the action buttons each row offers, and the rows and footer rendered for a list
    of alerts. The buttons are the only place the alert lifecycle is written down:
    pendiente -> {revisada, resuelta}, revisada -> {resuelta}, resuelta -> {}. */
module AlertsTable {
  import opened Wrappers
  import opened AlertsPage

  const KnownStates: set<string> := {"pendiente", "revisada", "resuelta"}

  /** A button: the state it requests and its caption. */
  datatype Action = Action(target: string, caption: string)

  function Targets(acts: seq<Action>): (ts: seq<string>)
    ensures |ts| == |acts| && forall i :: 0 <= i < |acts| ==> ts[i] == acts[i].target
  {
    if acts == [] then [] else [acts[0].target] + Targets(acts[1..])
  }

  /** The buttons of a row: none for a resolved alert; otherwise "Resolver", preceded by
      "Revisar" when the alert is pending. */
  function RowActions(estado: string): (a: seq<Action>)
    ensures a == [] <==> estado == "resuelta"
    ensures |a| == 2 <==> estado == "pendiente"
    ensures forall i :: 0 <= i < |a| ==> a[i].target != "pendiente"
    ensures a != [] ==> a[|a| - 1] == Action("resuelta", "Resolver")
  {
    if estado == "resuelta" then []
    else
      var review := if estado == "pendiente" then [Action("revisada", "Revisar")] else [];
      review + [Action("resuelta", "Resolver")]
  }

  /** Position of a known state in the lifecycle. */
  function Rank(estado: string): nat {
    if estado == "pendiente" then 0 else if estado == "revisada" then 1 else 2
  }

  /** The transitions the lifecycle allows between known states: strictly forward. */
  predicate Forward(from: string, to: string) {
    from in KnownStates && to in KnownStates && Rank(from) < Rank(to)
  }

  /** For a known state, the buttons offer exactly the forward transitions, each once. */
  lemma RowActionsAreForward(estado: string, to: string)
    requires estado in KnownStates
    ensures to in Targets(RowActions(estado)) <==> Forward(estado, to)
  {
    var ts := Targets(RowActions(estado));
    if estado == "pendiente" {
      assert ts == ["revisada", "resuelta"];
    } else if estado == "revisada" {
      assert ts == ["resuelta"];
    }
  }

  /** Any run of offered transitions from a known state reaches "resuelta" within two
      steps and then stops. */
  lemma LifecycleTerminates(estado: string, i: nat)
    requires estado in KnownStates && i < |RowActions(estado)|
    ensures Rank(RowActions(estado)[i].target) > Rank(estado)
    ensures RowActions(RowActions(estado)[i].target) == [] || RowActions(estado)[i].target == "revisada"
  {
  }

  /** `getSeverityBadge`'s style: an unknown severity renders the text "undefined". */
  function SeverityBadgeStyle(severity: string): (r: string)
    ensures severity !in {"critica", "alta", "media", "baja"} <==> r == "undefined"
  {
    if severity == "critica" then "bg-error/10 text-error border-error"
    else if severity == "alta" then "bg-warning/10 text-warning border-warning"
    else if severity == "media" then "bg-yellow-100 text-yellow-700 border-yellow-500"
    else if severity == "baja" then "bg-success/10 text-success border-success"
    else "undefined"
  }

  /** The colour, background and caption of a status badge. */
  datatype StatusStyle = StatusStyle(color: string, bg: string, caption: string)

  /** Reading `.icon` of the missing style of an unknown state throws. */
  datatype RenderError = UnknownStatus(estado: string)

  /** `getStatusBadge`: defined only for the three known states. */
  function StatusBadge(status: string): (r: Result<StatusStyle, RenderError>)
    ensures r.Ok? <==> status in KnownStates
    ensures r.Err? ==> r.error == UnknownStatus(status)
  {
    if status == "pendiente" then Ok(StatusStyle("text-error", "bg-error/10", "Pendiente"))
    else if status == "revisada" then Ok(StatusStyle("text-warning", "bg-warning/10", "Revisada"))
    else if status == "resuelta" then Ok(StatusStyle("text-success", "bg-success/10", "Resuelta"))
    else Err(UnknownStatus(status))
  }

  /** Known states have distinct badges. */
  lemma StatusBadgesDistinct(a: string, b: string)
    requires a in KnownStates && b in KnownStates && a != b
    ensures StatusBadge(a).value != StatusBadge(b).value
  {
  }

  /** A rendered row: the alert shown, its badges and its buttons. */
  datatype Row = Row(alert: Alert, severityStyle: string, status: StatusStyle, actions: seq<Action>)

  function RenderRow(a: Alert): (r: Result<Row, RenderError>)
    ensures r.Ok? <==> a.estado in KnownStates
    ensures r.Ok? ==> r.value.alert == a && r.value.actions == RowActions(a.estado)
  {
    match StatusBadge(a.estado)
    case Err(e) => Err(e)
    case Ok(st) => Ok(Row(a, SeverityBadgeStyle(a.severidad), st, RowActions(a.estado)))
  }

  /** `alerts.map(...)`: the rows in input order; the first alert with an unknown state
      makes the whole render throw. */
  function RenderRows(alerts: seq<Alert>): (r: Result<seq<Row>, RenderError>)
    ensures r.Ok? <==> forall i :: 0 <= i < |alerts| ==> alerts[i].estado in KnownStates
    ensures r.Ok? ==> |r.value| == |alerts|
    ensures r.Ok? ==> forall i :: 0 <= i < |alerts| ==> r.value[i].alert == alerts[i]
  {
    if alerts == [] then Ok([])
    else match RenderRow(alerts[0])
      case Err(e) => Err(e)
      case Ok(row) =>
        match RenderRows(alerts[1..])
        case Err(e) => Err(e)
        case Ok(rest) => Ok([row] + rest)
  }

  const NoResultsMessage := "No se encontraron alertas con los filtros seleccionados"

  /** The table body and the footer count ("Mostrando n alertas"). */
  datatype TableView = NoResults(message: string) | Rows(rows: seq<Row>, footerCount: nat)

  function RenderTable(alerts: seq<Alert>): (r: Result<TableView, RenderError>)
    ensures alerts == [] ==> r == Ok(NoResults(NoResultsMessage))
    ensures r.Ok? && r.value.Rows? ==> r.value.footerCount == |alerts| == |r.value.rows| > 0
    ensures r.Ok? && r.value.Rows? ==>
      forall i :: 0 <= i < |alerts| ==> r.value.rows[i].alert == alerts[i]
    ensures alerts != [] ==>
      (r.Ok? <==> forall i :: 0 <= i < |alerts| ==> alerts[i].estado in KnownStates)
  {
    if alerts == [] then Ok(NoResults(NoResultsMessage))
    else match RenderRows(alerts)
      case Err(e) => Err(e)
      case Ok(rows) => Ok(Rows(rows, |alerts|))
  }
}
