/** The alert card (src/components/ui/AlertCard.jsx): severity colours, status information,
    heading, the metric rows shown, and the action buttons, which offer the same transitions
    as the alerts table. */
module AlertCard {
  import opened Wrappers
  import opened Text
  import opened Seqs
  import opened AlertsPage
  import AlertsTable
  import AlertsService

  /** `getSeverityColor`: an unknown severity gets the gray default. */
  function SeverityColor(severity: string): (r: string)
    ensures severity !in {"critica", "alta", "media", "baja"} <==>
      r == "bg-gray-100 border-gray-500 text-gray-700"
  {
    match severity
    case "critica" => "bg-error/10 border-error text-error"
    case "alta" => "bg-warning/10 border-warning text-warning"
    case "media" => "bg-yellow-100 border-yellow-500 text-yellow-700"
    case "baja" => "bg-success/10 border-success text-success"
    case _ => "bg-gray-100 border-gray-500 text-gray-700"
  }

  /** `getStatusInfo`: an unknown state is shown as "Desconocido". */
  function StatusInfo(status: string): (r: AlertsTable.StatusStyle)
    ensures status !in AlertsTable.KnownStates <==> r.caption == "Desconocido"
  {
    match status
    case "pendiente" => AlertsTable.StatusStyle("text-error", "bg-error/10", "Pendiente")
    case "revisada" => AlertsTable.StatusStyle("text-warning", "bg-warning/10", "Revisada")
    case "resuelta" => AlertsTable.StatusStyle("text-success", "bg-success/10", "Resuelta")
    case _ => AlertsTable.StatusStyle("text-textSecondary", "bg-gray-100", "Desconocido")
  }

  /** The card shows a known state exactly as the table's badge does, with the caption
      `getStatusLabel` gives; where the table throws, the card falls back. */
  lemma StatusInfoAgreesWithTable(status: string)
    ensures AlertsTable.StatusBadge(status).Ok? ==> AlertsTable.StatusBadge(status).value == StatusInfo(status)
    ensures status in AlertsTable.KnownStates ==> StatusInfo(status).caption == AlertsService.StatusLabel(status)
  {
  }

  /** The heading "Válvula <id>". */
  function Heading(valvula: string): (h: string)
    ensures IsPrefix("Válvula ", h) && h[|"Válvula "|..] == valvula
  {
    "Válvula " + valvula
  }

  /** A metric row: caption, value and unit. */
  datatype MetricRow = MetricRow(caption: string, value: real, unit: string)

  function RowIf(v: Option<real>, caption: string, unit: string): (r: seq<MetricRow>)
    ensures |r| == (if TruthyNumber(v) then 1 else 0)
    ensures TruthyNumber(v) ==> r[0] == MetricRow(caption, v.value, unit)
  {
    if TruthyNumber(v) then [MetricRow(caption, v.value, unit)] else []
  }

  /** How many of the four metrics are truthy. */
  function TruthyCount(m: Metrics): nat {
    (if TruthyNumber(m.indicePerdidas) then 1 else 0) + (if TruthyNumber(m.desviacion) then 1 else 0)
    + (if TruthyNumber(m.volumenPerdido) then 1 else 0) + (if TruthyNumber(m.umbral) then 1 else 0)
  }

  /** The captions of the four metrics, in the order the card lists them. */
  const Captions: seq<string> := ["Índice de pérdidas", "Desviación", "Volumen perdido", "Umbral excedido"]

  /** The unit printed after each metric, in the same order. */
  const Units: seq<string> := ["%", "%", " m³", "%"]

  /** The k-th metric of the card's order. */
  function Slot(m: Metrics, k: nat): Option<real>
    requires k < 4
  {
    if k == 0 then m.indicePerdidas else if k == 1 then m.desviacion
    else if k == 2 then m.volumenPerdido else m.umbral
  }

  /** The position of a caption in the card's order (4 for any other text). */
  function Rank(caption: string): (k: nat)
    ensures k <= 4 && (k < 4 ==> Captions[k] == caption)
  {
    if caption == Captions[0] then 0 else if caption == Captions[1] then 1
    else if caption == Captions[2] then 2 else if caption == Captions[3] then 3 else 4
  }

  /** The metric block: nothing without metrics; otherwise one row per truthy metric, in
      the order loss index, deviation, volume lost, threshold, each with its own caption,
      value and unit. */
  function MetricRows(metricas: Option<Metrics>): (rows: seq<MetricRow>)
    ensures metricas.None? ==> rows == []
    ensures forall i :: 0 <= i < |rows| ==> rows[i].value != 0.0
    ensures metricas.Some? ==> |rows| == TruthyCount(metricas.value)
    ensures forall i :: 0 <= i < |rows| ==> (Rank(rows[i].caption) < 4
      && Slot(metricas.value, Rank(rows[i].caption)) == Some(rows[i].value)
      && rows[i].unit == Units[Rank(rows[i].caption)])
    ensures forall i, j :: 0 <= i < j < |rows| ==> Rank(rows[i].caption) < Rank(rows[j].caption)
  {
    match metricas
    case None => []
    case Some(m) =>
      RowIf(m.indicePerdidas, "Índice de pérdidas", "%") + RowIf(m.desviacion, "Desviación", "%")
      + RowIf(m.volumenPerdido, "Volumen perdido", " m³") + RowIf(m.umbral, "Umbral excedido", "%")
  }

  /** Each of the four metrics has a row exactly when it is truthy. */
  lemma MetricShownIffTruthy(m: Metrics, k: nat)
    requires k < 4
    ensures (exists i :: 0 <= i < |MetricRows(Some(m))| && MetricRows(Some(m))[i].caption == Captions[k])
      <==> TruthyNumber(Slot(m, k))
  {
    var rows := MetricRows(Some(m));
    var r0 := RowIf(m.indicePerdidas, Captions[0], Units[0]);
    var r1 := RowIf(m.desviacion, Captions[1], Units[1]);
    var r2 := RowIf(m.volumenPerdido, Captions[2], Units[2]);
    var r3 := RowIf(m.umbral, Captions[3], Units[3]);
    assert rows == r0 + r1 + r2 + r3;
    if TruthyNumber(Slot(m, k)) {
      var i := |r0| * (if k > 0 then 1 else 0) + |r1| * (if k > 1 then 1 else 0) + |r2| * (if k > 2 then 1 else 0);
      assert rows[i].caption == Captions[k];
    }
  }

  /** A metric equal to 0 gets no row, even when present. */
  lemma ZeroMetricHidden(m: Metrics)
    requires m.indicePerdidas == Some(0.0)
    ensures forall i :: 0 <= i < |MetricRows(Some(m))| ==> MetricRows(Some(m))[i].caption != "Índice de pérdidas"
  {
    var rows := MetricRows(Some(m));
    var rest := RowIf(m.desviacion, "Desviación", "%")
      + RowIf(m.volumenPerdido, "Volumen perdido", " m³") + RowIf(m.umbral, "Umbral excedido", "%");
    assert rows == rest;
    forall i | 0 <= i < |rest| ensures rest[i].caption != "Índice de pérdidas" {
    }
  }

  /** The buttons of the card: the table's transitions with the caption "Marcar Revisada"
      for the review step. */
  function CardActions(estado: string): (a: seq<AlertsTable.Action>)
    ensures AlertsTable.Targets(a) == AlertsTable.Targets(AlertsTable.RowActions(estado))
  {
    if estado == "resuelta" then []
    else
      var review := if estado == "pendiente" then [AlertsTable.Action("revisada", "Marcar Revisada")] else [];
      review + [AlertsTable.Action("resuelta", "Resolver")]
  }
}
