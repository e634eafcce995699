/** The table of valves with the highest losses
    (frontend/src/components/ui/TopValvesTable.jsx): each server record becomes a ranked row
    with a status and a trend, and the loss index is drawn as a coloured bar. */
module TopValvesTable {

  /** A record of `/api/dashboard/top-valves`. */
  datatype TopValve = TopValve(
    valvula: string, indicePerdidas: real, entradaPromedio: real, salidaPromedio: real,
    perdidasPromedio: real, numPeriodos: int)

  datatype Status = Critical | Warning | Normal
  datatype Trend = Up | Down | Neutral

  /** "critical" above 20, "warning" above 12, "normal" otherwise. */
  function StatusOf(indice: real): (s: Status)
    ensures s == Critical <==> indice > 20.0
    ensures s == Warning <==> 12.0 < indice <= 20.0
    ensures s == Normal <==> indice <= 12.0
  {
    if indice > 20.0 then Critical else if indice > 12.0 then Warning else Normal
  }

  function Severity(s: Status): nat {
    match s
    case Normal => 0
    case Warning => 1
    case Critical => 2
  }

  /** A higher loss index never gets a milder status. */
  lemma StatusMonotone(a: real, b: real)
    requires a <= b
    ensures Severity(StatusOf(a)) <= Severity(StatusOf(b))
  {
  }

  /** "up" when the mean loss exceeds 1000 in magnitude, otherwise "neutral". */
  function TrendOf(perdidas: real): (t: Trend)
    ensures t == Up <==> perdidas > 1000.0 || perdidas < -1000.0
    ensures t != Down
  {
    if (if perdidas < 0.0 then -perdidas else perdidas) > 1000.0 then Up else Neutral
  }

  /** A row: its rank, id, heading, the loss index, status and trend. */
  datatype ValveRow = ValveRow(rank: nat, id: string, name: string, lossIndex: real,
                               entrada: real, salida: real, perdidas: real, periodos: int,
                               status: Status, trend: Trend)

  function RowOf(v: TopValve, rank: nat): ValveRow {
    ValveRow(rank, v.valvula, "Válvula " + v.valvula, v.indicePerdidas, v.entradaPromedio,
             v.salidaPromedio, v.perdidasPromedio, v.numPeriodos, StatusOf(v.indicePerdidas),
             TrendOf(v.perdidasPromedio))
  }

  /** `displayValves` with the index of `map`: one row per record, in order, ranked from 1;
      no data gives no rows (there is no built-in list). */
  function Rows(data: seq<TopValve>): (r: seq<ValveRow>)
    ensures |r| == |data|
    ensures forall i :: 0 <= i < |data| ==>
      r[i].rank == i + 1 && r[i].id == data[i].valvula && r[i].name == "Válvula " + data[i].valvula
      && r[i].lossIndex == data[i].indicePerdidas && r[i].entrada == data[i].entradaPromedio
      && r[i].salida == data[i].salidaPromedio && r[i].perdidas == data[i].perdidasPromedio
      && r[i].periodos == data[i].numPeriodos
      && r[i].status == StatusOf(data[i].indicePerdidas) && r[i].trend == TrendOf(data[i].perdidasPromedio)
  {
    seq(|data|, i requires 0 <= i < |data| => RowOf(data[i], i + 1))
  }

  /** The bar's colour, with its own cut-offs: above 12 red, above 10 amber, else green. */
  function BarColor(lossIndex: real): (c: string)
    ensures c == "bg-error" <==> lossIndex > 12.0
    ensures c == "bg-warning" <==> 10.0 < lossIndex <= 12.0
    ensures c == "bg-success" <==> lossIndex <= 10.0
  {
    if lossIndex > 12.0 then "bg-error" else if lossIndex > 10.0 then "bg-warning" else "bg-success"
  }

  /** The bar and the status badge disagree between 10 and 12: an amber bar on a "normal"
      row. A "critical" or "warning" row always has a red bar. */
  lemma BarAndStatus(lossIndex: real)
    ensures StatusOf(lossIndex) != Normal ==> BarColor(lossIndex) == "bg-error"
    ensures 10.0 < lossIndex <= 12.0 ==> StatusOf(lossIndex) == Normal && BarColor(lossIndex) == "bg-warning"
  {
  }

  /** `Math.min(lossIndex * 5, 100)`, the bar width in percent. */
  function BarWidth(lossIndex: real): (w: real)
    ensures w <= 100.0
    ensures w == 100.0 <==> lossIndex >= 20.0
    ensures lossIndex < 20.0 ==> w == lossIndex * 5.0
  {
    if lossIndex * 5.0 < 100.0 then lossIndex * 5.0 else 100.0
  }

  /** `getStatusColor` and `getStatusLabel` of a row's status. */
  function StatusBadge(s: Status): (r: (string, string))
    ensures s == Normal <==> r.0 == "bg-success/10 text-success"
  {
    match s
    case Critical => ("bg-error/10 text-error", "Crítico")
    case Warning => ("bg-warning/10 text-warning", "Advertencia")
    case Normal => ("bg-success/10 text-success", "Normal")
  }
}
