/** The balances routes (backend/app/api/routes/balances.py): the monthly balances of one
    valve with the demonstration fill for VALVULA_1, the period range and the KPIs; and the
    periods available for a valve. */
module BalancesRoute {
  import opened Wrappers
  import opened Text
  import opened Seqs
  import opened Sorting
  import opened Frames
  import DataLoader

  /** The ES_PRONOSTICO cell: no such column, a NaN cell, or a flag. */
  datatype FlagCell = Absent | NaNFlag | Flag(b: bool)

  /** A row of the virtual balances table. */
  datatype BalanceRow = BalanceRow(
    punto: string, periodo: string, fecha: Option<string>,
    entrada: Option<real>, salida: Option<real>, perdidas: Option<real>, indice: Option<real>,
    esPronostico: FlagCell)

  /** `bool(row.get('ES_PRONOSTICO', False))`: false without the column; NaN is a true
      float. */
  function EsPronostico(c: FlagCell): bool {
    match c
    case Absent => false
    case NaNFlag => true
    case Flag(b) => b
  }

  datatype BalanceData = BalanceData(
    periodo: string, fecha: Option<string>, entrada: Option<real>, salida: Option<real>,
    perdidas: Option<real>, indice: Option<real>, esPronostico: bool)

  datatype BalanceKpis = BalanceKpis(indicePromedio: real, totalPerdidas: real, mesesAnalizados: nat)

  datatype BalanceResponse = BalanceResponse(valvulaId: string, kpis: BalanceKpis, balances: seq<BalanceData>)

  // ---------------------------------------------------------------- the VALVULA_1 fill

  const Valvula1 := "VALVULA_1"
  const DefaultEntrada := 450.0
  const DefaultSalida := 125.0

  /** The demonstration fill: a missing inflow and outflow get the defaults, a missing loss is
      inflow minus outflow, a missing index is loss over inflow as a percentage; present
      values are kept. Over a zero inflow the index is left without a value: pandas gives NaN
      for a zero loss, and an infinite index, which `IndexInfinite` marks, otherwise. */
  function Fill(r: BalanceRow): (f: BalanceRow)
    ensures f.punto == r.punto && f.periodo == r.periodo && f.fecha == r.fecha
    ensures f.esPronostico == r.esPronostico
    ensures f.entrada.Some? && f.salida.Some? && f.perdidas.Some?
    ensures r.entrada.Some? ==> f.entrada == r.entrada
    ensures r.entrada.None? ==> f.entrada == Some(DefaultEntrada)
    ensures r.salida.Some? ==> f.salida == r.salida
    ensures r.salida.None? ==> f.salida == Some(DefaultSalida)
    ensures r.perdidas.Some? ==> f.perdidas == r.perdidas
    ensures r.perdidas.None? ==> f.perdidas.value == f.entrada.value - f.salida.value
    ensures r.indice.Some? ==> f.indice == r.indice
    ensures r.indice.None? && f.entrada.value != 0.0 ==>
      f.indice == Some(f.perdidas.value / f.entrada.value * 100.0)
    ensures r.indice.None? && f.entrada.value == 0.0 ==> f.indice.None?
  {
    var e := r.entrada.GetOr(DefaultEntrada);
    var s := r.salida.GetOr(DefaultSalida);
    var p := r.perdidas.GetOr(e - s);
    var i := if r.indice.Some? then r.indice else if e == 0.0 then None else Some(p / e * 100.0);
    r.(entrada := Some(e), salida := Some(s), perdidas := Some(p), indice := i)
  }

  /** The fill divides a non-zero loss by a zero inflow: pandas computes an index of plus or
      minus infinity, which `pd.notna` accepts and the response then carries. */
  predicate IndexInfinite(r: BalanceRow) {
    var e := r.entrada.GetOr(DefaultEntrada);
    r.indice.None? && e == 0.0 && r.perdidas.GetOr(e - r.salida.GetOr(DefaultSalida)) != 0.0
  }

  /** A missing index is computed unless the inflow is zero; over a zero inflow it is
      infinite exactly when the loss is not zero, and NaN otherwise. */
  lemma FillIndexCases(r: BalanceRow)
    requires r.indice.None?
    ensures Fill(r).indice.None? <==> Fill(r).entrada.value == 0.0
    ensures IndexInfinite(r) <==> Fill(r).entrada.value == 0.0 && Fill(r).perdidas.value != 0.0
    ensures IndexInfinite(r) ==> r.entrada == Some(0.0)
  {
  }

  /** Filling twice fills nothing more. */
  lemma FillIdempotent(r: BalanceRow)
    ensures Fill(Fill(r)) == Fill(r)
  {
  }

  /** A row with nothing measured is shown as 450 in, 125 out, 325 lost, a loss index of
      325/450 of a hundred. */
  lemma FillEmptyRow(r: BalanceRow)
    requires r.entrada.None? && r.salida.None? && r.perdidas.None? && r.indice.None?
    ensures Fill(r).perdidas == Some(325.0)
    ensures Fill(r).indice.Some? && Fill(r).indice.value * 450.0 == 32500.0
  {
  }

  // ---------------------------------------------------------------- selection

  /** `periodo_inicio` / `periodo_fin`: an inclusive bound on the period text, applied only
      when the parameter is a non-empty string. */
  predicate InRange(r: BalanceRow, inicio: Option<string>, fin: Option<string>) {
    (Truthy(inicio) ==> StrLe(inicio.value, r.periodo)) && (Truthy(fin) ==> StrLe(r.periodo, fin.value))
  }

  /** `balances_df[balances_df['PUNTO'] == valvula_id]`. */
  function ValveRows(rows: seq<BalanceRow>, id: string): seq<BalanceRow> {
    Filter(rows, (r: BalanceRow) => r.punto == id)
  }

  /** The rows of the valve, filled when it is VALVULA_1. */
  function Prepared(rows: seq<BalanceRow>, id: string): (ps: seq<BalanceRow>)
    ensures |ps| == |ValveRows(rows, id)|
    ensures forall k :: 0 <= k < |ps| ==>
      ps[k] == if id == Valvula1 then Fill(ValveRows(rows, id)[k]) else ValveRows(rows, id)[k]
  {
    var vr := ValveRows(rows, id);
    if id == Valvula1 then seq(|vr|, k requires 0 <= k < |vr| => Fill(vr[k])) else vr
  }

  /** The rows reported: the valve's prepared rows inside the period range, in order. */
  function Selected(rows: seq<BalanceRow>, id: string, inicio: Option<string>, fin: Option<string>)
    : seq<BalanceRow>
  {
    Filter(Prepared(rows, id), (r: BalanceRow) => InRange(r, inicio, fin))
  }

  // ---------------------------------------------------------------- response

  function DataOf(r: BalanceRow): BalanceData {
    BalanceData(r.periodo, r.fecha, r.entrada, r.salida, r.perdidas, r.indice, EsPronostico(r.esPronostico))
  }

  function Indices(rs: seq<BalanceRow>): (c: seq<Option<real>>)
    ensures |c| == |rs| && forall k :: 0 <= k < |rs| ==> c[k] == rs[k].indice
  {
    seq(|rs|, k requires 0 <= k < |rs| => rs[k].indice)
  }

  function Losses(rs: seq<BalanceRow>): (c: seq<Option<real>>)
    ensures |c| == |rs| && forall k :: 0 <= k < |rs| ==> c[k] == rs[k].perdidas
  {
    seq(|rs|, k requires 0 <= k < |rs| => rs[k].perdidas)
  }

  /** The KPIs: the absolute value of the mean index (0 when there is none), the absolute
      value of the summed losses, and the number of rows. */
  function Kpis(sel: seq<BalanceRow>): (k: BalanceKpis)
    ensures k.indicePromedio >= 0.0 && k.totalPerdidas >= 0.0
    ensures k.mesesAnalizados == |sel|
    ensures MeanSkipNaN(Indices(sel)).None? ==> k.indicePromedio == 0.0
    ensures MeanSkipNaN(Indices(sel)).Some? ==> k.indicePromedio == Abs(MeanSkipNaN(Indices(sel)).value)
    ensures k.totalPerdidas == Abs(SumSkipNaN(Losses(sel)))
  {
    BalanceKpis(AbsOrZero(MeanSkipNaN(Indices(sel))), Abs(SumSkipNaN(Losses(sel))), |sel|)
  }

  const NoBalancesDetail := "No hay datos de balances disponibles"
  const BalancesPrefix := "Error al obtener balances: "

  function ValveNotFoundDetail(id: string): string {
    "Válvula " + id + " no encontrada"
  }

  /** The columns the VALVULA_1 fill indexes with `df[...]`, in the order it fills them. */
  const FillColumns: seq<string> := ["ENTRADA_M3", "SALIDA_M3", "PERDIDAS_M3", "INDICE_PERDIDAS_%"]

  /** The columns the KPIs index, even when the range leaves no row. */
  const KpiColumns: seq<string> := ["INDICE_PERDIDAS_%", "PERDIDAS_M3"]

  /** The columns each balance reads with `row[...]`, in argument order. */
  const RowColumns: seq<string> :=
    ["PERIODO", "FECHA", "ENTRADA_M3", "SALIDA_M3", "PERDIDAS_M3", "INDICE_PERDIDAS_%"]

  /** The columns indexed between the valve's 404 and the first balance, in order: the fill
      for VALVULA_1, `PERIODO` when a bound of the range is given, then the KPIs. */
  function PreparedColumns(id: string, inicio: Option<string>, fin: Option<string>): seq<string> {
    (if id == Valvula1 then FillColumns else [])
    + (if Truthy(inicio) || Truthy(fin) then ["PERIODO"] else [])
    + KpiColumns
  }

  /** The route body, up to what it raises. */
  function BalanceOutcome(loaded: LoadedTable<BalanceRow>, id: string, inicio: Option<string>, fin: Option<string>)
    : Result<BalanceResponse, Raised>
  {
    if loaded.Err? then LoadFailure(loaded.error)
    else
      var t := loaded.value;
      if t.rows == [] then Err(HttpRaised(404, NoBalancesDetail))
      else if "PUNTO" !in t.columns then Err(OtherRaised(KeyErrorMessage("PUNTO")))
      else if ValveRows(t.rows, id) == [] then Err(HttpRaised(404, ValveNotFoundDetail(id)))
      else match FirstMissing(t.columns, PreparedColumns(id, inicio, fin))
        case Some(c) => Err(OtherRaised(KeyErrorMessage(c)))
        case None =>
          var sel := Selected(t.rows, id, inicio, fin);
          if sel != [] && FirstMissing(t.columns, RowColumns).Some? then
            Err(OtherRaised(KeyErrorMessage(FirstMissing(t.columns, RowColumns).value)))
          else Ok(BalanceResponse(id, Kpis(sel), Mapped(sel, DataOf)))
  }

  /** A row of VALVULA_1 inside the range whose filled index is infinite. */
  predicate InfiniteSelected(rows: seq<BalanceRow>, id: string, inicio: Option<string>, fin: Option<string>) {
    id == Valvula1 && exists r :: r in ValveRows(rows, id) && InRange(r, inicio, fin) && IndexInfinite(r)
  }

  /** What the server answers when the response it is handed cannot be written as JSON: an
      infinite number is out of range for the encoder, after the route's own handler. */
  const SerializationFailure := HttpError(500, "Internal Server Error")

  /** `get_balance_by_valve`, as a function, with the encoding of its answer: an answer that
      carries an infinite index fails to encode. */
  function BalanceByValve(loaded: LoadedTable<BalanceRow>, id: string, inicio: Option<string>, fin: Option<string>)
    : Result<BalanceResponse, HttpError>
  {
    match Handle(BalancesPrefix, true, BalanceOutcome(loaded, id, inicio, fin))
    case Ok(resp) => if InfiniteSelected(loaded.value.rows, id, inicio, fin) then Err(SerializationFailure) else Ok(resp)
    case Err(e) => Err(e)
  }

  /** `get_balance_by_valve`: the fill, the range and the KPIs, then one entry per selected
      row, appended in order, each reading its row's cells. */
  method GetBalanceByValve(loaded: LoadedTable<BalanceRow>, id: string, inicio: Option<string>, fin: Option<string>)
    returns (r: Result<BalanceResponse, HttpError>)
    ensures r == BalanceByValve(loaded, id, inicio, fin)
  {
    if loaded.Err? {
      return Err(HttpError(500, BalancesPrefix + loaded.error));
    }
    var t := loaded.value;
    if t.rows == [] {
      return Err(HttpError(404, NoBalancesDetail));
    }
    if "PUNTO" !in t.columns {
      return Err(HttpError(500, BalancesPrefix + KeyErrorMessage("PUNTO")));
    }
    if ValveRows(t.rows, id) == [] {
      return Err(HttpError(404, ValveNotFoundDetail(id)));
    }
    var prepMissing := FirstMissing(t.columns, PreparedColumns(id, inicio, fin));
    if prepMissing.Some? {
      assert BalanceOutcome(loaded, id, inicio, fin) == Err(OtherRaised(KeyErrorMessage(prepMissing.value)));
      return Err(HttpError(500, BalancesPrefix + KeyErrorMessage(prepMissing.value)));
    }
    var sel := Selected(t.rows, id, inicio, fin);
    var kpis := Kpis(sel);
    var collected := CollectBalances(t.columns, sel);
    if collected.Err? {
      assert BalanceOutcome(loaded, id, inicio, fin) == Err(OtherRaised(collected.error));
      return Err(HttpError(500, BalancesPrefix + collected.error));
    }
    var balances := collected.value;
    assert BalanceOutcome(loaded, id, inicio, fin) == Ok(BalanceResponse(id, kpis, balances));
    if InfiniteSelected(t.rows, id, inicio, fin) {
      return Err(SerializationFailure);
    }
    r := Ok(BalanceResponse(id, kpis, balances));
  }

  /** The loop of `get_balance_by_valve` over the selected rows: one entry per row, appended
      in order, each reading its row's cells, so that the first row raises the `KeyError` of
      the first column missing. */
  method CollectBalances(columns: seq<string>, sel: seq<BalanceRow>) returns (r: Result<seq<BalanceData>, string>)
    ensures r.Ok? <==> sel == [] || FirstMissing(columns, RowColumns).None?
    ensures r.Ok? ==> r.value == Mapped(sel, DataOf)
    ensures r.Err? ==> r.error == KeyErrorMessage(FirstMissing(columns, RowColumns).value)
  {
    var balances: seq<BalanceData> := [];
    var i := 0;
    while i < |sel|
      invariant 0 <= i <= |sel|
      invariant |balances| == i && forall k :: 0 <= k < i ==> balances[k] == DataOf(sel[k])
      invariant i > 0 ==> FirstMissing(columns, RowColumns).None?
    {
      var missing := FirstMissing(columns, RowColumns);
      if missing.Some? {
        return Err(KeyErrorMessage(missing.value));
      }
      balances := balances + [DataOf(sel[i])];
      i := i + 1;
    }
    r := Ok(balances);
  }

  /** Every column the route can index: with all of them the answer never names one. */
  const BalanceColumns: seq<string> :=
    ["PUNTO", "PERIODO", "FECHA", "ENTRADA_M3", "SALIDA_M3", "PERDIDAS_M3", "INDICE_PERDIDAS_%"]

  predicate HasAllColumns(t: Table<BalanceRow>) {
    forall k :: 0 <= k < |BalanceColumns| ==> BalanceColumns[k] in t.columns
  }

  /** A VALVULA_1 row inside the range with a zero inflow, a non-zero loss and no index makes
      the whole request fail with a 500, whatever the other rows hold: the plain one of the
      encoder when the table has every column, a `KeyError` otherwise. */
  lemma InfiniteIndexFails(loaded: LoadedTable<BalanceRow>, inicio: Option<string>, fin: Option<string>, r: BalanceRow)
    requires loaded.Ok? && r in loaded.value.rows && r.punto == Valvula1 && InRange(r, inicio, fin)
    requires r.entrada == Some(0.0) && r.indice.None? && r.perdidas.GetOr(0.0 - r.salida.GetOr(DefaultSalida)) != 0.0
    ensures BalanceByValve(loaded, Valvula1, inicio, fin).Err?
    ensures BalanceByValve(loaded, Valvula1, inicio, fin).error.status == 500
    ensures HasAllColumns(loaded.value) ==> BalanceByValve(loaded, Valvula1, inicio, fin) == Err(SerializationFailure)
  {
    var t := loaded.value;
    assert r in ValveRows(t.rows, Valvula1);
    assert IndexInfinite(r);
    assert InfiniteSelected(t.rows, Valvula1, inicio, fin);
    var outcome := BalanceOutcome(loaded, Valvula1, inicio, fin);
    assert outcome.Ok? || outcome.error.OtherRaised?;
    if HasAllColumns(t) {
      AllColumnsRead(t, Valvula1, inicio, fin);
      assert outcome.Ok?;
    }
  }

  /** A table with every column has each column the route reads. */
  lemma AllColumnsRead(t: Table<BalanceRow>, id: string, inicio: Option<string>, fin: Option<string>)
    requires HasAllColumns(t)
    ensures "PUNTO" in t.columns
    ensures FirstMissing(t.columns, PreparedColumns(id, inicio, fin)) == None
    ensures FirstMissing(t.columns, RowColumns) == None
  {
    assert "PUNTO" == BalanceColumns[0];
    var ps := PreparedColumns(id, inicio, fin);
    forall k | 0 <= k < |ps| ensures ps[k] in t.columns {
      assert ps[k] in BalanceColumns;
    }
    forall k | 0 <= k < |RowColumns| ensures RowColumns[k] in t.columns {
      assert RowColumns[k] == BalanceColumns[k + 1];
    }
  }

  // ---------------------------------------------------------------- properties

  /** No data, or a valve without rows, is a 404 that reaches the client unchanged, whatever
      the period range: it is raised before the range is applied. Without a `PUNTO` column the
      valve cannot be looked for: a 500 naming it, again whatever the range. */
  lemma NotFoundBeforeRange(loaded: LoadedTable<BalanceRow>, id: string, inicio: Option<string>, fin: Option<string>)
    requires loaded.Ok? && ValveRows(loaded.value.rows, id) == []
    ensures BalanceByValve(loaded, id, inicio, fin).Err?
    ensures loaded.value.rows == [] || "PUNTO" in loaded.value.columns ==>
      BalanceByValve(loaded, id, inicio, fin).error.status == 404
    ensures loaded.value.rows != [] && "PUNTO" !in loaded.value.columns ==>
      BalanceByValve(loaded, id, inicio, fin) == Err(HttpError(500, BalancesPrefix + KeyErrorMessage("PUNTO")))
    ensures BalanceByValve(loaded, id, inicio, fin) == BalanceByValve(loaded, id, None, None)
  {
  }

  /** Over a table with rows and a `PUNTO` column, and a valve that has rows, a column the
      fill, the range or the KPIs index and the table lacks is a 500 naming the first such
      column; so is a column of the balances once a row is selected. */
  lemma BalanceMissingColumn(loaded: LoadedTable<BalanceRow>, id: string, inicio: Option<string>, fin: Option<string>)
    requires loaded.Ok? && "PUNTO" in loaded.value.columns && ValveRows(loaded.value.rows, id) != []
    ensures var m := FirstMissing(loaded.value.columns, PreparedColumns(id, inicio, fin));
      m.Some? ==> BalanceByValve(loaded, id, inicio, fin) == Err(HttpError(500, BalancesPrefix + KeyErrorMessage(m.value)))
    ensures var m := FirstMissing(loaded.value.columns, RowColumns);
      FirstMissing(loaded.value.columns, PreparedColumns(id, inicio, fin)).None?
      && Selected(loaded.value.rows, id, inicio, fin) != [] && m.Some? ==>
        BalanceByValve(loaded, id, inicio, fin) == Err(HttpError(500, BalancesPrefix + KeyErrorMessage(m.value)))
  {
    assert loaded.value.rows != [];
  }

  /** A valve with rows answers even when the range leaves none of them, with zero KPIs,
      provided the table has the columns the fill, the range and the KPIs index; the KPIs
      index theirs even over no rows, so without one of them the answer is a 500 naming it. */
  lemma EmptyRangeAnswers(loaded: LoadedTable<BalanceRow>, id: string, inicio: Option<string>, fin: Option<string>)
    requires loaded.Ok? && "PUNTO" in loaded.value.columns && ValveRows(loaded.value.rows, id) != []
    requires Selected(loaded.value.rows, id, inicio, fin) == []
    ensures BalanceByValve(loaded, id, inicio, fin).Ok? <==>
      FirstMissing(loaded.value.columns, PreparedColumns(id, inicio, fin)).None?
    ensures BalanceByValve(loaded, id, inicio, fin).Ok? ==>
      BalanceByValve(loaded, id, inicio, fin).value.balances == []
      && BalanceByValve(loaded, id, inicio, fin).value.kpis == BalanceKpis(0.0, 0.0, 0)
    ensures forall k :: 0 <= k < |KpiColumns| && KpiColumns[k] !in loaded.value.columns ==>
      BalanceByValve(loaded, id, inicio, fin).Err? && BalanceByValve(loaded, id, inicio, fin).error.status == 500
  {
    assert loaded.value.rows != [];
    assert Present(Indices([])) == [];
    assert Present(Losses([])) == [];
    var ps := PreparedColumns(id, inicio, fin);
    forall k | 0 <= k < |KpiColumns| && KpiColumns[k] !in loaded.value.columns
      ensures FirstMissing(loaded.value.columns, ps).Some?
    {
      assert ps[|ps| - 2 + k] == KpiColumns[k];
    }
    InfiniteIsSelected(loaded.value.rows, id, inicio, fin);
  }

  /** An infinite index is only ever among the selected rows. */
  lemma InfiniteIsSelected(rows: seq<BalanceRow>, id: string, inicio: Option<string>, fin: Option<string>)
    ensures InfiniteSelected(rows, id, inicio, fin) ==> Selected(rows, id, inicio, fin) != []
  {
    if InfiniteSelected(rows, id, inicio, fin) {
      var r :| r in ValveRows(rows, id) && InRange(r, inicio, fin) && IndexInfinite(r);
      SelectedHolds(rows, id, inicio, fin, r);
    }
  }

  /** A row of the valve inside the range is selected, filled when the valve is VALVULA_1. */
  lemma SelectedHolds(rows: seq<BalanceRow>, id: string, inicio: Option<string>, fin: Option<string>, r: BalanceRow)
    requires r in ValveRows(rows, id) && InRange(r, inicio, fin)
    ensures Selected(rows, id, inicio, fin) != []
  {
    var vr := ValveRows(rows, id);
    var j :| 0 <= j < |vr| && vr[j] == r;
    var ps := Prepared(rows, id);
    assert InRange(ps[j], inicio, fin);
    assert ps[j] in Filter(ps, (x: BalanceRow) => InRange(x, inicio, fin));
  }

  /** Every entry reported is a row of the valve inside the (inclusive) range, and every row
      of the valve inside the range is reported; `meses_analizados` counts them. */
  lemma ResponseIsRange(loaded: LoadedTable<BalanceRow>, id: string, inicio: Option<string>, fin: Option<string>)
    requires BalanceByValve(loaded, id, inicio, fin).Ok?
    ensures var resp := BalanceByValve(loaded, id, inicio, fin).value;
      var ps := Prepared(loaded.value.rows, id);
      resp.valvulaId == id
      && resp.kpis.mesesAnalizados == |resp.balances|
      && (forall k :: 0 <= k < |resp.balances| ==>
            exists j :: 0 <= j < |ps| && InRange(ps[j], inicio, fin) && resp.balances[k] == DataOf(ps[j]))
      && (forall j :: 0 <= j < |ps| && InRange(ps[j], inicio, fin) ==> DataOf(ps[j]) in resp.balances)
  {
    var ps := Prepared(loaded.value.rows, id);
    ResponseBalances(loaded, id, inicio, fin);
    var bs := BalanceByValve(loaded, id, inicio, fin).value.balances;
    var inRange := (r: BalanceRow) => InRange(r, inicio, fin);
    MappedFilterSound(ps, inRange, DataOf, bs);
    MappedFilterComplete(ps, inRange, DataOf, bs);
  }

  /** Only VALVULA_1 is filled: any other valve reports its rows as they are. */
  lemma OtherValvesUnfilled(rows: seq<BalanceRow>, id: string)
    requires id != Valvula1
    ensures Prepared(rows, id) == ValveRows(rows, id)
  {
  }

  /** The entries answered are the selected rows, one for one. */
  lemma ResponseBalances(loaded: LoadedTable<BalanceRow>, id: string, inicio: Option<string>, fin: Option<string>)
    requires BalanceByValve(loaded, id, inicio, fin).Ok?
    ensures var bs := BalanceByValve(loaded, id, inicio, fin).value.balances;
      var sel := Selected(loaded.value.rows, id, inicio, fin);
      |bs| == |sel| && forall k :: 0 <= k < |bs| ==> bs[k] == DataOf(sel[k])
    ensures var cols := loaded.value.columns;
      "PUNTO" in cols && FirstMissing(cols, PreparedColumns(id, inicio, fin)).None?
      && (Selected(loaded.value.rows, id, inicio, fin) != [] ==> FirstMissing(cols, RowColumns).None?)
  {
  }

  /** Every filled row has inflow, outflow and loss. */
  lemma SelectedFilled(rows: seq<BalanceRow>, inicio: Option<string>, fin: Option<string>)
    ensures forall r :: r in Selected(rows, Valvula1, inicio, fin) ==>
      r.entrada.Some? && r.salida.Some? && r.perdidas.Some?
  {
    var ps := Prepared(rows, Valvula1);
    forall r | r in Selected(rows, Valvula1, inicio, fin)
      ensures r.entrada.Some? && r.salida.Some? && r.perdidas.Some?
    {
      var j :| 0 <= j < |ps| && ps[j] == r;
    }
  }

  /** Every VALVULA_1 entry has inflow, outflow and loss. */
  lemma Valvula1Complete(loaded: LoadedTable<BalanceRow>, inicio: Option<string>, fin: Option<string>)
    requires BalanceByValve(loaded, Valvula1, inicio, fin).Ok?
    ensures var bs := BalanceByValve(loaded, Valvula1, inicio, fin).value.balances;
      forall k :: 0 <= k < |bs| ==> bs[k].entrada.Some? && bs[k].salida.Some? && bs[k].perdidas.Some?
  {
    ResponseBalances(loaded, Valvula1, inicio, fin);
    SelectedFilled(loaded.value.rows, inicio, fin);
    var sel := Selected(loaded.value.rows, Valvula1, inicio, fin);
    assert forall k :: 0 <= k < |sel| ==> sel[k] in sel;
  }

  // ---------------------------------------------------------------- periods

  datatype PeriodsResponse = PeriodsResponse(
    valvula: string, periodos: seq<string>, total: nat, primerPeriodo: Option<string>,
    ultimoPeriodo: Option<string>)

  const PeriodsPrefix := "Error al obtener períodos: "

  function NoPeriodsDetail(id: string): string {
    "No hay períodos disponibles para " + id
  }

  /** The body of `get_valve_periods` once the loader has listed the periods. */
  function PeriodsOutcome(id: string, periodos: seq<string>): (r: Result<PeriodsResponse, Raised>)
    ensures r.Err? <==> periodos == []
    ensures r.Err? ==> r.error == HttpRaised(404, NoPeriodsDetail(id))
    ensures r.Ok? ==>
      r.value.periodos == periodos && r.value.total == |periodos|
      && r.value.primerPeriodo == Some(periodos[0]) && r.value.ultimoPeriodo == Some(periodos[|periodos| - 1])
  {
    if periodos == [] then Err(HttpRaised(404, NoPeriodsDetail(id)))
    else
      Ok(PeriodsResponse(id, periodos, |periodos|, Some(periodos[0]), Some(periodos[|periodos| - 1])))
  }

  /** `get_valve_periods` as written: the handler has no `except HTTPException: raise`, so
      its own 404 is turned into a 500. */
  function ValvePeriodsAsWritten(id: string, periodos: seq<string>): Result<PeriodsResponse, HttpError> {
    Handle(PeriodsPrefix, false, PeriodsOutcome(id, periodos))
  }

  /** `get_valve_periods` as intended: the 404 reaches the client. */
  function ValvePeriods(id: string, periodos: seq<string>): Result<PeriodsResponse, HttpError> {
    Handle(PeriodsPrefix, true, PeriodsOutcome(id, periodos))
  }

  /** A valve without periods: as written the client gets a 500 whose detail embeds the 404;
      as intended it gets the 404. */
  lemma NoPeriodsStatus(id: string)
    ensures ValvePeriodsAsWritten(id, []) ==
      Err(HttpError(500, PeriodsPrefix + "404: " + NoPeriodsDetail(id)))
    ensures ValvePeriods(id, []) == Err(HttpError(404, NoPeriodsDetail(id)))
  {
    NotFoundText();
    assert PeriodsPrefix + (NatToString(404) + ": " + NoPeriodsDetail(id))
        == PeriodsPrefix + "404: " + NoPeriodsDetail(id);
  }

  /** How `str(HTTPException)` writes the status 404. */
  lemma NotFoundText()
    ensures NatToString(404) == "404"
  {
    assert NatToString(40) == "40";
  }

  /** The two agree whenever there are periods. */
  lemma PeriodsAgreeWhenFound(id: string, periodos: seq<string>)
    requires periodos != []
    ensures ValvePeriodsAsWritten(id, periodos) == ValvePeriods(id, periodos)
  {
  }

  /** With the loader's periods the answer lists them in ascending order, without repeats,
      first and last being the smallest and the largest. */
  lemma PeriodsOrdered(loaded: Result<DataLoader.Table, DataLoader.LoadError>, id: string)
    requires ValvePeriods(id, DataLoader.PeriodsOf(loaded, Some(id))).Ok?
    ensures var resp := ValvePeriods(id, DataLoader.PeriodsOf(loaded, Some(id))).value;
      StrictlySortedStrings(resp.periodos)
      && resp.total == |resp.periodos|
      && forall p :: p in resp.periodos ==>
           StrLe(resp.primerPeriodo.value, p) && StrLe(p, resp.ultimoPeriodo.value)
  {
    var ps := DataLoader.PeriodsOf(loaded, Some(id));
    forall p | p in ps
      ensures StrLe(ps[0], p) && StrLe(p, ps[|ps| - 1])
    {
      var k :| 0 <= k < |ps| && ps[k] == p;
    }
  }
}
