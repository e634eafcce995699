/** The forecast summary routes (backend/app/api/routes/forecast.py): the aggregated
    forecast of every valve, optionally of one valve; and the summary of one valve. */
module ForecastRoute {
  import opened Wrappers
  import opened Text
  import opened Seqs
  import opened Frames

  /** A row of the forecast summary per valve; a NaN cell is `None`, as is a number column
      that `row.get` does not find. The `VALVULA` column is indexed directly, so a table
      without it raises a `KeyError` as soon as a row is read or filtered. */
  datatype ForecastRow = ForecastRow(
    valvula: string, numPeriodos: Option<real>,
    entradaSum: Option<real>, entradaMean: Option<real>,
    salidaSum: Option<real>, salidaMean: Option<real>,
    perdidasSum: Option<real>, perdidasMean: Option<real>,
    indiceMean: Option<real>)

  datatype ForecastSummary = ForecastSummary(
    valvula: string, numPeriodos: int,
    volumenEntradaTotal: real, volumenEntradaPromedio: real,
    volumenSalidaTotal: real, volumenSalidaPromedio: real,
    perdidasTotal: real, perdidasPromedio: real, indicePerdidasPromedio: real)

  datatype ForecastSummaryResponse = ForecastSummaryResponse(forecasts: seq<ForecastSummary>, totalValvulas: nat)

  /** `int(v) if pd.notna(v) else 0`. */
  function PeriodCount(v: Option<real>): (n: int)
    ensures v.None? ==> n == 0
    ensures v.Some? && v.value >= 0.0 ==> 0 <= n && n as real <= v.value < n as real + 1.0
    ensures v.Some? && v.value < 0.0 ==> n <= 0 && n as real - 1.0 < v.value <= n as real
  {
    if v.Some? then Truncate(v.value) else 0
  }

  /** A summary: the row's fields with NaN reported as 0 and the period count truncated. */
  function SummaryOf(r: ForecastRow): ForecastSummary {
    ForecastSummary(
      r.valvula, PeriodCount(r.numPeriodos),
      NanToZero(r.entradaSum), NanToZero(r.entradaMean), NanToZero(r.salidaSum), NanToZero(r.salidaMean),
      NanToZero(r.perdidasSum), NanToZero(r.perdidasMean), NanToZero(r.indiceMean))
  }

  predicate OfValve(r: ForecastRow, id: string) {
    r.valvula == id
  }

  /** `if valvula_id: df = df[df['VALVULA'] == valvula_id]`. */
  function ByValve(rows: seq<ForecastRow>, id: Option<string>): seq<ForecastRow> {
    if Truthy(id) then Filter(rows, (r: ForecastRow) => OfValve(r, id.value)) else rows
  }

  /** The rows kept are those of the requested valve (all rows without a filter), in table
      order. */
  lemma ByValveKeeps(rows: seq<ForecastRow>, id: Option<string>)
    ensures IsSubseq(ByValve(rows, id), rows)
    ensures forall r :: r in ByValve(rows, id) <==> r in rows && (Truthy(id) ==> r.valvula == id.value)
  {
    if Truthy(id) {
      FilterIsSubseq(rows, (r: ForecastRow) => OfValve(r, id.value));
    } else {
      SubseqRefl(rows);
    }
  }

  function NoSummaryDetail(id: string): string {
    "No se encontró resumen de pronósticos para " + id
  }

  const SummaryPrefix := "Error al obtener resumen de pronósticos: "

  function SummaryOutcome(loaded: LoadedTable<ForecastRow>, id: Option<string>): Result<ForecastSummaryResponse, Raised> {
    if loaded.Err? then LoadFailure(loaded.error)
    else if loaded.value.rows == [] then Ok(ForecastSummaryResponse([], 0))
    else if "VALVULA" !in loaded.value.columns then Err(OtherRaised(KeyErrorMessage("VALVULA")))
    else
      var df := ByValve(loaded.value.rows, id);
      if Truthy(id) && df == [] then Err(HttpRaised(404, NoSummaryDetail(id.value)))
      else Ok(ForecastSummaryResponse(Mapped(df, SummaryOf), |df|))
  }

  /** `get_forecast_summary_by_valve`, as a function. */
  function SummaryByValve(loaded: LoadedTable<ForecastRow>, id: Option<string>): Result<ForecastSummaryResponse, HttpError> {
    Handle(SummaryPrefix, true, SummaryOutcome(loaded, id))
  }

  /** `get_forecast_summary_by_valve`: one summary per row kept, appended in order. */
  method GetSummaryByValve(loaded: LoadedTable<ForecastRow>, id: Option<string>)
    returns (r: Result<ForecastSummaryResponse, HttpError>)
    ensures r == SummaryByValve(loaded, id)
  {
    if loaded.Err? {
      return Err(HttpError(500, SummaryPrefix + loaded.error));
    }
    if loaded.value.rows == [] {
      return Ok(ForecastSummaryResponse([], 0));
    }
    if "VALVULA" !in loaded.value.columns {
      return Err(HttpError(500, SummaryPrefix + KeyErrorMessage("VALVULA")));
    }
    var df := ByValve(loaded.value.rows, id);
    if Truthy(id) && df == [] {
      return Err(HttpError(404, NoSummaryDetail(id.value)));
    }
    var forecasts: seq<ForecastSummary> := [];
    var i := 0;
    while i < |df|
      invariant 0 <= i <= |df|
      invariant |forecasts| == i && forall k :: 0 <= k < i ==> forecasts[k] == SummaryOf(df[k])
    {
      forecasts := forecasts + [SummaryOf(df[i])];
      i := i + 1;
    }
    assert forecasts == Mapped(df, SummaryOf);
    r := Ok(ForecastSummaryResponse(forecasts, |forecasts|));
  }

  /** No data is an empty answer; a table without `VALVULA` is a 500 naming it; a valve with
      no rows is a 404 that reaches the client unchanged. */
  lemma SummaryErrors(loaded: LoadedTable<ForecastRow>, id: Option<string>)
    requires loaded.Ok?
    ensures loaded.value.rows == [] ==> SummaryByValve(loaded, id) == Ok(ForecastSummaryResponse([], 0))
    ensures loaded.value.rows != [] && "VALVULA" !in loaded.value.columns ==>
      SummaryByValve(loaded, id) == Err(HttpError(500, SummaryPrefix + KeyErrorMessage("VALVULA")))
    ensures (loaded.value.rows != [] && "VALVULA" in loaded.value.columns && Truthy(id)
             && forall k :: 0 <= k < |loaded.value.rows| ==> loaded.value.rows[k].valvula != id.value) ==>
      SummaryByValve(loaded, id) == Err(HttpError(404, NoSummaryDetail(id.value)))
  {
    var t := loaded.value;
    if t.rows != [] && Truthy(id) {
      var df := ByValve(t.rows, id);
      if df != [] {
        assert df[0] in t.rows;
      }
    }
  }

  /** An answer lists exactly the rows of the requested valve (every row without a filter),
      in table order, one summary each, and `total_valvulas` counts them. */
  lemma SummariesListed(loaded: LoadedTable<ForecastRow>, id: Option<string>)
    requires SummaryByValve(loaded, id).Ok?
    ensures var resp := SummaryByValve(loaded, id).value;
      resp.forecasts == Mapped(ByValve(loaded.value.rows, id), SummaryOf)
      && resp.totalValvulas == |resp.forecasts|
    ensures forall r :: r in ByValve(loaded.value.rows, id) <==>
      r in loaded.value.rows && (Truthy(id) ==> r.valvula == id.value)
    ensures IsSubseq(ByValve(loaded.value.rows, id), loaded.value.rows)
  {
    ByValveKeeps(loaded.value.rows, id);
    if loaded.value.rows == [] {
      assert ByValve(loaded.value.rows, id) == [];
    }
  }

  // ---------------------------------------------------------------- one valve

  function NotFoundDetail(id: string): string {
    "No se encontró resumen de pronósticos para '" + id + "'"
  }

  function ValveSummaryPrefix(id: string): string {
    "Error al obtener resumen de pronósticos de " + id + ": "
  }

  function ValveSummaryOutcome(loaded: LoadedTable<ForecastRow>, id: string): Result<ForecastSummary, Raised> {
    if loaded.Err? then LoadFailure(loaded.error)
    else if "VALVULA" !in loaded.value.columns then Err(OtherRaised(KeyErrorMessage("VALVULA")))
    else
      var m := Filter(loaded.value.rows, (r: ForecastRow) => OfValve(r, id));
      if m == [] then Err(HttpRaised(404, NotFoundDetail(id))) else Ok(SummaryOf(m[0]))
  }

  /** `get_valve_forecast_summary`. */
  function ValveForecastSummary(loaded: LoadedTable<ForecastRow>, id: string): Result<ForecastSummary, HttpError> {
    Handle(ValveSummaryPrefix(id), true, ValveSummaryOutcome(loaded, id))
  }

  /** The summary of a valve is that of its first row, or a 404 when it has none; a table
      without `VALVULA` is a 500 naming it. */
  lemma ValveSummaryFirst(loaded: LoadedTable<ForecastRow>, id: string)
    requires loaded.Ok?
    ensures "VALVULA" !in loaded.value.columns ==>
      ValveForecastSummary(loaded, id) == Err(HttpError(500, ValveSummaryPrefix(id) + KeyErrorMessage("VALVULA")))
    ensures var k := FirstIndex(loaded.value.rows, (r: ForecastRow) => OfValve(r, id));
      "VALVULA" in loaded.value.columns ==>
        (k.None? ==> ValveForecastSummary(loaded, id) == Err(HttpError(404, NotFoundDetail(id))))
        && (k.Some? ==> ValveForecastSummary(loaded, id) == Ok(SummaryOf(loaded.value.rows[k.value])))
  {
    FilterHead(loaded.value.rows, (r: ForecastRow) => OfValve(r, id));
  }

  /** The single-valve route answers with the first summary the list route gives for that
      valve, and fails where it fails: with a 404, or with a 500 for a missing `VALVULA`. */
  lemma SummaryIsFirstOfList(loaded: LoadedTable<ForecastRow>, id: string)
    requires loaded.Ok? && loaded.value.rows != [] && id != ""
    ensures ValveForecastSummary(loaded, id).Ok? <==> SummaryByValve(loaded, Some(id)).Ok?
    ensures ValveForecastSummary(loaded, id).Ok? ==>
      SummaryByValve(loaded, Some(id)).value.forecasts[0] == ValveForecastSummary(loaded, id).value
    ensures ValveForecastSummary(loaded, id).Err? ==>
      SummaryByValve(loaded, Some(id)).error.status == ValveForecastSummary(loaded, id).error.status
  {
  }

  /** A fractional period count is cut toward zero, not down: a count and its negation are
      reported as opposite numbers, so -2.9 periods are -2 where a floor would give -3. */
  lemma PeriodCountTruncates(x: real)
    ensures PeriodCount(Some(-x)) == -PeriodCount(Some(x))
    ensures x < 0.0 && x != PeriodCount(Some(x)) as real ==> PeriodCount(Some(x)) == x.Floor + 1
  {
  }
}
