/** The benchmark routes (backend/app/api/routes/benchmark.py): historic against forecast
    values per valve with the mean absolute percentage differences; and the comparison of
    one valve. */
module BenchmarkRoute {
  import opened Wrappers
  import opened Text
  import opened Seqs
  import opened Frames

  /** A row of the historic benchmark; a NaN cell is `None`, as is a number that `row.get`
      does not find. */
  datatype BenchmarkRow = BenchmarkRow(
    valvula: string,
    entradaHist: Option<real>, entradaPred: Option<real>,
    salidaHist: Option<real>, salidaPred: Option<real>,
    perdidasHist: Option<real>, perdidasPred: Option<real>,
    indiceHist: Option<real>, indicePred: Option<real>,
    difEntrada: Option<real>, difSalida: Option<real>, difIndice: Option<real>)

  datatype BenchmarkComparison = BenchmarkComparison(
    valvula: string,
    entradaHist: real, entradaPred: real, salidaHist: real, salidaPred: real,
    perdidasHist: real, perdidasPred: real, indiceHist: real, indicePred: real,
    difEntradaPct: real, difSalidaPct: real, difIndicePct: real)

  datatype BenchmarkResponse = BenchmarkResponse(
    comparisons: seq<BenchmarkComparison>,
    promedioPrecisionEntrada: real, promedioPrecisionSalida: real, promedioPrecisionIndice: real)

  /** A comparison: the row's fields with NaN reported as 0. */
  function ComparisonOf(r: BenchmarkRow): BenchmarkComparison {
    BenchmarkComparison(
      r.valvula,
      NanToZero(r.entradaHist), NanToZero(r.entradaPred), NanToZero(r.salidaHist), NanToZero(r.salidaPred),
      NanToZero(r.perdidasHist), NanToZero(r.perdidasPred), NanToZero(r.indiceHist), NanToZero(r.indicePred),
      NanToZero(r.difEntrada), NanToZero(r.difSalida), NanToZero(r.difIndice))
  }

  /** `series.abs()`: NaN stays NaN. */
  function AbsColumn(c: seq<Option<real>>): (a: seq<Option<real>>)
    ensures |a| == |c|
    ensures forall k :: 0 <= k < |c| ==> (a[k].Some? <==> c[k].Some?)
    ensures forall k :: 0 <= k < |c| && c[k].Some? ==> a[k].value == Abs(c[k].value)
  {
    seq(|c|, k requires 0 <= k < |c| => if c[k].Some? then Some(Abs(c[k].value)) else None)
  }

  /** The mean absolute difference of a column, 0 when every cell is NaN; never negative. */
  function MeanAbs(c: seq<Option<real>>): (m: real)
    ensures m >= 0.0
    ensures MeanSkipNaN(c).None? ==> m == 0.0
  {
    var a := AbsColumn(c);
    MeanOrZeroNonNegative(a);
    AbsColumnPresent(c);
    MeanOrZero(a)
  }

  /** Taking absolute values keeps a column without present cells without them. */
  lemma AbsColumnPresent(c: seq<Option<real>>)
    ensures Present(c) == [] ==> Present(AbsColumn(c)) == []
  {
    var a := AbsColumn(c);
    if Present(a) != [] {
      assert Some(Present(a)[0]) in a;
      var k :| 0 <= k < |a| && a[k] == Some(Present(a)[0]);
      assert c[k].value in Present(c);
    }
  }

  function DifEntrada(rows: seq<BenchmarkRow>): seq<Option<real>> {
    seq(|rows|, k requires 0 <= k < |rows| => rows[k].difEntrada)
  }

  function DifSalida(rows: seq<BenchmarkRow>): seq<Option<real>> {
    seq(|rows|, k requires 0 <= k < |rows| => rows[k].difSalida)
  }

  function DifIndice(rows: seq<BenchmarkRow>): seq<Option<real>> {
    seq(|rows|, k requires 0 <= k < |rows| => rows[k].difIndice)
  }

  predicate OfValve(r: BenchmarkRow, id: string) {
    r.valvula == id
  }

  /** `if valvula_id: df = df[df['VALVULA'] == valvula_id]`. */
  function ByValve(rows: seq<BenchmarkRow>, id: Option<string>): seq<BenchmarkRow> {
    if Truthy(id) then Filter(rows, (r: BenchmarkRow) => OfValve(r, id.value)) else rows
  }

  /** The rows kept are those of the requested valve (all rows without a filter), in table
      order. */
  lemma ByValveKeeps(rows: seq<BenchmarkRow>, id: Option<string>)
    ensures IsSubseq(ByValve(rows, id), rows)
    ensures forall r :: r in ByValve(rows, id) <==> r in rows && (Truthy(id) ==> r.valvula == id.value)
  {
    if Truthy(id) {
      FilterIsSubseq(rows, (r: BenchmarkRow) => OfValve(r, id.value));
    } else {
      SubseqRefl(rows);
    }
  }

  /** The columns the list route indexes, in the order it reads them: `row['VALVULA']` for
      each comparison, then the three difference columns whose means it takes. */
  const ListColumns: seq<string> := ["VALVULA", "DIF_ENTRADA_%", "DIF_SALIDA_%", "DIF_INDICE_%"]

  function NoBenchmarkDetail(id: string): string {
    "No se encontró benchmark para " + id
  }

  const BenchmarkPrefix := "Error al obtener benchmark: "

  function BenchmarkOutcome(loaded: LoadedTable<BenchmarkRow>, id: Option<string>): Result<BenchmarkResponse, Raised> {
    if loaded.Err? then LoadFailure(loaded.error)
    else
      var t := loaded.value;
      if t.rows == [] then Ok(BenchmarkResponse([], 0.0, 0.0, 0.0))
      else if "VALVULA" !in t.columns then Err(OtherRaised(KeyErrorMessage("VALVULA")))
      else
        var df := ByValve(t.rows, id);
        if Truthy(id) && df == [] then Err(HttpRaised(404, NoBenchmarkDetail(id.value)))
        else match FirstMissing(t.columns, ListColumns)
          case Some(c) => Err(OtherRaised(KeyErrorMessage(c)))
          case None =>
            Ok(BenchmarkResponse(Mapped(df, ComparisonOf),
                                 MeanAbs(DifEntrada(df)), MeanAbs(DifSalida(df)), MeanAbs(DifIndice(df))))
  }

  /** `get_historic_vs_forecast_benchmark`, as a function. */
  function HistoricVsForecast(loaded: LoadedTable<BenchmarkRow>, id: Option<string>): Result<BenchmarkResponse, HttpError> {
    Handle(BenchmarkPrefix, true, BenchmarkOutcome(loaded, id))
  }

  /** `get_historic_vs_forecast_benchmark`: one comparison per row kept, appended in order,
      then the three mean absolute differences. */
  method GetHistoricVsForecast(loaded: LoadedTable<BenchmarkRow>, id: Option<string>)
    returns (r: Result<BenchmarkResponse, HttpError>)
    ensures r == HistoricVsForecast(loaded, id)
  {
    if loaded.Err? {
      return Err(HttpError(500, BenchmarkPrefix + loaded.error));
    }
    var t := loaded.value;
    if t.rows == [] {
      return Ok(BenchmarkResponse([], 0.0, 0.0, 0.0));
    }
    if "VALVULA" !in t.columns {
      return Err(HttpError(500, BenchmarkPrefix + KeyErrorMessage("VALVULA")));
    }
    var df := ByValve(t.rows, id);
    if Truthy(id) && df == [] {
      return Err(HttpError(404, NoBenchmarkDetail(id.value)));
    }
    var missing := FirstMissing(t.columns, ListColumns);
    if missing.Some? {
      assert BenchmarkOutcome(loaded, id) == Err(OtherRaised(KeyErrorMessage(missing.value)));
      return Err(HttpError(500, BenchmarkPrefix + KeyErrorMessage(missing.value)));
    }
    var comparisons: seq<BenchmarkComparison> := [];
    var i := 0;
    while i < |df|
      invariant 0 <= i <= |df|
      invariant |comparisons| == i && forall k :: 0 <= k < i ==> comparisons[k] == ComparisonOf(df[k])
    {
      comparisons := comparisons + [ComparisonOf(df[i])];
      i := i + 1;
    }
    assert comparisons == Mapped(df, ComparisonOf);
    assert BenchmarkOutcome(loaded, id) == Ok(BenchmarkResponse(comparisons, MeanAbs(DifEntrada(df)),
                                              MeanAbs(DifSalida(df)), MeanAbs(DifIndice(df))));
    r := Ok(BenchmarkResponse(comparisons, MeanAbs(DifEntrada(df)), MeanAbs(DifSalida(df)), MeanAbs(DifIndice(df))));
  }

  /** No data is an empty answer with zero means; a table without `VALVULA` is a 500 naming
      it; a valve with no rows is a 404 that reaches the client unchanged. */
  lemma BenchmarkErrors(loaded: LoadedTable<BenchmarkRow>, id: Option<string>)
    requires loaded.Ok?
    ensures loaded.value.rows == [] ==> HistoricVsForecast(loaded, id) == Ok(BenchmarkResponse([], 0.0, 0.0, 0.0))
    ensures loaded.value.rows != [] && "VALVULA" !in loaded.value.columns ==>
      HistoricVsForecast(loaded, id) == Err(HttpError(500, BenchmarkPrefix + KeyErrorMessage("VALVULA")))
    ensures (loaded.value.rows != [] && "VALVULA" in loaded.value.columns && Truthy(id)
             && forall k :: 0 <= k < |loaded.value.rows| ==> loaded.value.rows[k].valvula != id.value) ==>
      HistoricVsForecast(loaded, id) == Err(HttpError(404, NoBenchmarkDetail(id.value)))
  {
    var t := loaded.value;
    if t.rows != [] && Truthy(id) {
      var df := ByValve(t.rows, id);
      if df != [] {
        assert df[0] in t.rows;
      }
    }
  }

  /** Once there are rows to list, a difference column the table lacks is a 500 naming the
      first one missing, although each comparison reads it with a default. */
  lemma BenchmarkMissingColumn(loaded: LoadedTable<BenchmarkRow>, id: Option<string>, c: string)
    requires loaded.Ok? && loaded.value.rows != [] && "VALVULA" in loaded.value.columns
    requires Truthy(id) ==> ByValve(loaded.value.rows, id) != []
    requires FirstMissing(loaded.value.columns, ListColumns) == Some(c)
    ensures HistoricVsForecast(loaded, id) == Err(HttpError(500, BenchmarkPrefix + KeyErrorMessage(c)))
    ensures c in ListColumns[1..] && c !in loaded.value.columns
  {
  }

  /** An answer lists exactly the rows of the requested valve (every row without a filter),
      in table order, one comparison each; the three means are those of the absolute
      differences present in the same rows, never negative, and every column read was
      there. */
  lemma ComparisonsListed(loaded: LoadedTable<BenchmarkRow>, id: Option<string>)
    requires HistoricVsForecast(loaded, id).Ok?
    ensures var resp := HistoricVsForecast(loaded, id).value;
      var df := ByValve(loaded.value.rows, id);
      resp.comparisons == Mapped(df, ComparisonOf)
      && resp.promedioPrecisionEntrada == MeanAbs(DifEntrada(df))
      && resp.promedioPrecisionSalida == MeanAbs(DifSalida(df))
      && resp.promedioPrecisionIndice == MeanAbs(DifIndice(df))
      && resp.promedioPrecisionEntrada >= 0.0 && resp.promedioPrecisionSalida >= 0.0
      && resp.promedioPrecisionIndice >= 0.0
      && (df != [] ==> forall k :: 0 <= k < |ListColumns| ==> ListColumns[k] in loaded.value.columns)
    ensures forall r :: r in ByValve(loaded.value.rows, id) <==>
      r in loaded.value.rows && (Truthy(id) ==> r.valvula == id.value)
    ensures IsSubseq(ByValve(loaded.value.rows, id), loaded.value.rows)
  {
    ByValveKeeps(loaded.value.rows, id);
    if loaded.value.rows == [] {
      assert ByValve(loaded.value.rows, id) == [];
    }
  }

  /** The mean difference is taken over absolute values: flipping the sign of any cells of
      a column leaves it unchanged, so a row 10% over and a row 10% under the forecast
      average to 10, not 0. */
  lemma MeanOfAbsolute(c: seq<Option<real>>, d: seq<Option<real>>)
    requires |c| == |d|
    requires forall k :: 0 <= k < |c| ==> d[k] == c[k] || (c[k].Some? && d[k] == Some(-c[k].value))
    ensures MeanAbs(c) == MeanAbs(d)
  {
    assert AbsColumn(c) == AbsColumn(d);
  }

  // ---------------------------------------------------------------- one valve

  function NotFoundDetail(id: string): string {
    "No se encontró benchmark para válvula '" + id + "'"
  }

  function AccuracyPrefix(id: string): string {
    "Error al obtener precisión de " + id + ": "
  }

  function AccuracyOutcome(loaded: LoadedTable<BenchmarkRow>, id: string): Result<BenchmarkComparison, Raised> {
    if loaded.Err? then LoadFailure(loaded.error)
    else if "VALVULA" !in loaded.value.columns then Err(OtherRaised(KeyErrorMessage("VALVULA")))
    else
      var m := Filter(loaded.value.rows, (r: BenchmarkRow) => OfValve(r, id));
      if m == [] then Err(HttpRaised(404, NotFoundDetail(id))) else Ok(ComparisonOf(m[0]))
  }

  /** `get_valve_forecast_accuracy`. */
  function ValveForecastAccuracy(loaded: LoadedTable<BenchmarkRow>, id: string): Result<BenchmarkComparison, HttpError> {
    Handle(AccuracyPrefix(id), true, AccuracyOutcome(loaded, id))
  }

  /** The accuracy of a valve is the comparison of its first row, or a 404 when it has none;
      a table without `VALVULA` is a 500 naming it. */
  lemma AccuracyFirst(loaded: LoadedTable<BenchmarkRow>, id: string)
    requires loaded.Ok?
    ensures "VALVULA" !in loaded.value.columns ==>
      ValveForecastAccuracy(loaded, id) == Err(HttpError(500, AccuracyPrefix(id) + KeyErrorMessage("VALVULA")))
    ensures var k := FirstIndex(loaded.value.rows, (r: BenchmarkRow) => OfValve(r, id));
      "VALVULA" in loaded.value.columns ==>
        (k.None? ==> ValveForecastAccuracy(loaded, id) == Err(HttpError(404, NotFoundDetail(id))))
        && (k.Some? ==> ValveForecastAccuracy(loaded, id) == Ok(ComparisonOf(loaded.value.rows[k.value])))
  {
    FilterHead(loaded.value.rows, (r: BenchmarkRow) => OfValve(r, id));
  }

  /** On a table with every column the list reads, the single-valve route answers with the
      first comparison the list route gives for that valve, and fails where it fails with a
      404. */
  lemma AccuracyIsFirstOfList(loaded: LoadedTable<BenchmarkRow>, id: string)
    requires loaded.Ok? && loaded.value.rows != [] && id != ""
    requires forall k :: 0 <= k < |ListColumns| ==> ListColumns[k] in loaded.value.columns
    ensures ValveForecastAccuracy(loaded, id).Ok? <==> HistoricVsForecast(loaded, Some(id)).Ok?
    ensures ValveForecastAccuracy(loaded, id).Ok? ==>
      HistoricVsForecast(loaded, Some(id)).value.comparisons[0] == ValveForecastAccuracy(loaded, id).value
    ensures ValveForecastAccuracy(loaded, id).Err? ==> HistoricVsForecast(loaded, Some(id)).error.status == 404
  {
    assert ListColumns[0] in loaded.value.columns;
    assert FirstMissing(loaded.value.columns, ListColumns) == None;
  }
}
