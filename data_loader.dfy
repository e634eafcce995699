/** The CSV loader of the backend (backend/app/services/data_loader.py): one `load_*` per
    dataset, each going through a cache of tables keyed by name; the reader that tries a
    fixed list of encodings; and the two listings of valves and periods.

    The file system, pandas' CSV parser and Python's `float()` are a `FileSystem` value:
    whether a path exists, what one read attempt with given options yields, and which texts
    convert to a number. The header clean-up and whether each loader's decimal-comma
    conversion succeeds are modelled; the converted values and the date conversions are not. */
module DataLoader {
  import opened Wrappers
  import opened Text
  import opened Sorting

  // ---------------------------------------------------------------- tables

  /** A table: its header and its rows, cells as text. A missing value (NaN) is the text
      `NaNText`, as `astype(str)` writes it. */
  datatype Table = Table(columns: seq<string>, rows: seq<seq<string>>)

  /** The position of the first column with that name. */
  function ColumnIndex(columns: seq<string>, name: string): (k: Option<nat>)
    ensures k.Some? <==> name in columns
    ensures k.Some? ==> k.value < |columns| && columns[k.value] == name
    ensures k.Some? ==> forall j :: 0 <= j < k.value ==> columns[j] != name
  {
    if columns == [] then None
    else if columns[0] == name then Some(0)
    else match ColumnIndex(columns[1..], name)
      case None => None
      case Some(k) => Some(k + 1)
  }

  /** The text of a NaN cell. */
  const NaNText := "nan"

  /** A cell; a row shorter than the header reads NaN there. */
  function CellAt(row: seq<string>, k: nat): string {
    if k < |row| then row[k] else NaNText
  }

  /** `df[name]`: the column's cells in row order, `None` (a `KeyError`) when there is no
      such column. */
  function Column(t: Table, name: string): (c: Option<seq<string>>)
    ensures c.Some? <==> name in t.columns
    ensures c.Some? ==> |c.value| == |t.rows|
  {
    match ColumnIndex(t.columns, name)
    case None => None
    case Some(k) => Some(seq(|t.rows|, i requires 0 <= i < |t.rows| => CellAt(t.rows[i], k)))
  }

  // ---------------------------------------------------------------- header clean-up

  /** Python `str.isspace` on the Latin-1 range. */
  predicate IsPySpace(c: char) {
    c == ' ' || '\t' <= c <= '\r' || '\U{1c}' <= c <= '\U{1f}' || c == '\U{85}' || c == '\U{a0}'
  }

  function StripStart(s: string): (r: string)
    ensures r == [] || !IsPySpace(r[0])
    ensures |r| <= |s| && r == s[|s| - |r|..]
  {
    if s != [] && IsPySpace(s[0]) then StripStart(s[1..]) else s
  }

  function StripEnd(s: string): (r: string)
    ensures r == [] || !IsPySpace(r[|r| - 1])
    ensures |r| <= |s| && r == s[..|r|]
  {
    if s != [] && IsPySpace(s[|s| - 1]) then StripEnd(s[..|s| - 1]) else s
  }

  /** Python `str.strip()`. */
  function Strip(s: string): (r: string)
    ensures r == [] || (!IsPySpace(r[0]) && !IsPySpace(r[|r| - 1]))
  {
    var a := StripStart(s);
    var r := StripEnd(a);
    assert r != [] ==> r[0] == a[0];
    r
  }

  /** `df.columns.str.strip().str.upper()` on one name. */
  function CleanHeader(name: string): string {
    PyUpper(Strip(name))
  }

  function CleanHeaders(columns: seq<string>): (r: seq<string>)
    ensures |r| == |columns| && forall i :: 0 <= i < |columns| ==> r[i] == CleanHeader(columns[i])
  {
    seq(|columns|, i requires 0 <= i < |columns| => CleanHeader(columns[i]))
  }

  /** Upper-casing neither makes nor unmakes a space. */
  lemma UpperKeepsSpaces(s: string)
    ensures forall i :: 0 <= i < |s| ==> (IsPySpace(PyUpper(s)[i]) <==> IsPySpace(s[i]))
  {
  }

  /** A string without surrounding spaces is its own strip. */
  lemma StripTrimmed(s: string)
    requires s == [] || (!IsPySpace(s[0]) && !IsPySpace(s[|s| - 1]))
    ensures Strip(s) == s
  {
  }

  /** Cleaning a cleaned header changes nothing, so loading a table whose headers are
      already clean keeps them. */
  lemma CleanHeaderIdempotent(name: string)
    ensures CleanHeader(CleanHeader(name)) == CleanHeader(name)
  {
    var s := Strip(name);
    var u := PyUpper(s);
    UpperKeepsSpaces(s);
    StripTrimmed(u);
    PyUpperIdempotent(s);
  }

  // ---------------------------------------------------------------- reading

  /** The options passed to `pd.read_csv`. */
  datatype ReadOptions = ReadOptions(
    path: string, sep: string, onBadLines: string, indexCol: bool, encoding: string)

  /** The outcome of one `pd.read_csv` call. */
  datatype ReadAttempt = Parsed(table: Table) | DecodeFailed(message: string) | Failed(message: string)

  /** The files under the data directory and the parser: whether a path exists, what a
      read with given options yields, and whether `float()` accepts a text. A table read
      with `index_col=0` holds its index as its first column. */
  datatype FileSystem = FileSystem(
    fileExists: string -> bool, read: ReadOptions -> ReadAttempt, parsesFloat: string -> bool)

  datatype LoadError =
    | FileNotFound(path: string)
    /** A parser error other than decoding: reported at once. */
    | ReadFailed(path: string, message: string)
    /** No encoding decoded the file; the last decoding error is cited. */
    | Undecodable(path: string, lastError: string)
    /** `astype(float)` raised `ValueError` on a cell of a converted column of the file. */
    | NotNumeric(path: string)

  const Encodings: seq<string> := ["utf-8", "latin-1", "iso-8859-1", "cp1252", "windows-1252"]

  /** The options of attempt number `k`: separator ";" and bad lines skipped, with the
      encoding set by the attempt. */
  function AttemptOptions(path: string, indexCol: bool, k: nat): (o: ReadOptions)
    requires k < |Encodings|
    ensures o.sep == ";" && o.onBadLines == "skip" && o.encoding == Encodings[k]
  {
    ReadOptions(path, ";", "skip", indexCol, Encodings[k])
  }

  /** The outcome of the attempts from number `k` on, given the last decoding error. */
  function TryFrom(fs: FileSystem, path: string, indexCol: bool, k: nat, lastError: string)
    : Result<Table, LoadError>
    requires k <= |Encodings|
    decreases |Encodings| - k
  {
    if k == |Encodings| then Err(Undecodable(path, lastError))
    else match fs.read(AttemptOptions(path, indexCol, k))
      case Parsed(t) => Ok(t)
      case Failed(m) => Err(ReadFailed(path, m))
      case DecodeFailed(m) => TryFrom(fs, path, indexCol, k + 1, m)
  }

  /** `_read_csv`, as a function. */
  function ReadCsvResult(fs: FileSystem, path: string, indexCol: bool): Result<Table, LoadError> {
    if !fs.fileExists(path) then Err(FileNotFound(path)) else TryFrom(fs, path, indexCol, 0, "None")
  }

  /** Every attempt before number `k` failed to decode. */
  predicate DecodeFailedBefore(fs: FileSystem, path: string, indexCol: bool, k: nat)
    requires k <= |Encodings|
  {
    forall j :: 0 <= j < k ==> fs.read(AttemptOptions(path, indexCol, j)).DecodeFailed?
  }

  /** What the reader promises: a missing file is reported before any attempt; a table is
      the first one parsed, every earlier attempt having failed to decode; any other error
      stops at once; and "undecodable" means all five encodings failed to decode, citing
      the last one's error. */
  lemma {:induction false} ReadCsvOutcomes(fs: FileSystem, path: string, indexCol: bool)
    ensures !fs.fileExists(path) ==> ReadCsvResult(fs, path, indexCol) == Err(FileNotFound(path))
    ensures fs.fileExists(path) && ReadCsvResult(fs, path, indexCol).Ok? ==>
      exists k :: 0 <= k < |Encodings| && DecodeFailedBefore(fs, path, indexCol, k)
        && fs.read(AttemptOptions(path, indexCol, k)) == Parsed(ReadCsvResult(fs, path, indexCol).value)
    ensures (fs.fileExists(path) && ReadCsvResult(fs, path, indexCol).Err?
             && ReadCsvResult(fs, path, indexCol).error.ReadFailed?) ==>
      exists k :: 0 <= k < |Encodings| && DecodeFailedBefore(fs, path, indexCol, k)
        && fs.read(AttemptOptions(path, indexCol, k)).Failed?
    ensures fs.fileExists(path) ==>
      (ReadCsvResult(fs, path, indexCol).Err? && ReadCsvResult(fs, path, indexCol).error.Undecodable?
       <==> DecodeFailedBefore(fs, path, indexCol, |Encodings|))
    ensures fs.fileExists(path) && DecodeFailedBefore(fs, path, indexCol, |Encodings|) ==>
      ReadCsvResult(fs, path, indexCol)
        == Err(Undecodable(path, fs.read(AttemptOptions(path, indexCol, |Encodings| - 1)).message))
  {
    if fs.fileExists(path) {
      TryFromOutcomes(fs, path, indexCol, 0, "None");
    }
  }

  lemma {:induction false} TryFromOutcomes(fs: FileSystem, path: string, indexCol: bool, k: nat, last: string)
    requires k < |Encodings| && DecodeFailedBefore(fs, path, indexCol, k)
    ensures TryFrom(fs, path, indexCol, k, last).Ok? ==>
      exists j :: k <= j < |Encodings| && DecodeFailedBefore(fs, path, indexCol, j)
        && fs.read(AttemptOptions(path, indexCol, j)) == Parsed(TryFrom(fs, path, indexCol, k, last).value)
    ensures (TryFrom(fs, path, indexCol, k, last).Err?
             && TryFrom(fs, path, indexCol, k, last).error.ReadFailed?) ==>
      exists j :: k <= j < |Encodings| && DecodeFailedBefore(fs, path, indexCol, j)
        && fs.read(AttemptOptions(path, indexCol, j)).Failed?
    ensures TryFrom(fs, path, indexCol, k, last).Err? && TryFrom(fs, path, indexCol, k, last).error.Undecodable?
         <==> DecodeFailedBefore(fs, path, indexCol, |Encodings|)
    ensures DecodeFailedBefore(fs, path, indexCol, |Encodings|) ==>
      TryFrom(fs, path, indexCol, k, last)
        == Err(Undecodable(path, fs.read(AttemptOptions(path, indexCol, |Encodings| - 1)).message))
    decreases |Encodings| - k
  {
    var a := fs.read(AttemptOptions(path, indexCol, k));
    if a.DecodeFailed? {
      assert DecodeFailedBefore(fs, path, indexCol, k + 1);
      assert TryFrom(fs, path, indexCol, k, last) == TryFrom(fs, path, indexCol, k + 1, a.message);
      if k + 1 < |Encodings| {
        TryFromOutcomes(fs, path, indexCol, k + 1, a.message);
        var r := TryFrom(fs, path, indexCol, k + 1, a.message);
        if r.Ok? {
          var j :| k + 1 <= j < |Encodings| && DecodeFailedBefore(fs, path, indexCol, j)
            && fs.read(AttemptOptions(path, indexCol, j)) == Parsed(r.value);
        } else if r.error.ReadFailed? {
          var j :| k + 1 <= j < |Encodings| && DecodeFailedBefore(fs, path, indexCol, j)
            && fs.read(AttemptOptions(path, indexCol, j)).Failed?;
        }
      }
    } else {
      assert !DecodeFailedBefore(fs, path, indexCol, |Encodings|);
    }
  }


  /** `_read_csv`: the existence check, then the encoding loop. */
  method ReadCsv(fs: FileSystem, path: string, indexCol: bool) returns (r: Result<Table, LoadError>)
    ensures r == ReadCsvResult(fs, path, indexCol)
  {
    if !fs.fileExists(path) {
      return Err(FileNotFound(path));
    }
    var lastError := "None";
    var k := 0;
    while k < |Encodings|
      invariant 0 <= k <= |Encodings|
      invariant TryFrom(fs, path, indexCol, k, lastError) == TryFrom(fs, path, indexCol, 0, "None")
    {
      var attempt := fs.read(AttemptOptions(path, indexCol, k));
      match attempt {
        case Parsed(t) =>
          return Ok(t);
        case Failed(m) =>
          return Err(ReadFailed(path, m));
        case DecodeFailed(m) =>
          lastError := m;
      }
      k := k + 1;
    }
    return Err(Undecodable(path, lastError));
  }

  // ---------------------------------------------------------------- datasets

  /** The datasets, one per `load_*` method. */
  datatype Dataset =
    | BalancesVirtuales | Pronosticos | Metrics | ResumenValvulas | Alertas | TopDesbalances
    | TopIndicePerdidas | Correlations | EstadisticasDescriptivas | AnalisisConfiabilidad
    | BenchmarkHistorico | ResumenPronosticoValvulas | ReporteMetricasPerformance
    | PrediccionesConBalance | DatasetMaestro | DatasetTrain | ResumenAnalisisModelos

  /** The cache key of each dataset. */
  function CacheKey(d: Dataset): string {
    match d
    case BalancesVirtuales => "balances_virtuales"
    case Pronosticos => "pronosticos"
    case Metrics => "metrics"
    case ResumenValvulas => "resumen_valvulas"
    case Alertas => "alertas"
    case TopDesbalances => "top_desbalances"
    case TopIndicePerdidas => "top_indice"
    case Correlations => "correlations"
    case EstadisticasDescriptivas => "estadisticas"
    case AnalisisConfiabilidad => "analisis_confiabilidad"
    case BenchmarkHistorico => "benchmark_historico"
    case ResumenPronosticoValvulas => "resumen_pronostico_valvulas"
    case ReporteMetricasPerformance => "reporte_metricas_performance"
    case PrediccionesConBalance => "predicciones_con_balance"
    case DatasetMaestro => "dataset_maestro"
    case DatasetTrain => "dataset_train"
    case ResumenAnalisisModelos => "resumen_analisis_modelos"
  }

  /** The file each dataset is read from, relative to the data directory. */
  function FileOf(d: Dataset): string {
    match d
    case BalancesVirtuales => "Tabla_Balances_Virtuales.csv"
    case Pronosticos => "Pronosticos.csv"
    case Metrics => "Metrics.csv"
    case ResumenValvulas => "Resumen_Valvulas.csv"
    case Alertas => "dashboard/Alertas_Puntos.csv"
    case TopDesbalances => "dashboard/Top_Desbalances.csv"
    case TopIndicePerdidas => "dashboard/Top10_Indice_Perdidas.csv"
    case Correlations => "eda/Matriz_Correlacion.csv"
    case EstadisticasDescriptivas => "eda/Estadisticas_Descriptivas.csv"
    case AnalisisConfiabilidad => "Analisis_Confiabilidad.csv"
    case BenchmarkHistorico => "Benchmark_Historico_vs_Pronostico.csv"
    case ResumenPronosticoValvulas => "Resumen_Pronostico_Valvulas.csv"
    case ReporteMetricasPerformance => "Reporte_Metricas_Performance.csv"
    case PrediccionesConBalance => "Predicciones_Con_Balance.csv"
    case DatasetMaestro => "Dataset_Maestro_Balances.csv"
    case DatasetTrain => "Dataset_Train.csv"
    case ResumenAnalisisModelos => "Resumen_Analisis_Modelos.csv"
  }

  /** The two matrices of the exploratory analysis are read with their first column as the
      index and keep their headers as written; every other dataset has its headers
      cleaned. */
  predicate IsMatrix(d: Dataset) {
    d == Correlations || d == EstadisticasDescriptivas
  }

  /** The table a load stores: the table read, with cleaned headers unless it is a
      matrix. */
  function Prepare(d: Dataset, t: Table): (p: Table)
    ensures p.rows == t.rows
    ensures IsMatrix(d) ==> p.columns == t.columns
    ensures !IsMatrix(d) ==> p.columns == CleanHeaders(t.columns)
  {
    if IsMatrix(d) then t else Table(CleanHeaders(t.columns), t.rows)
  }

  // ---------------------------------------------------------------- numeric conversion

  /** `.str.replace(',', '.')` on one cell. */
  function ReplaceCommas(s: string): (r: string)
    ensures |r| == |s|
    ensures forall i :: 0 <= i < |s| ==> r[i] == (if s[i] == ',' then '.' else s[i])
  {
    if s == [] then [] else [if s[0] == ',' then '.' else s[0]] + ReplaceCommas(s[1..])
  }

  /** `float(str(cell).replace(',', '.'))` succeeds: a NaN cell converts back to NaN. */
  predicate Convertible(fs: FileSystem, cell: string) {
    cell == NaNText || fs.parsesFloat(ReplaceCommas(cell))
  }

  const BalanceNumericColumns: seq<string> := ["ENTRADA_M3", "SALIDA_M3", "PERDIDAS_M3", "INDICE_PERDIDAS_%"]
  const MetricNumericColumns: seq<string> := ["MAE", "RMSE", "MAPE", "MASE"]
  const AlertNumericColumns: seq<string> := ["INDICE_PERDIDAS_%", "ENTRADA_PROMEDIO"]
  const ReliabilityNumericColumns: seq<string> := ["SCORE", "MAE", "MAPE"]
  const PredictionNumericColumns: seq<string> := [
    "VOLUMEN_ENTRADA_FINAL", "VOLUMEN_SALIDA_FINAL", "PERDIDAS_FINAL", "INDICE_PERDIDAS_FINAL",
    "PRED_ENTRADA", "PRED_SALIDA", "PRED_PERDIDAS", "PRED_INDICE_PERDIDAS"]
  const MasterNumericColumns: seq<string> := [
    "VOLUMEN_ENTRADA_FINAL", "VOLUMEN_SALIDA_FINAL", "PERDIDAS_FINAL", "INDICE_PERDIDAS_FINAL",
    "PRESION_FINAL", "TEMPERATURA_FINAL", "KPT_FINAL", "NUM_USUARIOS", "VOLUMEN_ENTRADA_MACRO",
    "VOLUMEN_SALIDA_USUARIOS", "PRESION_MACRO", "TEMPERATURA_MACRO", "KPT_MACRO"]

  /** Whether the loader of `d` converts column `k` of a table with these (prepared) headers
      with `astype(float)`. The top-index table and the descriptive statistics use
      `pd.to_numeric(errors='coerce')`, which never raises, so no column of theirs counts. */
  predicate Converts(d: Dataset, columns: seq<string>, k: nat)
    requires k < |columns|
  {
    var c := columns[k];
    match d
    case BalancesVirtuales => c in BalanceNumericColumns
    case Pronosticos => Includes(c, "PRED_") && c != "PERIODO"
    case Metrics => c in MetricNumericColumns
    case ResumenValvulas => Includes(c, "VOLUMEN") || Includes(c, "INDICE") || Includes(c, "SUM") || Includes(c, "MEAN")
    case Alertas => c in AlertNumericColumns
    case TopDesbalances => c != "VALVULA" && c != "NUM_PERIODOS"
    case TopIndicePerdidas => false
    case Correlations => k > 0
    case EstadisticasDescriptivas => false
    case AnalisisConfiabilidad => c in ReliabilityNumericColumns
    case BenchmarkHistorico => c != "VALVULA"
    case ResumenPronosticoValvulas => c != "VALVULA"
    case ReporteMetricasPerformance => c == "VALOR"
    case PrediccionesConBalance => c in PredictionNumericColumns
    case DatasetMaestro => c in MasterNumericColumns
    case DatasetTrain => c in MasterNumericColumns
    case ResumenAnalisisModelos => c != "MODELO" && c != ""
  }

  /** Every cell of every converted column converts. */
  predicate AllConvertible(fs: FileSystem, d: Dataset, t: Table) {
    forall k, i :: 0 <= k < |t.columns| && 0 <= i < |t.rows| && Converts(d, t.columns, k) ==>
      Convertible(fs, CellAt(t.rows[i], k))
  }

  /** Every cell of column `k` converts. */
  predicate ColumnConvertible(fs: FileSystem, t: Table, k: nat) {
    forall i :: 0 <= i < |t.rows| ==> Convertible(fs, CellAt(t.rows[i], k))
  }

  /** The conversion loop of a `load_*`: each converted column in turn, `astype(float)`
      going through its cells until one fails. */
  method ConvertColumns(fs: FileSystem, d: Dataset, t: Table) returns (ok: bool)
    ensures ok == AllConvertible(fs, d, t)
  {
    var k := 0;
    while k < |t.columns|
      invariant 0 <= k <= |t.columns|
      invariant forall j :: 0 <= j < k && Converts(d, t.columns, j) ==> ColumnConvertible(fs, t, j)
    {
      if Converts(d, t.columns, k) {
        var i := 0;
        while i < |t.rows|
          invariant 0 <= i <= |t.rows|
          invariant forall r :: 0 <= r < i ==> Convertible(fs, CellAt(t.rows[r], k))
        {
          if !Convertible(fs, CellAt(t.rows[i], k)) {
            return false;
          }
          i := i + 1;
        }
      }
      k := k + 1;
    }
    ok := true;
  }

  /** The loaders that coerce with `to_numeric` never fail on a cell. */
  lemma CoercingLoadersConvert(fs: FileSystem, t: Table)
    ensures AllConvertible(fs, TopIndicePerdidas, t) && AllConvertible(fs, EstadisticasDescriptivas, t)
  {
  }

  /** A thousands separator written with a point beside the decimal comma ("1.234,5")
      becomes "1.234.5", which `float()` rejects. */
  lemma ThousandsSeparatorFails(fs: FileSystem)
    requires !fs.parsesFloat("1.234.5")
    ensures !Convertible(fs, "1.234,5")
  {
    assert ReplaceCommas("1.234,5") == "1.234.5";
  }

  /** The dataset a cache key belongs to. */
  function DatasetOfKey(key: string): Option<Dataset> {
    if key == "balances_virtuales" then Some(BalancesVirtuales)
    else if key == "pronosticos" then Some(Pronosticos)
    else if key == "metrics" then Some(Metrics)
    else if key == "resumen_valvulas" then Some(ResumenValvulas)
    else if key == "alertas" then Some(Alertas)
    else if key == "top_desbalances" then Some(TopDesbalances)
    else if key == "top_indice" then Some(TopIndicePerdidas)
    else if key == "correlations" then Some(Correlations)
    else if key == "estadisticas" then Some(EstadisticasDescriptivas)
    else if key == "analisis_confiabilidad" then Some(AnalisisConfiabilidad)
    else if key == "benchmark_historico" then Some(BenchmarkHistorico)
    else if key == "resumen_pronostico_valvulas" then Some(ResumenPronosticoValvulas)
    else if key == "reporte_metricas_performance" then Some(ReporteMetricasPerformance)
    else if key == "predicciones_con_balance" then Some(PrediccionesConBalance)
    else if key == "dataset_maestro" then Some(DatasetMaestro)
    else if key == "dataset_train" then Some(DatasetTrain)
    else if key == "resumen_analisis_modelos" then Some(ResumenAnalisisModelos)
    else None
  }

  /** Each key leads back to its dataset. */
  lemma CacheKeyRoundTrip(d: Dataset)
    ensures DatasetOfKey(CacheKey(d)) == Some(d)
  {
    if d.BalancesVirtuales? || d.Pronosticos? || d.Metrics? || d.ResumenValvulas? || d.Alertas? ||
      d.TopDesbalances? || d.TopIndicePerdidas? {
      KeysRoundTripFirst(d);
    } else if d.Correlations? || d.EstadisticasDescriptivas? || d.AnalisisConfiabilidad? ||
      d.BenchmarkHistorico? {
      KeysRoundTripSecond(d);
    } else if d.ResumenPronosticoValvulas? || d.ReporteMetricasPerformance? {
      KeysRoundTripThird(d);
    } else if d.PrediccionesConBalance? || d.DatasetMaestro? {
      KeysRoundTripFourth(d);
    } else if d.DatasetTrain? {
      KeysRoundTripFifth(d);
    } else {
      KeysRoundTripSixth(d);
    }
  }

  // The datasets are split in groups to keep each comparison of literals small.
  lemma KeysRoundTripFirst(d: Dataset)
    requires d.BalancesVirtuales? || d.Pronosticos? || d.Metrics? || d.ResumenValvulas? || d.Alertas? ||
      d.TopDesbalances? || d.TopIndicePerdidas?
    ensures DatasetOfKey(CacheKey(d)) == Some(d)
  {
  }

  lemma KeysRoundTripSecond(d: Dataset)
    requires d.Correlations? || d.EstadisticasDescriptivas? || d.AnalisisConfiabilidad? ||
      d.BenchmarkHistorico?
    ensures DatasetOfKey(CacheKey(d)) == Some(d)
  {
  }

  lemma KeysRoundTripThird(d: Dataset)
    requires d.ResumenPronosticoValvulas? || d.ReporteMetricasPerformance?
    ensures DatasetOfKey(CacheKey(d)) == Some(d)
  {
  }

  lemma KeysRoundTripFourth(d: Dataset)
    requires d.PrediccionesConBalance? || d.DatasetMaestro?
    ensures DatasetOfKey(CacheKey(d)) == Some(d)
  {
  }

  lemma KeysRoundTripFifth(d: Dataset)
    requires d.DatasetTrain?
    ensures DatasetOfKey(CacheKey(d)) == Some(d)
  {
  }

  lemma KeysRoundTripSixth(d: Dataset)
    requires d.ResumenAnalisisModelos?
    ensures DatasetOfKey(CacheKey(d)) == Some(d)
  {
  }

  /** Two datasets never share a cache entry. */
  lemma CacheKeysDistinct(d: Dataset, e: Dataset)
    requires d != e
    ensures CacheKey(d) != CacheKey(e)
  {
    CacheKeyRoundTrip(d);
    CacheKeyRoundTrip(e);
  }

  /** The outcome of a load and the cache after it, as functions of the cache before. */
  function LoadResult(cache: map<string, Table>, d: Dataset, useCache: bool, fs: FileSystem)
    : Result<Table, LoadError>
  {
    if useCache && CacheKey(d) in cache then Ok(cache[CacheKey(d)])
    else match ReadCsvResult(fs, FileOf(d), IsMatrix(d))
      case Err(e) => Err(e)
      case Ok(t) =>
        var p := Prepare(d, t);
        if AllConvertible(fs, d, p) then Ok(p) else Err(NotNumeric(FileOf(d)))
  }

  function CacheAfter(cache: map<string, Table>, d: Dataset, useCache: bool, fs: FileSystem)
    : (c: map<string, Table>)
    ensures c.Keys == cache.Keys || c.Keys == cache.Keys + {CacheKey(d)}
  {
    if useCache && CacheKey(d) in cache then cache
    else match LoadResult(cache, d, useCache, fs)
      case Err(_) => cache
      case Ok(t) => cache[CacheKey(d) := t]
  }

  /** A hit is served from the cache without touching the files. */
  lemma CacheHit(cache: map<string, Table>, d: Dataset, fs: FileSystem)
    requires CacheKey(d) in cache
    ensures LoadResult(cache, d, true, fs) == Ok(cache[CacheKey(d)])
    ensures CacheAfter(cache, d, true, fs) == cache
  {
  }

  /** After a successful load the same table is served from the cache, whether the first
      load read the file or not. */
  lemma LoadThenHit(cache: map<string, Table>, d: Dataset, useCache: bool, fs: FileSystem, fs2: FileSystem)
    requires LoadResult(cache, d, useCache, fs).Ok?
    ensures LoadResult(CacheAfter(cache, d, useCache, fs), d, true, fs2) == LoadResult(cache, d, useCache, fs)
  {
  }

  /** A load leaves the entries of every other dataset as they were. */
  lemma LoadKeepsOthers(cache: map<string, Table>, d: Dataset, e: Dataset, useCache: bool, fs: FileSystem)
    requires d != e
    ensures CacheKey(e) in CacheAfter(cache, d, useCache, fs) <==> CacheKey(e) in cache
    ensures CacheKey(e) in cache ==> CacheAfter(cache, d, useCache, fs)[CacheKey(e)] == cache[CacheKey(e)]
  {
    CacheKeysDistinct(d, e);
  }

  /** On a miss the table is read, prepared and converted, and stored only when all three
      succeed: a failed read or a cell `astype(float)` rejects leaves the cache as it was. */
  lemma LoadMiss(cache: map<string, Table>, d: Dataset, useCache: bool, fs: FileSystem)
    requires !(useCache && CacheKey(d) in cache)
    ensures ReadCsvResult(fs, FileOf(d), IsMatrix(d)).Err? ==>
      LoadResult(cache, d, useCache, fs) == Err(ReadCsvResult(fs, FileOf(d), IsMatrix(d)).error)
      && CacheAfter(cache, d, useCache, fs) == cache
    ensures ReadCsvResult(fs, FileOf(d), IsMatrix(d)).Ok? ==>
      var p := Prepare(d, ReadCsvResult(fs, FileOf(d), IsMatrix(d)).value);
      (AllConvertible(fs, d, p) ==>
         LoadResult(cache, d, useCache, fs) == Ok(p) && CacheAfter(cache, d, useCache, fs) == cache[CacheKey(d) := p])
      && (!AllConvertible(fs, d, p) ==>
         LoadResult(cache, d, useCache, fs) == Err(NotNumeric(FileOf(d))) && CacheAfter(cache, d, useCache, fs) == cache)
  {
    var read := ReadCsvResult(fs, FileOf(d), IsMatrix(d));
    if read.Ok? {
      var p := Prepare(d, read.value);
      if AllConvertible(fs, d, p) {
        LoadStores(cache, d, useCache, fs);
      } else {
        LoadRejects(cache, d, useCache, fs);
      }
    }
  }

  /** A read whose converted columns all convert is returned and cached. */
  lemma LoadStores(cache: map<string, Table>, d: Dataset, useCache: bool, fs: FileSystem)
    requires !(useCache && CacheKey(d) in cache)
    requires ReadCsvResult(fs, FileOf(d), IsMatrix(d)).Ok?
    requires AllConvertible(fs, d, Prepare(d, ReadCsvResult(fs, FileOf(d), IsMatrix(d)).value))
    ensures var p := Prepare(d, ReadCsvResult(fs, FileOf(d), IsMatrix(d)).value);
      LoadResult(cache, d, useCache, fs) == Ok(p) && CacheAfter(cache, d, useCache, fs) == cache[CacheKey(d) := p]
  {
  }

  /** A read with a cell that does not convert ends in the `ValueError`, before the store. */
  lemma LoadRejects(cache: map<string, Table>, d: Dataset, useCache: bool, fs: FileSystem)
    requires !(useCache && CacheKey(d) in cache)
    requires ReadCsvResult(fs, FileOf(d), IsMatrix(d)).Ok?
    requires !AllConvertible(fs, d, Prepare(d, ReadCsvResult(fs, FileOf(d), IsMatrix(d)).value))
    ensures LoadResult(cache, d, useCache, fs) == Err(NotNumeric(FileOf(d)))
    ensures CacheAfter(cache, d, useCache, fs) == cache
  {
  }

  /** A failed load leaves the cache as it was; with `use_cache` false a successful load
      replaces the entry by the table read. */
  lemma LoadMissOutcome(cache: map<string, Table>, d: Dataset, fs: FileSystem)
    ensures LoadResult(cache, d, false, fs).Err? ==> CacheAfter(cache, d, false, fs) == cache
    ensures LoadResult(cache, d, false, fs).Ok? ==>
      CacheAfter(cache, d, false, fs) == cache[CacheKey(d) := LoadResult(cache, d, false, fs).value]
      && LoadResult(cache, d, false, fs)
         == Ok(Prepare(d, ReadCsvResult(fs, FileOf(d), IsMatrix(d)).value))
  {
  }

  const ValvePrefix := "VALVULA_"

  /** VALVULA_1 to VALVULA_5. */
  const FallbackValves: seq<string> :=
    [ValvePrefix + "1", ValvePrefix + "2", ValvePrefix + "3", ValvePrefix + "4", ValvePrefix + "5"]

  /** Strings with a common prefix are ordered by the first character after it. */
  lemma {:induction false} StrLtAfterPrefix(p: string, a: string, b: string)
    requires a != [] && b != [] && a[0] < b[0]
    ensures StrLt(p + a, p + b)
  {
    if p != [] {
      assert (p + a)[1..] == p[1..] + a && (p + b)[1..] == p[1..] + b;
      StrLtAfterPrefix(p[1..], a, b);
    }
  }

  /** The fallback list is already sorted. */
  lemma FallbackSorted()
    ensures StrictlySortedStrings(FallbackValves)
  {
    var p := ValvePrefix;
    forall i, j | 0 <= i < j < 5
      ensures StrLt(FallbackValves[i], FallbackValves[j])
    {
      StrLtAfterPrefix(p, FallbackValves[i][8..], FallbackValves[j][8..]);
      assert FallbackValves[i] == p + FallbackValves[i][8..];
      assert FallbackValves[j] == p + FallbackValves[j][8..];
    }
  }

  /** A column holding NaN next to some other value: `sorted` then compares the float NaN
      with a string and raises `TypeError`. */
  predicate MixesNaN(c: seq<string>) {
    NaNText in c && exists i :: 0 <= i < |c| && c[i] != NaNText
  }

  /** `sorted(df['PUNTO'].unique())`, or the five fallback valves when loading fails, there
      is no PUNTO column, or the sort fails on a NaN among the valves. */
  function ValvesOf(loaded: Result<Table, LoadError>): (vs: seq<string>)
    ensures StrictlySortedStrings(vs)
    ensures loaded.Ok? && Column(loaded.value, "PUNTO").Some? && !MixesNaN(Column(loaded.value, "PUNTO").value) ==>
      forall v :: v in vs <==> v in Column(loaded.value, "PUNTO").value
    ensures loaded.Err? || Column(loaded.value, "PUNTO").None? || MixesNaN(Column(loaded.value, "PUNTO").value) ==>
      vs == FallbackValves
  {
    if loaded.Ok? && Column(loaded.value, "PUNTO").Some? && !MixesNaN(Column(loaded.value, "PUNTO").value) then
      SortedDistinctStrings(Column(loaded.value, "PUNTO").value)
    else
      FallbackSorted();
      FallbackValves
  }

  /** A row too short to hold a PUNTO reads NaN there, so a table with one named valve and
      such a row lists the fallback valves, not the named one. */
  lemma NaNValveFallsBack(v: string)
    requires v != NaNText
    ensures ValvesOf(Ok(Table(["PERIODO", "PUNTO"], [["202301", v], ["202302"]]))) == FallbackValves
  {
    var t := Table(["PERIODO", "PUNTO"], [["202301", v], ["202302"]]);
    assert ColumnIndex(t.columns, "PUNTO") == Some(1);
    var c := Column(t, "PUNTO").value;
    assert c[0] == v && c[1] == NaNText;
    assert MixesNaN(c);
  }

  /** A balances file that reads but holds a cell `astype(float)` rejects is not cached,
      and both listings fall back: the five valves, and no period. */
  lemma UnconvertibleFallsBack(cache: map<string, Table>, fs: FileSystem, valvula: Option<string>)
    requires CacheKey(BalancesVirtuales) !in cache
    requires ReadCsvResult(fs, FileOf(BalancesVirtuales), false).Ok?
    requires !AllConvertible(fs, BalancesVirtuales, Prepare(BalancesVirtuales, ReadCsvResult(fs, FileOf(BalancesVirtuales), false).value))
    ensures ValvesOf(LoadResult(cache, BalancesVirtuales, true, fs)) == FallbackValves
    ensures PeriodsOf(LoadResult(cache, BalancesVirtuales, true, fs), valvula) == []
    ensures CacheAfter(cache, BalancesVirtuales, true, fs) == cache
  {
  }

  /** The periods of the rows kept: all rows, or those whose PUNTO is the valve. */
  function PeriodsOf(loaded: Result<Table, LoadError>, valvula: Option<string>): (ps: seq<string>)
    ensures StrictlySortedStrings(ps)
    ensures loaded.Err? ==> ps == []
    ensures loaded.Ok? && Column(loaded.value, "PERIODO").None? ==> ps == []
    ensures loaded.Ok? && Truthy(valvula) && Column(loaded.value, "PUNTO").None? ==> ps == []
    ensures (loaded.Ok? && Column(loaded.value, "PERIODO").Some?
             && (!Truthy(valvula) || Column(loaded.value, "PUNTO").Some?)) ==>
      forall p :: p in ps <==>
        exists i :: 0 <= i < |loaded.value.rows| && Column(loaded.value, "PERIODO").value[i] == p
          && (Truthy(valvula) ==> SameValve(Column(loaded.value, "PUNTO").value[i], valvula.value))
  {
    if loaded.Err? then []
    else
      var t := loaded.value;
      var periodo := Column(t, "PERIODO");
      var punto := Column(t, "PUNTO");
      if periodo.None? || (Truthy(valvula) && punto.None?) then []
      else
        var selected := KeptPeriods(periodo.value, punto, valvula, 0);
        SortedDistinctStrings(selected)
  }

  /** `df['PUNTO'] == valvula` on one cell: a NaN cell equals no valve. */
  predicate SameValve(cell: string, valvula: string) {
    cell == valvula && cell != NaNText
  }

  /** The periods of the rows from `i` on whose PUNTO matches the valve (every row when no
      valve is given). */
  function KeptPeriods(periodo: seq<string>, punto: Option<seq<string>>, valvula: Option<string>, i: nat)
    : (r: seq<string>)
    requires i <= |periodo|
    requires Truthy(valvula) ==> punto.Some? && |punto.value| == |periodo|
    ensures forall p :: p in r <==>
      exists j :: i <= j < |periodo| && periodo[j] == p && (Truthy(valvula) ==> SameValve(punto.value[j], valvula.value))
    decreases |periodo| - i
  {
    if i == |periodo| then []
    else
      var keep := !Truthy(valvula) || SameValve(punto.value[i], valvula.value);
      var rest := KeptPeriods(periodo, punto, valvula, i + 1);
      if keep then [periodo[i]] + rest else rest
  }

  // ---------------------------------------------------------------- the loader

  /** The loader and its cache of tables. Tables are values, so a table returned is a copy
      that the caller cannot use to alter the cache. */
  class Loader {
    var cache: map<string, Table>

    constructor ()
      ensures cache == map[]
    {
      cache := map[];
    }

    /** A `load_*` method: served from the cache when allowed and present, otherwise read,
        prepared and stored under the dataset's key. */
    method Load(d: Dataset, useCache: bool, fs: FileSystem) returns (r: Result<Table, LoadError>)
      modifies this
      ensures r == LoadResult(old(cache), d, useCache, fs)
      ensures cache == CacheAfter(old(cache), d, useCache, fs)
    {
      var key := CacheKey(d);
      if useCache && key in cache {
        return Ok(cache[key]);
      }
      var read := ReadCsv(fs, FileOf(d), IsMatrix(d));
      LoadMiss(cache, d, useCache, fs);
      if read.Err? {
        return Err(read.error);
      }
      var prepared := Prepare(d, read.value);
      var converted := ConvertColumns(fs, d, prepared);
      if !converted {
        return Err(NotNumeric(FileOf(d)));
      }
      cache := cache[key := prepared];
      return Ok(prepared);
    }

    /** `clear_cache`. */
    method ClearCache()
      modifies this
      ensures cache == map[]
    {
      cache := map[];
    }

    /** `get_available_valvulas`: loads the balances (through the cache). */
    method AvailableValves(fs: FileSystem) returns (vs: seq<string>)
      modifies this
      ensures vs == ValvesOf(LoadResult(old(cache), BalancesVirtuales, true, fs))
      ensures cache == CacheAfter(old(cache), BalancesVirtuales, true, fs)
    {
      var loaded := Load(BalancesVirtuales, true, fs);
      vs := ValvesOf(loaded);
    }

    /** `get_available_periodos`: loads the balances (through the cache). */
    method AvailablePeriods(fs: FileSystem, valvula: Option<string>) returns (ps: seq<string>)
      modifies this
      ensures ps == PeriodsOf(LoadResult(old(cache), BalancesVirtuales, true, fs), valvula)
      ensures cache == CacheAfter(old(cache), BalancesVirtuales, true, fs)
    {
      var loaded := Load(BalancesVirtuales, true, fs);
      ps := PeriodsOf(loaded, valvula);
    }
  }
}
