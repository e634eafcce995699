/** The reliability routes (backend/app/api/routes/reliability.py): the reliability score of
    the model of every valve, optionally of one valve, with their mean; and the score of one
    valve. */
module ReliabilityRoute {
  import opened Wrappers
  import opened Text
  import opened Seqs
  import opened Frames

  /** A row of the reliability analysis; a NaN cell is `None`, as is a `MAE` or `MAPE` that
      `row.get` does not find. */
  datatype ReliabilityRow = ReliabilityRow(
    valvula: string, score: Option<real>, nivel: string, mejorModelo: string,
    mae: Option<real>, mape: Option<real>)

  datatype ReliabilityScore = ReliabilityScore(
    valvula: string, score: real, nivel: string, mejorModelo: string, mae: real, mape: real)

  datatype ReliabilityResponse = ReliabilityResponse(valves: seq<ReliabilityScore>, promedioScore: real, totalValvulas: nat)

  /** An entry: the row's fields, with NaN numbers reported as 0. */
  function ScoreOf(r: ReliabilityRow): ReliabilityScore {
    ReliabilityScore(r.valvula, NanToZero(r.score), r.nivel, r.mejorModelo, NanToZero(r.mae), NanToZero(r.mape))
  }

  /** The columns the list route indexes, in the order it reads them: `row['VALVULA']`,
      `row['NIVEL']` and `row['MEJOR_MODELO']` for each entry, then `df['SCORE']` for the
      mean. */
  const ListColumns: seq<string> := ["VALVULA", "NIVEL", "MEJOR_MODELO", "SCORE"]

  /** The columns the single-valve route indexes in the row it answers with, after the
      `VALVULA` its filter reads. */
  const EntryColumns: seq<string> := ["NIVEL", "MEJOR_MODELO"]

  predicate OfValve(r: ReliabilityRow, id: string) {
    r.valvula == id
  }

  /** `if valvula_id: df = df[df['VALVULA'] == valvula_id]`. */
  function ByValve(rows: seq<ReliabilityRow>, id: Option<string>): seq<ReliabilityRow> {
    if Truthy(id) then Filter(rows, (r: ReliabilityRow) => OfValve(r, id.value)) else rows
  }

  /** The rows kept are those of the requested valve (all rows without a filter), in table
      order. */
  lemma ByValveKeeps(rows: seq<ReliabilityRow>, id: Option<string>)
    ensures IsSubseq(ByValve(rows, id), rows)
    ensures forall r :: r in ByValve(rows, id) <==> r in rows && (Truthy(id) ==> r.valvula == id.value)
  {
    if Truthy(id) {
      FilterIsSubseq(rows, (r: ReliabilityRow) => OfValve(r, id.value));
    } else {
      SubseqRefl(rows);
    }
  }

  function Scores(rows: seq<ReliabilityRow>): (c: seq<Option<real>>)
    ensures |c| == |rows| && forall k :: 0 <= k < |rows| ==> c[k] == rows[k].score
  {
    seq(|rows|, k requires 0 <= k < |rows| => rows[k].score)
  }

  function NoInfoDetail(id: string): string {
    "No se encontró información de confiabilidad para " + id
  }

  const ScoresPrefix := "Error al obtener scores de confiabilidad: "

  function ScoresOutcome(loaded: LoadedTable<ReliabilityRow>, id: Option<string>): Result<ReliabilityResponse, Raised> {
    if loaded.Err? then LoadFailure(loaded.error)
    else
      var t := loaded.value;
      if t.rows == [] then Ok(ReliabilityResponse([], 0.0, 0))
      else if Truthy(id) && "VALVULA" !in t.columns then Err(OtherRaised(KeyErrorMessage("VALVULA")))
      else
        var df := ByValve(t.rows, id);
        if Truthy(id) && df == [] then Err(HttpRaised(404, NoInfoDetail(id.value)))
        else match FirstMissing(t.columns, ListColumns)
          case Some(c) => Err(OtherRaised(KeyErrorMessage(c)))
          case None => Ok(ReliabilityResponse(Mapped(df, ScoreOf), MeanOrZero(Scores(df)), |df|))
  }

  /** `get_reliability_scores`, as a function. */
  function ReliabilityScores(loaded: LoadedTable<ReliabilityRow>, id: Option<string>): Result<ReliabilityResponse, HttpError> {
    Handle(ScoresPrefix, true, ScoresOutcome(loaded, id))
  }

  /** `get_reliability_scores`: one entry per row kept, appended in order, then the mean
      score of the rows kept. The first row kept already reads every column but `SCORE`, so
      a missing column raises before any entry is appended. */
  method GetReliabilityScores(loaded: LoadedTable<ReliabilityRow>, id: Option<string>)
    returns (r: Result<ReliabilityResponse, HttpError>)
    ensures r == ReliabilityScores(loaded, id)
  {
    if loaded.Err? {
      return Err(HttpError(500, ScoresPrefix + loaded.error));
    }
    var t := loaded.value;
    if t.rows == [] {
      return Ok(ReliabilityResponse([], 0.0, 0));
    }
    if Truthy(id) && "VALVULA" !in t.columns {
      return Err(HttpError(500, ScoresPrefix + KeyErrorMessage("VALVULA")));
    }
    var df := ByValve(t.rows, id);
    if Truthy(id) && df == [] {
      return Err(HttpError(404, NoInfoDetail(id.value)));
    }
    var missing := FirstMissing(t.columns, ListColumns);
    if missing.Some? {
      assert ScoresOutcome(loaded, id) == Err(OtherRaised(KeyErrorMessage(missing.value)));
      return Err(HttpError(500, ScoresPrefix + KeyErrorMessage(missing.value)));
    }
    var scores: seq<ReliabilityScore> := [];
    var i := 0;
    while i < |df|
      invariant 0 <= i <= |df|
      invariant |scores| == i && forall k :: 0 <= k < i ==> scores[k] == ScoreOf(df[k])
    {
      scores := scores + [ScoreOf(df[i])];
      i := i + 1;
    }
    assert scores == Mapped(df, ScoreOf);
    assert ScoresOutcome(loaded, id) == Ok(ReliabilityResponse(scores, MeanOrZero(Scores(df)), |df|));
    r := Ok(ReliabilityResponse(scores, MeanOrZero(Scores(df)), |scores|));
  }

  /** No data at all is an empty answer; a requested valve with no rows is a 404 that
      reaches the client unchanged. */
  lemma ScoresErrors(loaded: LoadedTable<ReliabilityRow>, id: Option<string>)
    requires loaded.Ok?
    ensures loaded.value.rows == [] ==> ReliabilityScores(loaded, id) == Ok(ReliabilityResponse([], 0.0, 0))
    ensures (loaded.value.rows != [] && Truthy(id) && "VALVULA" in loaded.value.columns
             && forall k :: 0 <= k < |loaded.value.rows| ==> loaded.value.rows[k].valvula != id.value) ==>
      ReliabilityScores(loaded, id) == Err(HttpError(404, NoInfoDetail(id.value)))
  {
    var t := loaded.value;
    if t.rows != [] && Truthy(id) && (forall k :: 0 <= k < |t.rows| ==> t.rows[k].valvula != id.value) {
      var df := ByValve(t.rows, id);
      if df != [] {
        assert df[0] in t.rows;
      }
    }
  }

  /** Once there are rows to list, a column the route indexes and the table lacks is a 500
      naming the first such column in reading order; `SCORE` is among them, although each
      entry reads it with a default. */
  lemma ScoresMissingColumn(loaded: LoadedTable<ReliabilityRow>, id: Option<string>, c: string)
    requires loaded.Ok? && loaded.value.rows != []
    requires Truthy(id) ==> "VALVULA" in loaded.value.columns && ByValve(loaded.value.rows, id) != []
    requires FirstMissing(loaded.value.columns, ListColumns) == Some(c)
    ensures ReliabilityScores(loaded, id) == Err(HttpError(500, ScoresPrefix + KeyErrorMessage(c)))
    ensures c in ListColumns && c !in loaded.value.columns
  {
  }

  /** An answer lists exactly the rows of the requested valve (every row without a filter),
      in table order, with NaN reported as 0; the mean is that of the present scores of the
      same rows, `total_valvulas` counts the entries, and every column read was there. */
  lemma ScoresListed(loaded: LoadedTable<ReliabilityRow>, id: Option<string>)
    requires ReliabilityScores(loaded, id).Ok?
    ensures var resp := ReliabilityScores(loaded, id).value;
      var df := ByValve(loaded.value.rows, id);
      resp.valves == Mapped(df, ScoreOf)
      && resp.promedioScore == MeanOrZero(Scores(df))
      && resp.totalValvulas == |resp.valves|
      && (df != [] ==> forall k :: 0 <= k < |ListColumns| ==> ListColumns[k] in loaded.value.columns)
    ensures forall r :: r in ByValve(loaded.value.rows, id) <==>
      r in loaded.value.rows && (Truthy(id) ==> r.valvula == id.value)
    ensures IsSubseq(ByValve(loaded.value.rows, id), loaded.value.rows)
  {
    ByValveKeeps(loaded.value.rows, id);
    if loaded.value.rows == [] {
      assert ByValve(loaded.value.rows, id) == [];
    }
  }

  /** `promedio_score` is the mean of the scores present, while a NaN score is listed as 0:
      a row whose score is NaN, added to any table the list route answers, is listed with
      the score 0 and leaves the mean unchanged. */
  lemma MeanSkipsListedZero(columns: seq<string>, rows: seq<ReliabilityRow>, r: ReliabilityRow)
    requires rows != [] && forall k :: 0 <= k < |ListColumns| ==> ListColumns[k] in columns
    requires r.score.None?
    ensures var before := ReliabilityScores(Ok(Table(columns, rows)), None);
      var after := ReliabilityScores(Ok(Table(columns, rows + [r])), None);
      before.Ok? && after.Ok?
      && after.value.valves == before.value.valves + [ScoreOf(r)]
      && after.value.valves[|rows|].score == 0.0
      && after.value.promedioScore == before.value.promedioScore
  {
    assert FirstMissing(columns, ListColumns) == None;
    assert Scores(rows + [r]) == Scores(rows) + [None];
    PresentAppendNaN(Scores(rows));
    assert Mapped(rows + [r], ScoreOf) == Mapped(rows, ScoreOf) + [ScoreOf(r)];
  }

  /** The mean is 0 when no score is present; it is at least 0 when no score is negative. */
  lemma MeanNonNegative(loaded: LoadedTable<ReliabilityRow>, id: Option<string>)
    requires ReliabilityScores(loaded, id).Ok?
    requires forall k :: 0 <= k < |loaded.value.rows| && loaded.value.rows[k].score.Some? ==>
      loaded.value.rows[k].score.value >= 0.0
    ensures ReliabilityScores(loaded, id).value.promedioScore >= 0.0
  {
    var t := loaded.value;
    if t.rows != [] {
      var df := ByValve(t.rows, id);
      forall k | 0 <= k < |df| && df[k].score.Some? ensures df[k].score.value >= 0.0
      {
        assert df[k] in t.rows;
      }
      MeanOrZeroNonNegative(Scores(df));
    }
  }

  // ---------------------------------------------------------------- one valve

  function NotFoundDetail(id: string): string {
    "Válvula '" + id + "' no encontrada"
  }

  function ValvePrefix(id: string): string {
    "Error al obtener confiabilidad de " + id + ": "
  }

  function ValveOutcome(loaded: LoadedTable<ReliabilityRow>, id: string): Result<ReliabilityScore, Raised> {
    if loaded.Err? then LoadFailure(loaded.error)
    else if "VALVULA" !in loaded.value.columns then Err(OtherRaised(KeyErrorMessage("VALVULA")))
    else
      var m := Filter(loaded.value.rows, (r: ReliabilityRow) => OfValve(r, id));
      if m == [] then Err(HttpRaised(404, NotFoundDetail(id)))
      else match FirstMissing(loaded.value.columns, EntryColumns)
        case Some(c) => Err(OtherRaised(KeyErrorMessage(c)))
        case None => Ok(ScoreOf(m[0]))
  }

  /** `get_valve_reliability`. */
  function ValveReliability(loaded: LoadedTable<ReliabilityRow>, id: string): Result<ReliabilityScore, HttpError> {
    Handle(ValvePrefix(id), true, ValveOutcome(loaded, id))
  }

  /** The score of one valve is that of its first row, or a 404 when it has none; a table
      without `VALVULA` is a 500 before any row is looked at, and one without a column the
      entry reads is a 500 once a row is found. */
  lemma ValveReliabilityFirst(loaded: LoadedTable<ReliabilityRow>, id: string)
    requires loaded.Ok?
    ensures "VALVULA" !in loaded.value.columns ==>
      ValveReliability(loaded, id) == Err(HttpError(500, ValvePrefix(id) + KeyErrorMessage("VALVULA")))
    ensures var k := FirstIndex(loaded.value.rows, (r: ReliabilityRow) => OfValve(r, id));
      var missing := FirstMissing(loaded.value.columns, EntryColumns);
      "VALVULA" in loaded.value.columns ==>
        (k.None? ==> ValveReliability(loaded, id) == Err(HttpError(404, NotFoundDetail(id))))
        && (k.Some? && missing.Some? ==>
              ValveReliability(loaded, id) == Err(HttpError(500, ValvePrefix(id) + KeyErrorMessage(missing.value))))
        && (k.Some? && missing.None? ==> ValveReliability(loaded, id) == Ok(ScoreOf(loaded.value.rows[k.value])))
  {
    FilterHead(loaded.value.rows, (r: ReliabilityRow) => OfValve(r, id));
  }

  /** On a table with every column the list reads, the single-valve route succeeds exactly
      when the list route does for that valve, and answers with its first entry; otherwise
      both fail with a 404. */
  lemma SingleIsFirstOfList(loaded: LoadedTable<ReliabilityRow>, id: string)
    requires loaded.Ok? && loaded.value.rows != [] && id != ""
    requires forall k :: 0 <= k < |ListColumns| ==> ListColumns[k] in loaded.value.columns
    ensures ValveReliability(loaded, id).Ok? <==> ReliabilityScores(loaded, Some(id)).Ok?
    ensures ValveReliability(loaded, id).Ok? ==>
      ReliabilityScores(loaded, Some(id)).value.valves[0] == ValveReliability(loaded, id).value
    ensures ValveReliability(loaded, id).Err? ==> ReliabilityScores(loaded, Some(id)).error.status == 404
  {
    assert ListColumns[0] in loaded.value.columns;
    assert FirstMissing(loaded.value.columns, ListColumns) == None;
    assert FirstMissing(loaded.value.columns, EntryColumns) == None by {
      assert ListColumns[1] == EntryColumns[0] && ListColumns[2] == EntryColumns[1];
    }
  }
}
