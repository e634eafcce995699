/** The alerts REST service of the frontend (frontend/src/services/alertsService.js): the
    query string of `getAll`, the `updateStatus` request, the error its `fetchAPI` throws,
    and the label and colour lookups for severities and states. */
module AlertsService {
  import opened Wrappers
  import opened Text
  import opened Seqs
  import ApiClient

  // ---------------------------------------------------------------- getAll

  /** The optional filters `getAll` accepts. */
  datatype AlertFilters = AlertFilters(
    nivel: Option<string>, valvula: Option<string>, estado: Option<string>,
    tipo: Option<string>, severidad: Option<string>)

  /** The filters in the order `getAll` examines them, each with its parameter name. */
  function Candidates(f: AlertFilters): (c: seq<(string, Option<string>)>)
    ensures |c| == 5
  {
    [("nivel", f.nivel), ("valvula", f.valvula), ("estado", f.estado), ("tipo", f.tipo),
     ("severidad", f.severidad)]
  }

  predicate TruthyParam(c: (string, Option<string>)) {
    Truthy(c.1)
  }

  /** The parameters appended to the query: the truthy filters, in the fixed order. */
  function QueryParams(f: AlertFilters): seq<(string, Option<string>)> {
    Filter(Candidates(f), TruthyParam)
  }

  /** `key=value` for each parameter (percent-encoding is not modelled). */
  function Encode(ps: seq<(string, Option<string>)>): (r: seq<string>)
    ensures |r| == |ps|
    ensures forall i :: 0 <= i < |ps| ==> r[i] == ps[i].0 + "=" + ps[i].1.GetOr("")
  {
    if ps == [] then [] else [ps[0].0 + "=" + ps[0].1.GetOr("")] + Encode(ps[1..])
  }

  lemma EncodeAppend(a: seq<(string, Option<string>)>, b: seq<(string, Option<string>)>)
    ensures Encode(a + b) == Encode(a) + Encode(b)
  {
  }

  /** The endpoint for a list of query parameters: no "?" when there are none. */
  function AlertsEndpoint(ps: seq<(string, Option<string>)>): string {
    if ps == [] then "/api/alerts/" else "/api/alerts/?" + Join(Encode(ps), "&")
  }

  /** `getAll(filters)`: each truthy filter is appended in turn, then the endpoint is chosen
      by whether the query string is empty. */
  method GetAllEndpoint(f: AlertFilters) returns (e: string)
    ensures e == AlertsEndpoint(QueryParams(f))
  {
    var params := AppendFilters(f);
    var queryString := Join(params, "&");
    if params != [] {
      JoinNonEmpty(params);
    }
    if queryString != "" {
      e := "/api/alerts/?" + queryString;
    } else {
      e := "/api/alerts/";
    }
  }

  /** The `append` calls of `getAll`, in order. */
  method AppendFilters(f: AlertFilters) returns (params: seq<string>)
    ensures params == Encode(QueryParams(f))
  {
    params := [];
    ghost var seen: seq<(string, Option<string>)> := [];
    params := AppendIfTruthy(params, "nivel", f.nivel);
    FilterSnoc(seen, ("nivel", f.nivel));
    seen := seen + [("nivel", f.nivel)];
    assert params == Encode(Filter(seen, TruthyParam));
    params := AppendIfTruthy(params, "valvula", f.valvula);
    FilterSnoc(seen, ("valvula", f.valvula));
    seen := seen + [("valvula", f.valvula)];
    assert params == Encode(Filter(seen, TruthyParam));
    params := AppendIfTruthy(params, "estado", f.estado);
    FilterSnoc(seen, ("estado", f.estado));
    seen := seen + [("estado", f.estado)];
    assert params == Encode(Filter(seen, TruthyParam));
    params := AppendIfTruthy(params, "tipo", f.tipo);
    FilterSnoc(seen, ("tipo", f.tipo));
    seen := seen + [("tipo", f.tipo)];
    assert params == Encode(Filter(seen, TruthyParam));
    params := AppendIfTruthy(params, "severidad", f.severidad);
    FilterSnoc(seen, ("severidad", f.severidad));
    seen := seen + [("severidad", f.severidad)];
    assert params == Encode(Filter(seen, TruthyParam));
    CandidatesInOrder(f);
  }

  /** The candidates, as `getAll` appends them one by one. */
  lemma CandidatesInOrder(f: AlertFilters)
    ensures Candidates(f) == [] + [("nivel", f.nivel)] + [("valvula", f.valvula)] + [("estado", f.estado)]
      + [("tipo", f.tipo)] + [("severidad", f.severidad)]
  {
  }

  /** `if (value) params.append(key, value)`. */
  method AppendIfTruthy(params: seq<string>, key: string, value: Option<string>)
    returns (r: seq<string>)
    ensures r == params + Encode(Filter([(key, value)], TruthyParam))
  {
    r := params;
    if Truthy(value) {
      r := r + [key + "=" + value.value];
    }
    assert [(key, value)][1..] == [];
  }

  /** Examining one more candidate appends its parameter exactly when it is truthy. */
  lemma FilterSnoc(seen: seq<(string, Option<string>)>, x: (string, Option<string>))
    ensures Encode(Filter(seen + [x], TruthyParam))
         == Encode(Filter(seen, TruthyParam)) + Encode(Filter([x], TruthyParam))
  {
    FilterAppend(seen, [x], TruthyParam);
    EncodeAppend(Filter(seen, TruthyParam), Filter([x], TruthyParam));
  }

  /** A joined list of `key=value` parameters is never empty. */
  lemma JoinNonEmpty(ps: seq<string>)
    requires ps != [] && forall i :: 0 <= i < |ps| ==> '=' in ps[i]
    ensures Join(ps, "&") != ""
  {
    if |ps| > 1 {
      assert Join(ps, "&")[|Join(ps[..|ps| - 1], "&")|] == '&';
    }
  }

  /** With no truthy filter, `getAll` requests "/api/alerts/" with no query. */
  lemma NoFilterNoQuery(f: AlertFilters)
    requires forall i :: 0 <= i < 5 ==> !TruthyParam(Candidates(f)[i])
    ensures AlertsEndpoint(QueryParams(f)) == "/api/alerts/"
  {
    FilterNoneKept(Candidates(f));
  }

  lemma {:induction false} FilterNoneKept(c: seq<(string, Option<string>)>)
    requires forall i :: 0 <= i < |c| ==> !TruthyParam(c[i])
    ensures Filter(c, TruthyParam) == []
  {
    if c != [] {
      FilterNoneKept(c[1..]);
    }
  }

  /** The query holds exactly the truthy filters, in the order nivel, valvula, estado, tipo,
      severidad. */
  lemma QueryParamsExact(f: AlertFilters)
    ensures IsSubseq(QueryParams(f), Candidates(f))
    ensures forall i :: 0 <= i < |QueryParams(f)| ==> TruthyParam(QueryParams(f)[i])
    ensures forall i :: 0 <= i < 5 && TruthyParam(Candidates(f)[i]) ==>
      Candidates(f)[i] in QueryParams(f)
  {
    FilterIsSubseq(Candidates(f), TruthyParam);
  }

  // ---------------------------------------------------------------- updateStatus and errors

  /** A request as `fetchAPI` sends it; the JSON body is given as its key/value pairs. */
  datatype Request = Request(endpoint: string, httpMethod: string, body: seq<(string, string)>)

  /** `updateStatus(alertId, newStatus)`. */
  function UpdateStatusRequest(alertId: int, newStatus: string): (r: Request)
    ensures r.httpMethod == "PATCH" && r.body == [("estado", newStatus)]
    ensures IsPrefix("/api/alerts/", r.endpoint)
  {
    Request("/api/alerts/" + IntToString(alertId), "PATCH", [("estado", newStatus)])
  }

  /** Different alerts are updated through different endpoints. */
  lemma UpdateStatusTargetsOneAlert(a: int, b: int, s: string, t: string)
    requires UpdateStatusRequest(a, s).endpoint == UpdateStatusRequest(b, t).endpoint
    ensures a == b
  {
    var p := "/api/alerts/";
    assert UpdateStatusRequest(a, s).endpoint[|p|..] == IntToString(a);
    assert UpdateStatusRequest(b, t).endpoint[|p|..] == IntToString(b);
    IntToStringInjective(a, b);
  }

  /** This service's `fetchAPI` on a non-ok response: a body that is not JSON is read as
      `{}`, so the message falls back to "HTTP error! status: n". */
  function ServiceFetchError(body: ApiClient.ErrorBody, status: int): (m: string)
    ensures body.NotJson? ==> m == ApiClient.StatusMessage(status)
    ensures body.JsonBody? ==> ApiClient.FetchErrorOf(body, status) == ApiClient.HttpFailure(m)
  {
    match body
    case NotJson => ApiClient.StatusMessage(status)
    case JsonBody(d) => if Truthy(d) then d.value else ApiClient.StatusMessage(status)
  }

  // ---------------------------------------------------------------- labels and colours

  const KnownSeverities: set<string> := {"critica", "alta", "media", "baja"}
  const KnownStates: set<string> := {"pendiente", "revisada", "resuelta"}

  /** The class strings of the four tones. */
  const ErrorColours := "text-error bg-error/10 border-error"
  const WarningColours := "text-warning bg-warning/10 border-warning"
  const SecondaryColours := "text-secondary bg-secondary/10 border-secondary"
  const SuccessColours := "text-success bg-success/10 border-success"

  lemma ColoursDistinct()
    ensures ErrorColours != WarningColours && ErrorColours != SecondaryColours && ErrorColours != SuccessColours
    ensures WarningColours != SecondaryColours && WarningColours != SuccessColours
    ensures SecondaryColours != SuccessColours
  {
    assert WarningColours[5] != SuccessColours[5];
  }

  /** `getSeverityColor`: unknown severities get the colours of "media". */
  function SeverityColor(severidad: string): (r: string)
    ensures r in {ErrorColours, WarningColours, SecondaryColours, SuccessColours}
  {
    if severidad == "critica" then ErrorColours
    else if severidad == "alta" then WarningColours
    else if severidad == "baja" then SuccessColours
    else SecondaryColours
  }

  /** An unknown severity is coloured as "media". */
  lemma SeverityColorFallback(s: string)
    requires s !in KnownSeverities
    ensures SeverityColor(s) == SeverityColor("media")
  {
  }

  /** The four known severities are told apart by colour. */
  lemma SeverityColorsDistinct(a: string, b: string)
    requires a in KnownSeverities && b in KnownSeverities && a != b
    ensures SeverityColor(a) != SeverityColor(b)
  {
    ColoursDistinct();
  }

  /** `getStatusColor`: unknown states get the colours of "pendiente". */
  function StatusColor(estado: string): (r: string)
    ensures r in {ErrorColours, WarningColours, SuccessColours}
  {
    if estado == "revisada" then WarningColours
    else if estado == "resuelta" then SuccessColours
    else ErrorColours
  }

  /** An unknown state is coloured as "pendiente". */
  lemma StatusColorFallback(s: string)
    requires s !in KnownStates
    ensures StatusColor(s) == StatusColor("pendiente")
  {
  }

  /** The three known states are told apart by colour. */
  lemma StatusColorsDistinct(a: string, b: string)
    requires a in KnownStates && b in KnownStates && a != b
    ensures StatusColor(a) != StatusColor(b)
  {
    ColoursDistinct();
  }

  /** `getSeverityLabel`: Spanish labels for the known codes, anything else unchanged. */
  function SeverityLabel(severidad: string): (r: string)
    ensures severidad !in KnownSeverities <==> r == severidad
  {
    if severidad == "critica" then "Crítica"
    else if severidad == "alta" then "Alta"
    else if severidad == "media" then "Media"
    else if severidad == "baja" then "Baja"
    else severidad
  }

  /** The code a severity label stands for. */
  function SeverityOfLabel(l: string): (r: Option<string>)
    ensures r.Some? ==> r.value in KnownSeverities
  {
    if l == "Crítica" then Some("critica")
    else if l == "Alta" then Some("alta")
    else if l == "Media" then Some("media")
    else if l == "Baja" then Some("baja")
    else None
  }

  /** Known severity labels read back as their code. */
  lemma SeverityLabelRoundTrip(s: string)
    requires s in KnownSeverities
    ensures SeverityOfLabel(SeverityLabel(s)) == Some(s)
  {
  }

  /** `getStatusLabel`: the known states capitalised, anything else unchanged. */
  function StatusLabel(estado: string): (r: string)
    ensures estado !in KnownStates <==> r == estado
  {
    if estado == "pendiente" then "Pendiente"
    else if estado == "revisada" then "Revisada"
    else if estado == "resuelta" then "Resuelta"
    else estado
  }

  /** `caption` is `code` with its first letter, a small ASCII letter, capitalised. */
  predicate Capitalises(caption: string, code: string) {
    |caption| == |code| && |code| > 0 && caption[1..] == code[1..]
    && 'A' <= caption[0] <= 'Z' && caption[0] as int + 32 == code[0] as int
  }

  /** A known state's label is the state with its first letter capitalised. */
  lemma StatusLabelCapitalises(s: string)
    requires s in KnownStates
    ensures Capitalises(StatusLabel(s), s)
  {
  }
}
