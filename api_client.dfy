/** Endpoint and query-string construction of the frontend's REST client
    (frontend/src/services/api.js) and the error message its `fetchAPI` throws. The request
    itself (`fetch`) is not modelled: a response is given as data. */
module ApiClient {
  import opened Wrappers
  import opened Text

  /** `import.meta.env.VITE_API_URL || "http://localhost:8000"`. */
  function BaseUrl(env: Option<string>): (r: string)
    ensures Truthy(env) ==> r == env.value
    ensures !Truthy(env) ==> r == "http://localhost:8000"
  {
    if Truthy(env) then env.value else "http://localhost:8000"
  }

  /** The URL a request goes to: the base followed by the endpoint. */
  function Url(base: string, endpoint: string): (r: string)
    ensures IsPrefix(base, r) && r[|base|..] == endpoint
  {
    base + endpoint
  }

  /** The body of a non-ok response: parsed JSON with an optional `detail`, or text that is
      not JSON. */
  datatype ErrorBody = JsonBody(detail: Option<string>) | NotJson

  /** The error a failed request throws. */
  datatype FetchError = HttpFailure(message: string) | JsonParseFailure

  /** `fetchAPI` on a non-ok response: the server's `detail` when truthy, otherwise
      "HTTP error! status: n". Here the body is parsed without a fallback, so a body that is
      not JSON throws the parse error instead. */
  function FetchErrorOf(body: ErrorBody, status: int): (e: FetchError)
    ensures body.NotJson? <==> e == JsonParseFailure
    ensures body.JsonBody? && Truthy(body.detail) ==> e == HttpFailure(body.detail.value)
    ensures body.JsonBody? && !Truthy(body.detail) ==>
      e == HttpFailure(StatusMessage(status))
  {
    match body
    case NotJson => JsonParseFailure
    case JsonBody(d) => HttpFailure(if Truthy(d) then d.value else StatusMessage(status))
  }

  function StatusMessage(status: int): (m: string)
    ensures IsPrefix("HTTP error! status: ", m)
  {
    "HTTP error! status: " + IntToString(status)
  }

  /** Distinct status codes give distinct fallback messages. */
  lemma StatusMessageInjective(a: int, b: int)
    requires StatusMessage(a) == StatusMessage(b)
    ensures a == b
  {
    var p := "HTTP error! status: ";
    assert StatusMessage(a)[|p|..] == IntToString(a);
    assert StatusMessage(b)[|p|..] == IntToString(b);
    IntToStringInjective(a, b);
  }

  /** `?valvula_id=…` when the id is truthy, otherwise nothing. */
  function ValveQuery(valvulaId: Option<string>): (q: string)
    ensures !Truthy(valvulaId) <==> q == ""
    ensures Truthy(valvulaId) ==> q == "?valvula_id=" + valvulaId.value
  {
    if Truthy(valvulaId) then "?valvula_id=" + valvulaId.value else ""
  }

  /** A path followed by the valve query: the shape `getLossIndexEvolution` and `getMetrics`
      share. */
  function ValveFiltered(path: string, valvulaId: Option<string>): (e: string)
    ensures IsPrefix(path, e)
    ensures !Truthy(valvulaId) ==> e == path
    ensures Truthy(valvulaId) ==> e == path + "?valvula_id=" + valvulaId.value
  {
    path + ValveQuery(valvulaId)
  }

  /** `getLossIndexEvolution(valvulaId)`. */
  function LossIndexEvolutionEndpoint(valvulaId: Option<string>): (e: string)
    ensures !Truthy(valvulaId) ==> e == "/api/dashboard/loss-index-evolution"
    ensures Truthy(valvulaId) ==> e == "/api/dashboard/loss-index-evolution?valvula_id=" + valvulaId.value
  {
    assert "/api/dashboard/loss-index-evolution" + "?valvula_id=" == "/api/dashboard/loss-index-evolution?valvula_id=";
    ValveFiltered("/api/dashboard/loss-index-evolution", valvulaId)
  }

  /** `getMetrics(valvulaId)`. */
  function MetricsEndpoint(valvulaId: Option<string>): (e: string)
    ensures IsPrefix("/api/models/metrics", e)
    ensures !Truthy(valvulaId) ==> e == "/api/models/metrics"
    ensures Truthy(valvulaId) ==> e == "/api/models/metrics?valvula_id=" + valvulaId.value
  {
    assert "/api/models/metrics" + "?valvula_id=" == "/api/models/metrics?valvula_id=";
    ValveFiltered("/api/models/metrics", valvulaId)
  }

  /** `getTopValves(limit)`: the limit given, or 5 when the argument is left out, written in
      decimal. */
  function TopValvesEndpoint(limit: Option<int>): (e: string)
    ensures limit.None? ==> e == "/api/dashboard/top-valves?limit=5"
    ensures limit.Some? ==> e == "/api/dashboard/top-valves?limit=" + IntToString(limit.value)
  {
    "/api/dashboard/top-valves?limit=" + IntToString(limit.GetOr(5))
  }

  /** Distinct limits ask for distinct URLs. */
  lemma TopValvesEndpointInjective(a: int, b: int)
    requires TopValvesEndpoint(Some(a)) == TopValvesEndpoint(Some(b))
    ensures a == b
  {
    var p := "/api/dashboard/top-valves?limit=";
    assert TopValvesEndpoint(Some(a))[|p|..] == IntToString(a);
    assert TopValvesEndpoint(Some(b))[|p|..] == IntToString(b);
    IntToStringInjective(a, b);
  }

  /** A path followed by `?metric=` and the metric, "mae" when left out: the shape `getBest`
      and `getBestByValve` share. */
  function MetricQueried(path: string, metric: Option<string>): (e: string)
    ensures IsPrefix(path + "?metric=", e)
    ensures metric.None? ==> e == path + "?metric=mae"
    ensures metric.Some? ==> e == path + "?metric=" + metric.value
  {
    path + "?metric=" + metric.GetOr("mae")
  }

  /** `getBest(metric)`: the metric given, "mae" by default. */
  function BestEndpoint(metric: Option<string>): (e: string)
    ensures IsPrefix("/api/models/best?metric=", e)
    ensures metric.None? ==> e == "/api/models/best?metric=mae"
    ensures metric.Some? ==> e == "/api/models/best?metric=" + metric.value
  {
    assert "/api/models/best" + "?metric=" == "/api/models/best?metric=";
    MetricQueried("/api/models/best", metric)
  }

  /** `getBestByValve(metric)`: the metric given, "mae" by default. */
  function BestByValveEndpoint(metric: Option<string>): (e: string)
    ensures IsPrefix("/api/models/best-by-valve?metric=", e)
    ensures metric.None? ==> e == "/api/models/best-by-valve?metric=mae"
    ensures metric.Some? ==> e == "/api/models/best-by-valve?metric=" + metric.value
  {
    assert "/api/models/best-by-valve" + "?metric=" == "/api/models/best-by-valve?metric=";
    MetricQueried("/api/models/best-by-valve", metric)
  }

  const BalancesPath := "/api/balances/"
  const InicioParam := "periodo_inicio="
  const FinParam := "periodo_fin="

  /** `getByValve(valvulaId, periodoInicio, periodoFin)`: the present periods are pushed in
      the order start, end, and joined with "&" after a "?"; with none there is no "?". */
  method ByValveEndpoint(valvulaId: string, inicio: Option<string>, fin: Option<string>)
    returns (e: string)
    ensures !Truthy(inicio) && !Truthy(fin) ==> e == BalancesPath + valvulaId
    ensures Truthy(inicio) && !Truthy(fin) ==>
      e == BalancesPath + valvulaId + "?" + InicioParam + inicio.value
    ensures !Truthy(inicio) && Truthy(fin) ==>
      e == BalancesPath + valvulaId + "?" + FinParam + fin.value
    ensures Truthy(inicio) && Truthy(fin) ==>
      e == BalancesPath + valvulaId + "?" + InicioParam + inicio.value + "&" + FinParam + fin.value
  {
    var params: seq<string> := [];
    if Truthy(inicio) {
      params := params + [InicioParam + inicio.value];
    }
    if Truthy(fin) {
      params := params + [FinParam + fin.value];
    }
    var query := if |params| > 0 then "?" + Join(params, "&") else "";
    var base := BalancesPath + valvulaId;
    e := base + query;
    if Truthy(inicio) && Truthy(fin) {
      var a, b := InicioParam + inicio.value, FinParam + fin.value;
      assert params == [a, b];
      JoinTwo(a, b, "&");
      Regroup(base, "?", InicioParam, inicio.value, "&", FinParam, fin.value);
    } else if Truthy(inicio) {
      assert params == [InicioParam + inicio.value];
      Regroup(base, "?", InicioParam, inicio.value, [], [], []);
    } else if Truthy(fin) {
      assert params == [FinParam + fin.value];
      Regroup(base, "?", FinParam, fin.value, [], [], []);
    }
  }

  /** A query string built from grouped parts reads the same left to right. */
  lemma Regroup(base: string, q: string, k1: string, v1: string, sep: string, k2: string, v2: string)
    ensures base + (q + ((k1 + v1) + sep + (k2 + v2))) == base + q + k1 + v1 + sep + k2 + v2
    ensures base + (q + (k1 + v1)) == base + q + k1 + v1
  {
  }

  /** `getComparison(metric, valvulaId)`: the metric (default "mae") always comes first,
      the valve id is appended when truthy. */
  method ComparisonEndpoint(metric: Option<string>, valvulaId: Option<string>)
    returns (e: string)
    ensures !Truthy(valvulaId) ==> e == "/api/models/comparison?metric=" + metric.GetOr("mae")
    ensures Truthy(valvulaId) ==>
      e == "/api/models/comparison?metric=" + metric.GetOr("mae") + "&valvula_id=" + valvulaId.value
  {
    var first := "metric=" + metric.GetOr("mae");
    var params := [first];
    if Truthy(valvulaId) {
      var second := "valvula_id=" + valvulaId.value;
      params := params + [second];
      JoinTwo(first, second, "&");
      assert params == [first, second];
      e := "/api/models/comparison?" + Join(params, "&");
      Append4("/api/models/comparison?", first, "&", second);
      assert "/api/models/comparison?" + first == "/api/models/comparison?metric=" + metric.GetOr("mae");
      assert "&" + second == "&valvula_id=" + valvulaId.value;
      Append3("/api/models/comparison?metric=" + metric.GetOr("mae"), "&", "valvula_id=" + valvulaId.value);
    } else {
      e := "/api/models/comparison?" + Join(params, "&");
    }
  }

  /** Concatenation of three strings does not depend on grouping. */
  lemma Append3(a: string, b: string, c: string)
    ensures a + (b + c) == a + b + c
  {
  }

  /** Concatenation of four strings does not depend on grouping. */
  lemma Append4(a: string, b: string, c: string, d: string)
    ensures a + (b + c + d) == (a + b) + (c + d)
  {
  }
}
