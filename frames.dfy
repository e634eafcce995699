/** What the backend routes share: the HTTP error a request ends with, the exception
    handler wrapped around every route body, and the NaN conventions of the tables they
    read. A table is a sequence of records; a cell that is NaN (or a column `row.get`
    does not find) is `None`. */
module Frames {
  import opened Wrappers
  import opened Text
  import opened Seqs

  /** The HTTP error a request ends with. */
  datatype HttpError = HttpError(status: nat, detail: string)

  /** What a route body raises: an `HTTPException`, or any other exception with its
      message. */
  datatype Raised = HttpRaised(status: nat, detail: string) | OtherRaised(message: string)

  /** `str(e)`: an HTTP exception prints as "status: detail". */
  function Message(e: Raised): string {
    match e
    case HttpRaised(s, d) => NatToString(s) + ": " + d
    case OtherRaised(m) => m
  }

  /** `str(KeyError(c))`. */
  function KeyErrorMessage(c: string): string {
    "'" + c + "'"
  }

  /** The handler around a route body. With `except HTTPException: raise` first
      (`rethrowsHttp`) an HTTP exception leaves unchanged; every other exception, and an
      HTTP exception when there is no such clause, becomes a 500 whose detail is the
      route's prefix followed by the exception's text. */
  function Handle<T>(prefix: string, rethrowsHttp: bool, outcome: Result<T, Raised>)
    : (r: Result<T, HttpError>)
    ensures r.Ok? <==> outcome.Ok?
    ensures r.Ok? ==> r.value == outcome.value
    ensures outcome.Err? && outcome.error.HttpRaised? && rethrowsHttp ==>
      r == Err(HttpError(outcome.error.status, outcome.error.detail))
    ensures outcome.Err? && !(outcome.error.HttpRaised? && rethrowsHttp) ==>
      r.Err? && r.error.status == 500 && IsPrefix(prefix, r.error.detail)
  {
    match outcome
    case Ok(v) => Ok(v)
    case Err(HttpRaised(s, d)) =>
      if rethrowsHttp then Err(HttpError(s, d)) else Err(HttpError(500, prefix + Message(outcome.error)))
    case Err(OtherRaised(m)) => Err(HttpError(500, prefix + m))
  }

  /** A table as a route receives it from the loader: its rows, or the message of the
      exception loading raised. */
  type Loaded<R> = Result<seq<R>, string>

  /** A table together with the names of its columns, for the routes where a column that
      `df[c]` or `row[c]` does not find raises a `KeyError`. */
  datatype Table<R> = Table(columns: seq<string>, rows: seq<R>)

  /** Such a table as the loader hands it over, or the message of what loading raised. */
  type LoadedTable<R> = Result<Table<R>, string>

  /** The first of the `required` columns, in the order the route reads them, that the table
      lacks: the one whose `KeyError` the route raises. */
  function FirstMissing(columns: seq<string>, required: seq<string>): (m: Option<string>)
    ensures m.None? <==> forall k :: 0 <= k < |required| ==> required[k] in columns
    ensures m.Some? ==> m.value !in columns
    ensures m.Some? ==> exists k :: (0 <= k < |required| && required[k] == m.value
                                     && forall j :: 0 <= j < k ==> required[j] in columns)
  {
    if required == [] then None
    else if required[0] !in columns then Some(required[0])
    else
      var rest := FirstMissing(columns, required[1..]);
      assert forall k :: 1 <= k < |required| ==> required[k] == required[1..][k - 1];
      rest
  }

  /** Loading failed: the exception reaches the handler. */
  function LoadFailure<T>(m: string): Result<T, Raised> {
    Err(OtherRaised(m))
  }

  /** A loop that computes one entry per key and appends it, where computing an entry may
      raise: every entry in order, or the first exception raised. */
  function CollectAll<K, U>(keys: seq<K>, f: K -> Result<U, Raised>): (r: Result<seq<U>, Raised>)
    ensures r.Ok? ==> |r.value| == |keys| && forall k :: 0 <= k < |keys| ==> f(keys[k]) == Ok(r.value[k])
    ensures r.Err? ==> exists k :: (0 <= k < |keys| && f(keys[k]) == Err(r.error)
      && forall j :: 0 <= j < k ==> f(keys[j]).Ok?)
  {
    if keys == [] then Ok([])
    else
      var n := |keys| - 1;
      match CollectAll(keys[..n], f)
      case Err(e) => Err(e)
      case Ok(l) =>
        var last := f(keys[n]);
        if last.Err? then Err(last.error) else Ok(l + [last.value])
  }

  /** The first key whose entry raises decides the outcome. */
  lemma {:induction false} CollectAllFirstError<K, U>(keys: seq<K>, f: K -> Result<U, Raised>, i: nat)
    requires i < |keys| && CollectAll(keys[..i], f).Ok? && f(keys[i]).Err?
    ensures CollectAll(keys, f) == Err(f(keys[i]).error)
  {
    var n := |keys| - 1;
    if i < n {
      assert keys[..n][..i] == keys[..i];
      CollectAllFirstError(keys[..n], f, i);
    } else {
      assert keys[..n] == keys[..i];
    }
  }

  /** One more key whose entry does not raise appends that entry. */
  lemma CollectAllSnoc<K, U>(keys: seq<K>, f: K -> Result<U, Raised>, i: nat, l: seq<U>)
    requires i < |keys| && CollectAll(keys[..i], f) == Ok(l) && f(keys[i]).Ok?
    ensures CollectAll(keys[..i + 1], f) == Ok(l + [f(keys[i]).value])
  {
    assert keys[..i + 1][..i] == keys[..i];
  }

  /** The loop `CollectAll` describes: the entry of every key appended in order, stopping at
      the first that raises. */
  method Collect<K, U>(keys: seq<K>, f: K -> Result<U, Raised>) returns (r: Result<seq<U>, Raised>)
    ensures r == CollectAll(keys, f)
  {
    var entries: seq<U> := [];
    var i := 0;
    while i < |keys|
      invariant 0 <= i <= |keys|
      invariant CollectAll(keys[..i], f) == Ok(entries)
    {
      var entry := f(keys[i]);
      if entry.Err? {
        CollectAllFirstError(keys, f, i);
        return Err(entry.error);
      }
      CollectAllSnoc(keys, f, i, entries);
      entries := entries + [entry.value];
      i := i + 1;
    }
    assert keys[..i] == keys;
    r := Ok(entries);
  }

  /** The entry of every key, in order. */
  function Mapped<K, U>(keys: seq<K>, f: K -> U): (r: seq<U>)
    ensures |r| == |keys| && forall k :: 0 <= k < |keys| ==> r[k] == f(keys[k])
  {
    seq(|keys|, k requires 0 <= k < |keys| => f(keys[k]))
  }

  /** The loop `Mapped` describes: the entry of every key appended in order. */
  method MapEach<K, U>(keys: seq<K>, f: K -> U) returns (r: seq<U>)
    ensures r == Mapped(keys, f)
  {
    r := [];
    var i := 0;
    while i < |keys|
      invariant 0 <= i <= |keys|
      invariant |r| == i && forall k :: 0 <= k < i ==> r[k] == f(keys[k])
    {
      r := r + [f(keys[i])];
      i := i + 1;
    }
  }

  /** `float(v) if pd.notna(v) else 0.0`. */
  function NanToZero(v: Option<real>): real {
    v.GetOr(0.0)
  }

  /** `abs(float(v)) if pd.notna(v) else 0.0`. */
  function AbsOrZero(v: Option<real>): (r: real)
    ensures r >= 0.0
    ensures v.Some? ==> r == Abs(v.value)
  {
    if v.Some? then Abs(v.value) else 0.0
  }

  /** `series.mean()` reported as 0.0 when it is NaN. */
  function MeanOrZero(s: seq<Option<real>>): real {
    MeanSkipNaN(s).GetOr(0.0)
  }

  /** `int(v)`: truncation toward zero. */
  function Truncate(v: real): (n: int)
    ensures v >= 0.0 ==> n as real <= v < n as real + 1.0
    ensures v < 0.0 ==> n as real - 1.0 < v <= n as real
  {
    if v >= 0.0 then v.Floor else -((-v).Floor)
  }

  /** A mean of non-negative cells is non-negative. */
  lemma MeanOrZeroNonNegative(s: seq<Option<real>>)
    requires forall i :: 0 <= i < |s| && s[i].Some? ==> s[i].value >= 0.0
    ensures MeanOrZero(s) >= 0.0
  {
    forall j | 0 <= j < |s| && s[j].Some? ensures 0.0 <= s[j].value <= Max(s)
    {
      MaxBound(s, j);
    }
    MeanBounds(s, 0.0, Max(s));
  }

  /** The largest present cell, 0 when there is none. */
  function Max(s: seq<Option<real>>): real {
    if s == [] then 0.0
    else
      var rest := Max(s[1..]);
      if s[0].Some? && s[0].value > rest then s[0].value else rest
  }

  lemma {:induction false} MaxBound(s: seq<Option<real>>, j: nat)
    requires j < |s| && s[j].Some?
    ensures s[j].value <= Max(s)
  {
    if j > 0 {
      MaxBound(s[1..], j - 1);
    }
  }
}
