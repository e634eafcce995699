/** The correlation routes (backend/app/api/routes/correlations.py): the strongest positive
    and negative pairs of the correlation matrix, the correlations of one variable, and the
    scatter plot of two variables of the master dataset. */
module CorrelationsRoute {
  import opened Wrappers
  import opened Text
  import opened Seqs
  import opened Sorting
  import opened Frames
  import DataLoader

  /** The correlation matrix as loaded: row labels, column labels and the cells row by row;
      a NaN cell is `None`. */
  datatype CorrMatrix = CorrMatrix(index: seq<string>, columns: seq<string>, cells: seq<seq<Option<real>>>)

  /** `corr_df.empty`: a frame without rows or without columns. */
  predicate IsEmpty(m: CorrMatrix) {
    m.index == [] || m.columns == []
  }

  /** `corr_df.iloc[i, j]`; a position outside the stored cells reads NaN. */
  function Cell(m: CorrMatrix, i: nat, j: nat): Option<real> {
    if i < |m.cells| && j < |m.cells[i]| then m.cells[i][j] else None
  }

  const NoDataDetail := "Datos de correlación no disponibles"

  /** Python's `repr` of a list of strings, `['a', 'b']`. */
  function PyListRepr(names: seq<string>): string {
    "[" + Join(seq(|names|, k requires 0 <= k < |names| => "'" + names[k] + "'"), ", ") + "]"
  }

  function UnknownVariableDetail(name: string, available: seq<string>): string {
    "Variable '" + name + "' no encontrada. Disponibles: " + PyListRepr(available)
  }

  // ---------------------------------------------------------------- the upper triangle

  datatype CorrelationPair = CorrelationPair(var1: string, var2: string, corr: real)

  /** `p` is the cell (i, j) strictly above the diagonal, and that cell is not NaN. */
  predicate FromCell(m: CorrMatrix, p: CorrelationPair, i: int, j: int) {
    0 <= i < |m.index| && i < j < |m.columns| && Cell(m, i, j) == Some(p.corr)
    && p.var1 == m.index[i] && p.var2 == m.columns[j]
  }

  /** The pairs of row `i` taken from its first `j` columns, in column order. */
  function RowPairs(m: CorrMatrix, i: nat, j: nat): seq<CorrelationPair>
    requires i < |m.index| && j <= |m.columns|
  {
    if j == 0 then []
    else
      RowPairs(m, i, j - 1)
      + (if i < j - 1 && Cell(m, i, j - 1).Some?
         then [CorrelationPair(m.index[i], m.columns[j - 1], Cell(m, i, j - 1).value)] else [])
  }

  /** The pairs of the first `i` rows, row by row. */
  function UpperPairs(m: CorrMatrix, i: nat): seq<CorrelationPair>
    requires i <= |m.index|
  {
    if i == 0 then [] else UpperPairs(m, i - 1) + RowPairs(m, i - 1, |m.columns|)
  }

  /** Every pair of the matrix, in the order the two loops of the route visit them. */
  function Pairs(m: CorrMatrix): seq<CorrelationPair> {
    UpperPairs(m, |m.index|)
  }

  /** The nested loop over `mask = np.triu(..., k=1)`: the cells strictly above the diagonal
      that are not NaN, row by row and column by column. */
  method UpperTriangle(m: CorrMatrix) returns (pairs: seq<CorrelationPair>)
    ensures pairs == Pairs(m)
  {
    pairs := [];
    var i := 0;
    while i < |m.index|
      invariant 0 <= i <= |m.index|
      invariant pairs == UpperPairs(m, i)
    {
      var j := 0;
      while j < |m.columns|
        invariant 0 <= j <= |m.columns|
        invariant pairs == UpperPairs(m, i) + RowPairs(m, i, j)
      {
        if i < j {
          var c := Cell(m, i, j);
          if c.Some? {
            pairs := pairs + [CorrelationPair(m.index[i], m.columns[j], c.value)];
          }
        }
        j := j + 1;
      }
      i := i + 1;
    }
  }

  lemma {:induction false} RowPairsSound(m: CorrMatrix, i: nat, j: nat)
    requires i < |m.index| && j <= |m.columns|
    ensures forall p :: p in RowPairs(m, i, j) ==> exists jj :: FromCell(m, p, i, jj)
  {
    if j > 0 {
      RowPairsSound(m, i, j - 1);
      forall p | p in RowPairs(m, i, j) ensures exists jj :: FromCell(m, p, i, jj) {
        if p !in RowPairs(m, i, j - 1) {
          assert FromCell(m, p, i, j - 1);
        }
      }
    }
  }

  lemma {:induction false} RowPairsComplete(m: CorrMatrix, i: nat, j: nat)
    requires i < |m.index| && j <= |m.columns|
    ensures forall jj :: i < jj < j && Cell(m, i, jj).Some? ==>
      CorrelationPair(m.index[i], m.columns[jj], Cell(m, i, jj).value) in RowPairs(m, i, j)
  {
    if j > 0 {
      RowPairsComplete(m, i, j - 1);
    }
  }

  lemma {:induction false} UpperPairsSound(m: CorrMatrix, i: nat)
    requires i <= |m.index|
    ensures forall p :: p in UpperPairs(m, i) ==> exists r, c :: FromCell(m, p, r, c)
  {
    if i > 0 {
      UpperPairsSound(m, i - 1);
      RowPairsSound(m, i - 1, |m.columns|);
    }
  }

  lemma {:induction false} UpperPairsComplete(m: CorrMatrix, i: nat)
    requires i <= |m.index|
    ensures forall r, c :: 0 <= r < i && r < c < |m.columns| && Cell(m, r, c).Some? ==>
      CorrelationPair(m.index[r], m.columns[c], Cell(m, r, c).value) in UpperPairs(m, i)
  {
    if i > 0 {
      UpperPairsComplete(m, i - 1);
      RowPairsComplete(m, i - 1, |m.columns|);
    }
  }

  /** The pairs are exactly the cells strictly above the diagonal that are not NaN: the
      diagonal, the lower triangle and NaN cells are never listed, and every other cell is. */
  lemma PairsExact(m: CorrMatrix)
    ensures forall p :: p in Pairs(m) ==> exists i, j :: FromCell(m, p, i, j)
    ensures forall i, j :: 0 <= i < |m.index| && i < j < |m.columns| && Cell(m, i, j).Some? ==>
      CorrelationPair(m.index[i], m.columns[j], Cell(m, i, j).value) in Pairs(m)
  {
    UpperPairsSound(m, |m.index|);
    UpperPairsComplete(m, |m.index|);
  }

  // ---------------------------------------------------------------- top correlations

  /** The sort key: ascending in it is descending in `|corr|`. */
  function StrengthKey(p: CorrelationPair): real {
    -Abs(p.corr)
  }

  predicate IsPositive(p: CorrelationPair) {
    p.corr > 0.0
  }

  predicate IsNegative(p: CorrelationPair) {
    p.corr < 0.0
  }

  /** `correlations.sort(key=lambda x: abs(x['corr']), reverse=True)`; Python keeps equal
      keys in their original order under `reverse=True`, as the stable ascending sort on the
      negated key does. */
  function ByStrength(pairs: seq<CorrelationPair>): seq<CorrelationPair> {
    SortBy(pairs, StrengthKey)
  }

  /** `s[:limit]`: the first `limit` elements; a negative limit drops that many from the end. */
  function Head<T>(s: seq<T>, limit: int): (r: seq<T>)
    ensures limit >= 0 ==> |r| == (if limit < |s| then limit else |s|)
    ensures limit < 0 ==> |r| == (if |s| + limit > 0 then |s| + limit else 0)
    ensures r == s[..|r|]
  {
    if limit >= 0 then (if limit < |s| then s[..limit] else s)
    else if |s| + limit > 0 then s[..|s| + limit] else []
  }

  datatype TopCorrelations = TopCorrelations(topPositive: seq<CorrelationPair>, topNegative: seq<CorrelationPair>)

  function TopOf(pairs: seq<CorrelationPair>, limit: int): TopCorrelations {
    var sorted := ByStrength(pairs);
    TopCorrelations(Head(Filter(sorted, IsPositive), limit), Head(Filter(sorted, IsNegative), limit))
  }

  const TopPrefix := "Error al obtener top correlaciones: "

  function TopOutcome(loaded: Result<CorrMatrix, string>, limit: int): Result<TopCorrelations, Raised> {
    if loaded.Err? then LoadFailure(loaded.error)
    else if IsEmpty(loaded.value) then Err(HttpRaised(404, NoDataDetail))
    else Ok(TopOf(Pairs(loaded.value), limit))
  }

  /** `get_top_correlations`, as a function. */
  function TopCorrelationsRoute(loaded: Result<CorrMatrix, string>, limit: int): Result<TopCorrelations, HttpError> {
    Handle(TopPrefix, true, TopOutcome(loaded, limit))
  }

  /** `get_top_correlations`: the pairs collected by the nested loop, sorted by strength,
      then split by sign and cut to `limit`. */
  method GetTopCorrelations(loaded: Result<CorrMatrix, string>, limit: int)
    returns (r: Result<TopCorrelations, HttpError>)
    ensures r == TopCorrelationsRoute(loaded, limit)
  {
    if loaded.Err? {
      return Err(HttpError(500, TopPrefix + loaded.error));
    }
    if IsEmpty(loaded.value) {
      return Err(HttpError(404, NoDataDetail));
    }
    var correlations := UpperTriangle(loaded.value);
    r := Ok(TopOf(correlations, limit));
  }

  /** Every element after the head of a sorted list has a key at least the head's. */
  lemma HeadLeast<T>(s: seq<T>, key: T -> real)
    requires s != [] && SortedBy(s, key)
    ensures forall x :: x in s[1..] ==> key(s[0]) <= key(x)
  {
    forall x | x in s[1..] ensures key(s[0]) <= key(x) {
      var u :| 0 <= u < |s| - 1 && s[1..][u] == x;
      assert s[u + 1] == x;
    }
  }

  /** Filtering a sorted list keeps it sorted. */
  lemma {:induction false} FilterSorted<T>(s: seq<T>, p: T -> bool, key: T -> real)
    requires SortedBy(s, key)
    ensures SortedBy(Filter(s, p), key)
  {
    if s != [] {
      assert SortedBy(s[1..], key);
      FilterSorted(s[1..], p, key);
      if p(s[0]) {
        var t := Filter(s[1..], p);
        HeadLeast(s, key);
        ConsSorted(s[0], t, key);
        assert Filter(s, p) == [s[0]] + t;
      }
    }
  }

  /** In a prefix of a sorted list, an element of the list is either kept, or its key is at
      least that of every element kept. */
  lemma PrefixOfSorted<T>(s: seq<T>, limit: int, key: T -> real, q: T)
    requires SortedBy(s, key) && q in s
    ensures var r := Head(s, limit); q in r || forall k :: 0 <= k < |r| ==> key(r[k]) <= key(q)
  {
    var r := Head(s, limit);
    var t :| 0 <= t < |s| && s[t] == q;
    if t < |r| {
      assert r[t] == q;
    } else {
      forall k | 0 <= k < |r| ensures key(r[k]) <= key(q) {
        assert r[k] == s[k];
      }
    }
  }

  /** The first `limit` pairs of one sign, taken from the pairs sorted by strength: pairs of
      that sign from the input, at most `limit`, strongest first, and no pair of that sign
      left out is stronger than one kept. */
  lemma SignPart(pairs: seq<CorrelationPair>, sign: CorrelationPair -> bool, limit: int)
    ensures var part := Head(Filter(ByStrength(pairs), sign), limit);
      (forall k :: 0 <= k < |part| ==> sign(part[k]) && part[k] in pairs)
      && (limit >= 0 ==> |part| <= limit)
      && SortedBy(part, StrengthKey)
      && (forall q :: q in pairs && sign(q) ==>
            q in part || forall k :: 0 <= k < |part| ==> StrengthKey(part[k]) <= StrengthKey(q))
  {
    SignPartMembers(pairs, sign, limit);
    SignPartSorted(pairs, sign, limit);
    SignPartComplete(pairs, sign, limit);
  }

  lemma SignPartMembers(pairs: seq<CorrelationPair>, sign: CorrelationPair -> bool, limit: int)
    ensures var part := Head(Filter(ByStrength(pairs), sign), limit);
      forall k :: 0 <= k < |part| ==> sign(part[k]) && part[k] in pairs
  {
    var sorted := ByStrength(pairs);
    var f := Filter(sorted, sign);
    var part := Head(f, limit);
    forall k | 0 <= k < |part| ensures sign(part[k]) && part[k] in pairs {
      assert part[k] == f[k];
      assert part[k] in multiset(sorted);
    }
  }

  lemma SignPartSorted(pairs: seq<CorrelationPair>, sign: CorrelationPair -> bool, limit: int)
    ensures SortedBy(Head(Filter(ByStrength(pairs), sign), limit), StrengthKey)
  {
    var sorted := ByStrength(pairs);
    var f := Filter(sorted, sign);
    var part := Head(f, limit);
    FilterSorted(sorted, sign, StrengthKey);
    forall a, b | 0 <= a < b < |part| ensures StrengthKey(part[a]) <= StrengthKey(part[b]) {
      assert part[a] == f[a] && part[b] == f[b];
    }
  }

  lemma SignPartComplete(pairs: seq<CorrelationPair>, sign: CorrelationPair -> bool, limit: int)
    ensures var part := Head(Filter(ByStrength(pairs), sign), limit);
      forall q :: q in pairs && sign(q) ==>
        q in part || forall k :: 0 <= k < |part| ==> StrengthKey(part[k]) <= StrengthKey(q)
  {
    var sorted := ByStrength(pairs);
    var f := Filter(sorted, sign);
    var part := Head(f, limit);
    FilterSorted(sorted, sign, StrengthKey);
    forall q | q in pairs && sign(q)
      ensures q in part || forall k :: 0 <= k < |part| ==> StrengthKey(part[k]) <= StrengthKey(q)
    {
      assert q in multiset(pairs);
      assert q in sorted;
      PrefixOfSorted(f, limit, StrengthKey, q);
    }
  }

  /** The positives are strictly positive and the negatives strictly negative, so a zero
      correlation is in neither; each list has at most `limit` entries, holds pairs of the
      input, and runs from the strongest down; and a pair left out of a list is no stronger
      than any pair in it. */
  lemma TopSplit(pairs: seq<CorrelationPair>, limit: int)
    ensures var top := TopOf(pairs, limit);
      (forall k :: 0 <= k < |top.topPositive| ==> top.topPositive[k].corr > 0.0 && top.topPositive[k] in pairs)
      && (forall k :: 0 <= k < |top.topNegative| ==> top.topNegative[k].corr < 0.0 && top.topNegative[k] in pairs)
      && (limit >= 0 ==> |top.topPositive| <= limit && |top.topNegative| <= limit)
      && SortedBy(top.topPositive, StrengthKey) && SortedBy(top.topNegative, StrengthKey)
      && (forall q :: q in pairs && q.corr > 0.0 ==>
            q in top.topPositive || forall k :: 0 <= k < |top.topPositive| ==> q.corr <= top.topPositive[k].corr)
      && (forall q :: q in pairs && q.corr < 0.0 ==>
            q in top.topNegative || forall k :: 0 <= k < |top.topNegative| ==> top.topNegative[k].corr <= q.corr)
  {
    PositivePart(pairs, limit);
    NegativePart(pairs, limit);
  }

  lemma PositivePart(pairs: seq<CorrelationPair>, limit: int)
    ensures var top := TopOf(pairs, limit).topPositive;
      (forall k :: 0 <= k < |top| ==> top[k].corr > 0.0 && top[k] in pairs)
      && (limit >= 0 ==> |top| <= limit)
      && SortedBy(top, StrengthKey)
      && (forall q :: q in pairs && q.corr > 0.0 ==>
            q in top || forall k :: 0 <= k < |top| ==> q.corr <= top[k].corr)
  {
    var top := TopOf(pairs, limit).topPositive;
    SignPart(pairs, IsPositive, limit);
    forall q | q in pairs && q.corr > 0.0
      ensures q in top || forall k :: 0 <= k < |top| ==> q.corr <= top[k].corr
    {
      assert IsPositive(q);
      if q !in top {
        forall k | 0 <= k < |top| ensures q.corr <= top[k].corr {
          assert IsPositive(top[k]);
          assert StrengthKey(top[k]) <= StrengthKey(q);
        }
      }
    }
  }

  lemma NegativePart(pairs: seq<CorrelationPair>, limit: int)
    ensures var top := TopOf(pairs, limit).topNegative;
      (forall k :: 0 <= k < |top| ==> top[k].corr < 0.0 && top[k] in pairs)
      && (limit >= 0 ==> |top| <= limit)
      && SortedBy(top, StrengthKey)
      && (forall q :: q in pairs && q.corr < 0.0 ==>
            q in top || forall k :: 0 <= k < |top| ==> top[k].corr <= q.corr)
  {
    var top := TopOf(pairs, limit).topNegative;
    SignPart(pairs, IsNegative, limit);
    forall q | q in pairs && q.corr < 0.0
      ensures q in top || forall k :: 0 <= k < |top| ==> top[k].corr <= q.corr
    {
      assert IsNegative(q);
      if q !in top {
        forall k | 0 <= k < |top| ensures top[k].corr <= q.corr {
          assert IsNegative(top[k]);
          assert StrengthKey(top[k]) <= StrengthKey(q);
        }
      }
    }
  }

  /** The sort is stable: pairs of equal strength keep the order in which the loops met
      them. */
  lemma StrengthOrderStable(m: CorrMatrix, v: real)
    ensures KeyClass(ByStrength(Pairs(m)), StrengthKey, v) == KeyClass(Pairs(m), StrengthKey, v)
  {
    SortByStable(Pairs(m), StrengthKey, v);
  }

  /** An empty matrix is a 404 that reaches the client unchanged; otherwise the answer lists
      only cells strictly above the diagonal that are not NaN. */
  lemma TopFromMatrix(loaded: Result<CorrMatrix, string>, limit: int)
    requires loaded.Ok?
    ensures IsEmpty(loaded.value) ==> TopCorrelationsRoute(loaded, limit) == Err(HttpError(404, NoDataDetail))
    ensures !IsEmpty(loaded.value) ==> TopCorrelationsRoute(loaded, limit) == Ok(TopOf(Pairs(loaded.value), limit))
    ensures !IsEmpty(loaded.value) ==>
      var top := TopOf(Pairs(loaded.value), limit);
      (forall p :: p in top.topPositive ==> exists i, j :: FromCell(loaded.value, p, i, j))
      && (forall p :: p in top.topNegative ==> exists i, j :: FromCell(loaded.value, p, i, j))
  {
    if !IsEmpty(loaded.value) {
      var m := loaded.value;
      var top := TopOf(Pairs(m), limit);
      TopSplit(Pairs(m), limit);
      PairsExact(m);
      forall p | p in top.topPositive ensures exists i, j :: FromCell(m, p, i, j) {
        var k :| 0 <= k < |top.topPositive| && top.topPositive[k] == p;
        assert p in Pairs(m);
      }
      forall p | p in top.topNegative ensures exists i, j :: FromCell(m, p, i, j) {
        var k :| 0 <= k < |top.topNegative| && top.topNegative[k] == p;
        assert p in Pairs(m);
      }
    }
  }

  // ---------------------------------------------------------------- one variable

  datatype VariableCorrelation = VariableCorrelation(variable: string, correlation: real)

  datatype VariableCorrelations = VariableCorrelations(
    variable: string, correlations: seq<VariableCorrelation>,
    strongestPositive: VariableCorrelation, strongestNegative: VariableCorrelation)

  /** The entries of row `i` from its first `j` columns: every column but `name` whose cell
      is not NaN, in column order. */
  function EntriesUpTo(m: CorrMatrix, name: string, i: nat, j: nat): seq<VariableCorrelation>
    requires j <= |m.columns|
  {
    if j == 0 then []
    else
      EntriesUpTo(m, name, i, j - 1)
      + (if m.columns[j - 1] != name && Cell(m, i, j - 1).Some?
         then [VariableCorrelation(m.columns[j - 1], Cell(m, i, j - 1).value)] else [])
  }

  function Entries(m: CorrMatrix, name: string, i: nat): seq<VariableCorrelation> {
    EntriesUpTo(m, name, i, |m.columns|)
  }

  /** `e` comes from column `j` of row `i`: another variable, and a cell that is not NaN. */
  predicate EntryFrom(m: CorrMatrix, name: string, i: nat, e: VariableCorrelation, j: int) {
    0 <= j < |m.columns| && m.columns[j] == e.variable && e.variable != name && Cell(m, i, j) == Some(e.correlation)
  }

  lemma {:induction false} EntriesUpToExact(m: CorrMatrix, name: string, i: nat, j: nat)
    requires j <= |m.columns|
    ensures forall e :: e in EntriesUpTo(m, name, i, j) <==> exists c :: c < j && EntryFrom(m, name, i, e, c)
  {
    if j > 0 {
      EntriesUpToExact(m, name, i, j - 1);
      forall e ensures e in EntriesUpTo(m, name, i, j) <==> exists c :: c < j && EntryFrom(m, name, i, e, c) {
        if exists c :: c < j && EntryFrom(m, name, i, e, c) {
          var c :| c < j && EntryFrom(m, name, i, e, c);
          if c == j - 1 {
            assert e == VariableCorrelation(m.columns[j - 1], Cell(m, i, j - 1).value);
          }
        }
        if e in EntriesUpTo(m, name, i, j) && e !in EntriesUpTo(m, name, i, j - 1) {
          assert EntryFrom(m, name, i, e, j - 1);
        }
      }
    }
  }

  function EntryKey(e: VariableCorrelation): real {
    -Abs(e.correlation)
  }

  /** `max(correlations, key=…)`: the first entry of greatest correlation. */
  function FirstMax(s: seq<VariableCorrelation>): (k: nat)
    requires s != []
    ensures k < |s|
    ensures forall i :: 0 <= i < |s| ==> s[i].correlation <= s[k].correlation
    ensures forall i :: 0 <= i < k ==> s[i].correlation < s[k].correlation
  {
    if |s| == 1 then 0
    else
      var k := FirstMax(s[..|s| - 1]);
      if s[|s| - 1].correlation > s[k].correlation then |s| - 1 else k
  }

  /** `min(correlations, key=…)`: the first entry of least correlation. */
  function FirstMin(s: seq<VariableCorrelation>): (k: nat)
    requires s != []
    ensures k < |s|
    ensures forall i :: 0 <= i < |s| ==> s[k].correlation <= s[i].correlation
    ensures forall i :: 0 <= i < k ==> s[k].correlation < s[i].correlation
  {
    if |s| == 1 then 0
    else
      var k := FirstMin(s[..|s| - 1]);
      if s[|s| - 1].correlation < s[k].correlation then |s| - 1 else k
  }

  /** The text of the `ValueError` that `max` raises on an empty list. */
  const EmptyMaxMessage := "max() arg is an empty sequence"

  const VariablePrefix := "Error al obtener correlaciones de variable: "

  function VariableOutcome(loaded: Result<CorrMatrix, string>, name: string): Result<VariableCorrelations, Raised> {
    if loaded.Err? then LoadFailure(loaded.error)
    else if IsEmpty(loaded.value) then Err(HttpRaised(404, NoDataDetail))
    else
      var m := loaded.value;
      match DataLoader.ColumnIndex(m.index, name)
      case None => Err(HttpRaised(404, UnknownVariableDetail(name, m.index)))
      case Some(i) =>
        var sorted := SortBy(Entries(m, name, i), EntryKey);
        if sorted == [] then Err(OtherRaised(EmptyMaxMessage))
        else Ok(VariableCorrelations(name, sorted, sorted[FirstMax(sorted)], sorted[FirstMin(sorted)]))
  }

  /** `get_variable_correlations`. */
  function VariableCorrelationsRoute(loaded: Result<CorrMatrix, string>, name: string): Result<VariableCorrelations, HttpError> {
    Handle(VariablePrefix, true, VariableOutcome(loaded, name))
  }

  /** An unknown variable is a 404 naming the variables available; a variable without any
      other non-NaN correlation makes `max` fail, which the route reports as a 500. */
  lemma VariableErrors(loaded: Result<CorrMatrix, string>, name: string)
    requires loaded.Ok? && !IsEmpty(loaded.value)
    ensures name !in loaded.value.index ==>
      VariableCorrelationsRoute(loaded, name) == Err(HttpError(404, UnknownVariableDetail(name, loaded.value.index)))
    ensures name in loaded.value.index ==>
      var i := DataLoader.ColumnIndex(loaded.value.index, name).value;
      (Entries(loaded.value, name, i) == [] <==>
        VariableCorrelationsRoute(loaded, name) == Err(HttpError(500, VariablePrefix + EmptyMaxMessage)))
  {
  }

  /** The answer lists exactly the other variables whose cell in the variable's (first) row is
      not NaN, strongest first; the strongest positive is a first entry of greatest
      correlation and the strongest negative a first entry of least correlation. */
  lemma VariableListed(loaded: Result<CorrMatrix, string>, name: string)
    requires VariableCorrelationsRoute(loaded, name).Ok?
    ensures name in loaded.value.index
    ensures var m := loaded.value;
      var i := DataLoader.ColumnIndex(m.index, name).value;
      var resp := VariableCorrelationsRoute(loaded, name).value;
      resp.variable == name
      && multiset(resp.correlations) == multiset(Entries(m, name, i))
      && (forall e :: e in resp.correlations <==> exists j :: EntryFrom(m, name, i, e, j))
      && SortedBy(resp.correlations, EntryKey)
      && resp.strongestPositive in resp.correlations && resp.strongestNegative in resp.correlations
      && (forall k :: 0 <= k < |resp.correlations| ==>
            resp.strongestNegative.correlation <= resp.correlations[k].correlation <= resp.strongestPositive.correlation)
  {
    var m := loaded.value;
    var i := DataLoader.ColumnIndex(m.index, name).value;
    var resp := VariableCorrelationsRoute(loaded, name).value;
    EntriesUpToExact(m, name, i, |m.columns|);
    forall e ensures e in resp.correlations <==> e in Entries(m, name, i) {
      assert e in resp.correlations <==> e in multiset(resp.correlations);
      assert e in Entries(m, name, i) <==> e in multiset(Entries(m, name, i));
    }
  }

  // ---------------------------------------------------------------- scatter plot

  /** A non-NaN cell as `float()` reads it: a number, or text it cannot convert (a text that
      spells a number converts like that number and is a `Num`). */
  datatype MasterCell = Num(n: real) | Text(s: string)

  /** A row of the master dataset: the text its `VALVULA` and `PERIODO` cells print as, and
      the cell of every column, these two included; a NaN cell is absent from `cells`. */
  datatype MasterRow = MasterRow(valvula: string, periodo: string, cells: map<string, MasterCell>)

  datatype MasterTable = MasterTable(columns: seq<string>, rows: seq<MasterRow>)

  datatype ScatterPoint = ScatterPoint(x: real, y: real, valvula: string, periodo: string)

  datatype ScatterResponse = ScatterResponse(
    varX: string, varY: string, data: seq<ScatterPoint>, correlation: real, totalPuntos: nat)

  function CellAt(r: MasterRow, v: string): Option<MasterCell> {
    if v in r.cells then Some(r.cells[v]) else None
  }

  /** The row survives `dropna` on both variables (on the one variable when they are the same);
      text is not NaN and survives too. */
  predicate CompleteRow(r: MasterRow, x: string, y: string) {
    CellAt(r, x).Some? && CellAt(r, y).Some?
  }

  /** Both variables of the row are numbers. */
  predicate NumericRow(r: MasterRow, x: string, y: string) {
    CellAt(r, x).Some? && CellAt(r, x).value.Num? && CellAt(r, y).Some? && CellAt(r, y).value.Num?
  }

  predicate AllNumeric(rows: seq<MasterRow>, x: string, y: string) {
    forall k :: 0 <= k < |rows| ==> NumericRow(rows[k], x, y)
  }

  function CleanRows(rows: seq<MasterRow>, x: string, y: string): seq<MasterRow> {
    Filter(rows, (r: MasterRow) => CompleteRow(r, x, y))
  }

  function ValveRows(rows: seq<MasterRow>, id: string): seq<MasterRow> {
    Filter(rows, (r: MasterRow) => r.valvula == id)
  }

  /** The number in a cell, 0 for text or NaN. */
  function Number(r: MasterRow, v: string): real {
    if CellAt(r, v).Some? && CellAt(r, v).value.Num? then CellAt(r, v).value.n else 0.0
  }

  /** `df_clean` selects `VALVULA`, `PERIODO` and `var_x`: a variable that is one of the first
      two is selected twice, so `row[var_x]` is a two-cell Series and `float()` of it raises a
      `TypeError`. */
  predicate KeyColumn(x: string) {
    x == "VALVULA" || x == "PERIODO"
  }

  /** The point of a clean row, or `None` when the loop's `except` skips the row: the variable
      is a key column, or one of its cells is text. */
  function PointOf(r: MasterRow, x: string, y: string): (p: Option<ScatterPoint>)
    ensures p.Some? <==> !KeyColumn(x) && NumericRow(r, x, y)
    ensures p.Some? ==> p.value == ScatterPoint(Number(r, x), Number(r, y), r.valvula, r.periodo)
    ensures p.Some? && x == y ==> p.value.y == p.value.x
  {
    if KeyColumn(x) then None
    else match CellAt(r, x)
      case Some(Num(a)) =>
        if x == y then Some(ScatterPoint(a, a, r.valvula, r.periodo))
        else (match CellAt(r, y)
              case Some(Num(b)) => Some(ScatterPoint(a, b, r.valvula, r.periodo))
              case _ => None)
      case _ => None
  }

  function XY(rows: seq<MasterRow>, x: string, y: string): seq<(real, real)> {
    seq(|rows|, k requires 0 <= k < |rows| => (Number(rows[k], x), Number(rows[k], y)))
  }

  /** The `ValueError` `corr()` raises over a text cell; its wording, and the cell it quotes,
      depend on the pandas version and are not modelled. */
  const NotNumericMessage := "could not convert string to float"

  /** The coefficient reported: 1 for a variable against itself, pandas' Pearson coefficient
      (`pearson`, `None` for NaN) of at least two complete rows, and 0 otherwise; `corr()`
      raises when one of those rows holds text. */
  function ScatterCorrelation(clean: seq<MasterRow>, x: string, y: string, pearson: seq<(real, real)> -> Option<real>)
    : Result<real, Raised>
  {
    if x == y then Ok(1.0)
    else if |clean| > 1 then
      if AllNumeric(clean, x, y) then Ok(pearson(XY(clean, x, y)).GetOr(0.0))
      else Err(OtherRaised(NotNumericMessage))
    else Ok(0.0)
  }

  const NoMasterDataDetail := "Datos no disponibles"
  const NoValveColumnDetail := "Columna VALVULA no encontrada en los datos"

  function NoValveDataDetail(id: string): string {
    "No hay datos para la válvula " + id
  }

  function NoValidDataDetail(x: string, y: string): string {
    "No hay datos válidos para las variables " + x + " y " + y
  }

  /** The text of the `KeyError` pandas raises when some of the selected columns are missing. */
  function MissingColumnsMessage(missing: seq<string>): string {
    "\"" + PyListRepr(missing) + " not in index\""
  }

  function MissingKeyColumns(columns: seq<string>): seq<string> {
    (if "VALVULA" in columns then [] else ["VALVULA"]) + (if "PERIODO" in columns then [] else ["PERIODO"])
  }

  const ScatterPrefix := "Error al obtener scatter plot: "

  /** The rows left after the valve filter, or the error that filter raises. */
  function ScatterRows(t: MasterTable, valvula: Option<string>): Result<seq<MasterRow>, Raised> {
    if !Truthy(valvula) then Ok(t.rows)
    else if "VALVULA" !in t.columns then Err(HttpRaised(400, NoValveColumnDetail))
    else if ValveRows(t.rows, valvula.value) == [] then Err(HttpRaised(404, NoValveDataDetail(valvula.value)))
    else Ok(ValveRows(t.rows, valvula.value))
  }

  /** The plotted points: one per clean row the loop does not skip, in order. */
  function Points(clean: seq<MasterRow>, x: string, y: string): seq<ScatterPoint> {
    if clean == [] then []
    else
      var n := |clean| - 1;
      Points(clean[..n], x, y) + (match PointOf(clean[n], x, y) case Some(p) => [p] case None => [])
  }

  /** Every point plotted is the point of a clean row. */
  lemma {:induction false} PointsSound(clean: seq<MasterRow>, x: string, y: string)
    ensures forall p :: p in Points(clean, x, y) ==> exists k :: 0 <= k < |clean| && PointOf(clean[k], x, y) == Some(p)
  {
    if clean != [] {
      var n := |clean| - 1;
      PointsSound(clean[..n], x, y);
      forall p | p in Points(clean, x, y)
        ensures exists k :: 0 <= k < |clean| && PointOf(clean[k], x, y) == Some(p)
      {
        if p in Points(clean[..n], x, y) {
          var k :| 0 <= k < n && PointOf(clean[..n][k], x, y) == Some(p);
          assert clean[..n][k] == clean[k];
        } else {
          assert PointOf(clean[n], x, y) == Some(p);
        }
      }
    }
  }

  /** Over numbers only and a variable that is not a key column, no row is skipped. */
  lemma {:induction false} PointsAllKept(clean: seq<MasterRow>, x: string, y: string)
    requires !KeyColumn(x) && AllNumeric(clean, x, y)
    ensures |Points(clean, x, y)| == |clean|
    ensures forall k :: 0 <= k < |clean| ==> PointOf(clean[k], x, y) == Some(Points(clean, x, y)[k])
  {
    if clean != [] {
      var n := |clean| - 1;
      assert forall k :: 0 <= k < n ==> clean[..n][k] == clean[k];
      PointsAllKept(clean[..n], x, y);
      assert NumericRow(clean[n], x, y);
    }
  }

  /** A key column as the variable skips every row. */
  lemma {:induction false} PointsOfKeyColumn(clean: seq<MasterRow>, x: string, y: string)
    requires KeyColumn(x)
    ensures Points(clean, x, y) == []
  {
    if clean != [] {
      PointsOfKeyColumn(clean[..|clean| - 1], x, y);
    }
  }

  /** The answer once the rows are chosen: the coefficient first, then the key columns must
      exist and a row must be complete. */
  function ScatterFrom(columns: seq<string>, df: seq<MasterRow>, x: string, y: string,
                       pearson: seq<(real, real)> -> Option<real>): Result<ScatterResponse, Raised> {
    var clean := CleanRows(df, x, y);
    match ScatterCorrelation(clean, x, y, pearson)
    case Err(e) => Err(e)
    case Ok(c) =>
      if MissingKeyColumns(columns) != [] then Err(OtherRaised(MissingColumnsMessage(MissingKeyColumns(columns))))
      else if clean == [] then Err(HttpRaised(404, NoValidDataDetail(x, y)))
      else
        var points := Points(clean, x, y);
        Ok(ScatterResponse(x, y, points, c, |points|))
  }

  function ScatterOutcome(loaded: Result<MasterTable, string>, x: string, y: string, valvula: Option<string>,
                          pearson: seq<(real, real)> -> Option<real>): Result<ScatterResponse, Raised> {
    if loaded.Err? then LoadFailure(loaded.error)
    else
      var t := loaded.value;
      if t.rows == [] || t.columns == [] then Err(HttpRaised(404, NoMasterDataDetail))
      else if x !in t.columns then Err(HttpRaised(404, UnknownVariableDetail(x, t.columns)))
      else if y !in t.columns then Err(HttpRaised(404, UnknownVariableDetail(y, t.columns)))
      else match ScatterRows(t, valvula)
        case Err(e) => Err(e)
        case Ok(df) => ScatterFrom(t.columns, df, x, y, pearson)
  }

  /** `get_correlation_scatter`, as a function. */
  function CorrelationScatter(loaded: Result<MasterTable, string>, x: string, y: string, valvula: Option<string>,
                              pearson: seq<(real, real)> -> Option<real>): Result<ScatterResponse, HttpError> {
    Handle(ScatterPrefix, true, ScatterOutcome(loaded, x, y, valvula, pearson))
  }

  /** The loop over the clean rows: the point of each row appended in order, a row whose
      conversion raises skipped. */
  method CollectPoints(clean: seq<MasterRow>, x: string, y: string) returns (points: seq<ScatterPoint>)
    ensures points == Points(clean, x, y)
  {
    points := [];
    var i := 0;
    while i < |clean|
      invariant 0 <= i <= |clean|
      invariant points == Points(clean[..i], x, y)
    {
      assert clean[..i + 1][..i] == clean[..i];
      var p := PointOf(clean[i], x, y);
      if p.Some? {
        points := points + [p.value];
      }
      i := i + 1;
    }
    assert clean[..i] == clean;
  }

  /** `get_correlation_scatter`: the checks in order, the coefficient, then the points of the
      clean rows. */
  method GetCorrelationScatter(loaded: Result<MasterTable, string>, x: string, y: string, valvula: Option<string>,
                               pearson: seq<(real, real)> -> Option<real>)
    returns (r: Result<ScatterResponse, HttpError>)
    ensures r == CorrelationScatter(loaded, x, y, valvula, pearson)
  {
    if loaded.Err? {
      return Err(HttpError(500, ScatterPrefix + loaded.error));
    }
    var t := loaded.value;
    if t.rows == [] || t.columns == [] {
      return Err(HttpError(404, NoMasterDataDetail));
    }
    if x !in t.columns {
      return Err(HttpError(404, UnknownVariableDetail(x, t.columns)));
    }
    if y !in t.columns {
      return Err(HttpError(404, UnknownVariableDetail(y, t.columns)));
    }
    var df := t.rows;
    if Truthy(valvula) {
      if "VALVULA" !in t.columns {
        return Err(HttpError(400, NoValveColumnDetail));
      }
      df := ValveRows(t.rows, valvula.value);
      if df == [] {
        return Err(HttpError(404, NoValveDataDetail(valvula.value)));
      }
    }
    assert ScatterRows(t, valvula) == Ok(df);
    var clean := CleanRows(df, x, y);
    var correlation := ScatterCorrelation(clean, x, y, pearson);
    if correlation.Err? {
      return Err(HttpError(500, ScatterPrefix + NotNumericMessage));
    }
    if MissingKeyColumns(t.columns) != [] {
      return Err(HttpError(500, ScatterPrefix + MissingColumnsMessage(MissingKeyColumns(t.columns))));
    }
    if clean == [] {
      return Err(HttpError(404, NoValidDataDetail(x, y)));
    }
    var points := CollectPoints(clean, x, y);
    r := Ok(ScatterResponse(x, y, points, correlation.value, |points|));
  }

  /** An unknown variable, or a valve without rows, is a 404 that reaches the client unchanged. */
  lemma ScatterErrors(loaded: Result<MasterTable, string>, x: string, y: string, valvula: Option<string>,
                      pearson: seq<(real, real)> -> Option<real>)
    requires loaded.Ok? && loaded.value.rows != [] && loaded.value.columns != []
    ensures x !in loaded.value.columns ==>
      CorrelationScatter(loaded, x, y, valvula, pearson) == Err(HttpError(404, UnknownVariableDetail(x, loaded.value.columns)))
    ensures x in loaded.value.columns && y !in loaded.value.columns ==>
      CorrelationScatter(loaded, x, y, valvula, pearson) == Err(HttpError(404, UnknownVariableDetail(y, loaded.value.columns)))
    ensures (x in loaded.value.columns && y in loaded.value.columns && Truthy(valvula) && "VALVULA" in loaded.value.columns
             && forall k :: 0 <= k < |loaded.value.rows| ==> loaded.value.rows[k].valvula != valvula.value) ==>
      CorrelationScatter(loaded, x, y, valvula, pearson) == Err(HttpError(404, NoValveDataDetail(valvula.value)))
  {
    if Truthy(valvula) {
      var v := ValveRows(loaded.value.rows, valvula.value);
      if v != [] {
        assert v[0] in loaded.value.rows;
      }
    }
  }

  /** Text reaching the route: over two or more clean rows of two different variables, a text
      cell makes `corr()` raise, a 500; otherwise a key column as the variable is answered with
      no point at all, and any other variable with the points of the rows that are numbers. */
  lemma ScatterTextCells(loaded: Result<MasterTable, string>, x: string, y: string, valvula: Option<string>,
                         pearson: seq<(real, real)> -> Option<real>)
    requires loaded.Ok? && loaded.value.rows != [] && loaded.value.columns != []
    requires x in loaded.value.columns && y in loaded.value.columns && ScatterRows(loaded.value, valvula).Ok?
    ensures var clean := CleanRows(ScatterRows(loaded.value, valvula).value, x, y);
      x != y && |clean| > 1 && !AllNumeric(clean, x, y) ==>
        CorrelationScatter(loaded, x, y, valvula, pearson) == Err(HttpError(500, ScatterPrefix + NotNumericMessage))
    ensures var clean := CleanRows(ScatterRows(loaded.value, valvula).value, x, y);
      var r := CorrelationScatter(loaded, x, y, valvula, pearson);
      KeyColumn(x) && MissingKeyColumns(loaded.value.columns) == [] && clean != []
      && (x == y || |clean| <= 1 || AllNumeric(clean, x, y)) ==>
        r.Ok? && r.value.data == [] && r.value.totalPuntos == 0
  {
    var clean := CleanRows(ScatterRows(loaded.value, valvula).value, x, y);
    if KeyColumn(x) {
      PointsOfKeyColumn(clean, x, y);
    }
  }

  /** `p` is the point of row `j`, a complete row of the requested valve. */
  predicate PointFromRow(rows: seq<MasterRow>, valvula: Option<string>, x: string, y: string, p: ScatterPoint, j: int) {
    0 <= j < |rows| && CompleteRow(rows[j], x, y)
    && (Truthy(valvula) ==> rows[j].valvula == valvula.value)
    && PointOf(rows[j], x, y) == Some(p)
  }

  /** The clean rows left by the valve filter are rows of the table, of that valve. */
  lemma CleanFromRows(t: MasterTable, valvula: Option<string>, x: string, y: string)
    requires ScatterRows(t, valvula).Ok?
    ensures forall row :: row in CleanRows(ScatterRows(t, valvula).value, x, y) && PointOf(row, x, y).Some? ==>
      exists j :: PointFromRow(t.rows, valvula, x, y, PointOf(row, x, y).value, j)
  {
    var df := ScatterRows(t, valvula).value;
    var clean := CleanRows(df, x, y);
    forall row | row in clean && PointOf(row, x, y).Some?
      ensures exists j :: PointFromRow(t.rows, valvula, x, y, PointOf(row, x, y).value, j)
    {
      var k :| 0 <= k < |clean| && clean[k] == row;
      assert CompleteRow(row, x, y) && row in df;
      var u :| 0 <= u < |df| && df[u] == row;
      var j: int := u;
      if Truthy(valvula) {
        var v := ValveRows(t.rows, valvula.value);
        assert df == v;
        assert v[u].valvula == valvula.value && v[u] in t.rows;
        j :| 0 <= j < |t.rows| && t.rows[j] == row;
      }
      assert PointFromRow(t.rows, valvula, x, y, PointOf(row, x, y).value, j);
    }
  }

  /** A successful answer is built from the clean rows left by the valve filter: their
      coefficient, which did not raise, and the points of the rows not skipped. */
  lemma ScatterShape(loaded: Result<MasterTable, string>, x: string, y: string, valvula: Option<string>,
                     pearson: seq<(real, real)> -> Option<real>)
    requires CorrelationScatter(loaded, x, y, valvula, pearson).Ok?
    ensures loaded.Ok? && ScatterRows(loaded.value, valvula).Ok?
    ensures var clean := CleanRows(ScatterRows(loaded.value, valvula).value, x, y);
      var resp := CorrelationScatter(loaded, x, y, valvula, pearson).value;
      clean != [] && resp.data == Points(clean, x, y) && resp.totalPuntos == |resp.data|
      && ScatterCorrelation(clean, x, y, pearson) == Ok(resp.correlation)
  {
  }

  /** Every point is the point of a complete row of the requested valve (of any valve
      without a filter), and `total_puntos` counts them; every clean row gives a point when
      the variable is not a key column and the rows are numbers, and none does when it is. */
  lemma ScatterPointsFromRows(loaded: Result<MasterTable, string>, x: string, y: string, valvula: Option<string>,
                              pearson: seq<(real, real)> -> Option<real>)
    requires CorrelationScatter(loaded, x, y, valvula, pearson).Ok?
    ensures var resp := CorrelationScatter(loaded, x, y, valvula, pearson).value;
      var clean := CleanRows(ScatterRows(loaded.value, valvula).value, x, y);
      resp.totalPuntos == |resp.data|
      && (forall p :: p in resp.data ==> exists j :: PointFromRow(loaded.value.rows, valvula, x, y, p, j))
      && (!KeyColumn(x) && AllNumeric(clean, x, y) ==> |resp.data| == |clean| >= 1)
      && (KeyColumn(x) ==> resp.data == [])
  {
    ScatterShape(loaded, x, y, valvula, pearson);
    CleanFromRows(loaded.value, valvula, x, y);
    var clean := CleanRows(ScatterRows(loaded.value, valvula).value, x, y);
    var resp := CorrelationScatter(loaded, x, y, valvula, pearson).value;
    PointsSound(clean, x, y);
    forall p | p in resp.data ensures exists j :: PointFromRow(loaded.value.rows, valvula, x, y, p, j) {
      var k :| 0 <= k < |clean| && PointOf(clean[k], x, y) == Some(p);
      assert clean[k] in clean;
    }
    if !KeyColumn(x) && AllNumeric(clean, x, y) {
      PointsAllKept(clean, x, y);
    }
    if KeyColumn(x) {
      PointsOfKeyColumn(clean, x, y);
    }
  }

  /** The same variable on both axes gives correlation 1 and points on the diagonal;
      otherwise at most one clean row gives 0, and two or more, all numbers, give pandas'
      coefficient of those rows, 0 when it is NaN, which for a variable that is not a key
      column are exactly the plotted points. */
  lemma ScatterCorrelationCases(loaded: Result<MasterTable, string>, x: string, y: string, valvula: Option<string>,
                                pearson: seq<(real, real)> -> Option<real>)
    requires CorrelationScatter(loaded, x, y, valvula, pearson).Ok?
    ensures var resp := CorrelationScatter(loaded, x, y, valvula, pearson).value;
      var clean := CleanRows(ScatterRows(loaded.value, valvula).value, x, y);
      (x == y ==> resp.correlation == 1.0 && forall k :: 0 <= k < |resp.data| ==> resp.data[k].y == resp.data[k].x)
      && (x != y && |clean| <= 1 ==> resp.correlation == 0.0)
      && (x != y && |clean| > 1 ==>
            AllNumeric(clean, x, y) && resp.correlation == pearson(XY(clean, x, y)).GetOr(0.0))
      && (x != y && |clean| > 1 && !KeyColumn(x) ==>
            XY(clean, x, y) == seq(|resp.data|, k requires 0 <= k < |resp.data| => (resp.data[k].x, resp.data[k].y)))
  {
    ScatterShape(loaded, x, y, valvula, pearson);
    var clean := CleanRows(ScatterRows(loaded.value, valvula).value, x, y);
    var resp := CorrelationScatter(loaded, x, y, valvula, pearson).value;
    if x == y {
      PointsSound(clean, x, y);
      forall k | 0 <= k < |resp.data| ensures resp.data[k].y == resp.data[k].x {
        assert resp.data[k] in resp.data;
      }
    }
    if x != y && |clean| > 1 && !KeyColumn(x) {
      PointsAllKept(clean, x, y);
    }
  }
}
