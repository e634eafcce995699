/** The monthly balance table of one valve (frontend/src/components/ui/BalanceTable.jsx):
    the rows derived from the balance records, the colour of the loss index and the footer
    totals. The record type is shared with the balance chart and the PDF report. */
module BalanceTable {
  import opened Wrappers
  import opened Seqs
  import opened PeriodLabels

  /** A numeric field as JavaScript sees it: missing, `null` or a number. */
  datatype Field = Undefined | Null | Num(x: real)

  /** `field || 0`. */
  function OrZero(f: Field): real {
    if f.Num? then f.x else 0.0
  }

  /** A balance record as the balances endpoint returns it. */
  datatype BalanceRecord = BalanceRecord(
    periodo: Option<string>, entrada: Field, salida: Field, perdidas: Field, indice: Field,
    esPronostico: bool)

  /** A row of the table. */
  datatype DisplayRow = DisplayRow(
    month: string, entrada: real, salida: Field, perdidas: Field, indice: Field, tipo: string)

  /** One record as a row: the long month label, a missing or zero inflow as 0, the other
      figures unchanged, and the type "predicho" exactly for forecasts. */
  function RowOf(r: BalanceRecord): (row: DisplayRow)
    ensures row.month == LongLabel(r.periodo)
    ensures row.entrada == 0.0 <==> !(r.entrada.Num? && r.entrada.x != 0.0)
    ensures row.entrada != 0.0 ==> row.entrada == r.entrada.x
    ensures row.salida == r.salida && row.perdidas == r.perdidas && row.indice == r.indice
    ensures row.tipo in {"real", "predicho"} && (row.tipo == "predicho" <==> r.esPronostico)
  {
    DisplayRow(LongLabel(r.periodo), OrZero(r.entrada), r.salida, r.perdidas, r.indice,
               if r.esPronostico then "predicho" else "real")
  }

  /** `displayData`: one row per record, in order. */
  function DisplayRows(data: seq<BalanceRecord>): (rows: seq<DisplayRow>)
    ensures |rows| == |data|
    ensures forall i :: 0 <= i < |data| ==> rows[i] == RowOf(data[i])
  {
    seq(|data|, i requires 0 <= i < |data| => RowOf(data[i]))
  }

  /** `getIndexColor`: neutral when the index is `null` or missing, then bands inclusive at
      their lower bounds. */
  function IndexColor(indice: Field): (c: string)
    ensures c == "text-textSecondary" <==> !indice.Num?
    ensures c == "text-error" <==> indice.Num? && indice.x >= 10.0
    ensures c == "text-warning" <==> indice.Num? && 8.0 <= indice.x < 10.0
    ensures c == "text-success" <==> indice.Num? && indice.x < 8.0
  {
    if !indice.Num? then "text-textSecondary"
    else if indice.x >= 10.0 then "text-error"
    else if indice.x >= 8.0 then "text-warning"
    else "text-success"
  }

  /** How alarming a colour is: success, warning, error. */
  function Alarm(c: string): nat {
    if c == "text-error" then 2 else if c == "text-warning" then 1 else 0
  }

  /** A larger loss index is never shown in a calmer colour. */
  lemma IndexColorMonotone(a: real, b: real)
    requires a <= b
    ensures Alarm(IndexColor(Num(a))) <= Alarm(IndexColor(Num(b)))
  {
  }

  // ---------------------------------------------------------------- footer

  /** The summary figures the page passes in. */
  datatype Kpis = Kpis(totalPerdidas: real, indicePromedio: real)

  function RowEntrada(row: DisplayRow): real { row.entrada }
  function RowSalida(row: DisplayRow): real { OrZero(row.salida) }
  function RowPerdidas(row: DisplayRow): real { OrZero(row.perdidas) }
  function RecordEntrada(r: BalanceRecord): real { OrZero(r.entrada) }
  function RecordSalida(r: BalanceRecord): real { OrZero(r.salida) }

  /** The inflow total: missing inflows count as 0. */
  function EntradaTotal(rows: seq<DisplayRow>): real {
    SumOf(rows, RowEntrada)
  }

  /** The outflow total: missing outflows count as 0. */
  function SalidaTotal(rows: seq<DisplayRow>): real {
    SumOf(rows, RowSalida)
  }

  /** The two volume totals of the footer are the sums over the records themselves, with a
      missing volume counted as 0. */
  lemma {:induction false} VolumeTotals(data: seq<BalanceRecord>)
    ensures EntradaTotal(DisplayRows(data)) == SumOf(data, RecordEntrada)
    ensures SalidaTotal(DisplayRows(data)) == SumOf(data, RecordSalida)
  {
    if data != [] {
      VolumeTotals(data[1..]);
      assert DisplayRows(data)[1..] == DisplayRows(data[1..]);
    }
  }

  /** The loss total: the absolute summary figure when there is one, otherwise the sum of
      the rows with missing losses counted as 0. */
  function PerdidasTotal(kpis: Option<Kpis>, rows: seq<DisplayRow>): (t: real)
    ensures kpis.Some? ==> t == Abs(kpis.value.totalPerdidas) && t >= 0.0
    ensures kpis.None? ==> t == SumOf(rows, RowPerdidas)
  {
    if kpis.Some? then Abs(kpis.value.totalPerdidas) else SumOf(rows, RowPerdidas)
  }

  /** The index cells `filter(row => row.indice !== null)` keeps: a missing index passes the
      test. */
  function NonNullIndices(rows: seq<DisplayRow>): (fs: seq<Field>)
    ensures |fs| <= |rows|
    ensures forall i :: 0 <= i < |fs| ==> fs[i] != Null
  {
    if rows == [] then []
    else (if rows[0].indice != Null then [rows[0].indice] else []) + NonNullIndices(rows[1..])
  }

  /** `reduce((sum, row) => sum + row.indice, 0)`: `null` adds 0 and a missing index makes
      the sum NaN (`None`). */
  function SumFields(fs: seq<Field>): (t: Option<real>)
    ensures t.None? <==> Undefined in fs
  {
    if fs == [] then Some(0.0)
    else match SumFields(fs[1..])
      case None => None
      case Some(rest) => if fs[0] == Undefined then None else Some(OrZero(fs[0]) + rest)
  }

  /** The index column of the footer: the summary figure when there is one; otherwise the
      mean of the kept cells, or 0 when no cell is kept. NaN is `None`. */
  function IndexFooter(kpis: Option<Kpis>, rows: seq<DisplayRow>): (m: Option<real>)
    ensures kpis.Some? ==> m == Some(kpis.value.indicePromedio)
    ensures kpis.None? && NonNullIndices(rows) == [] ==> m == Some(0.0)
    ensures kpis.None? ==> (m.None? <==> Undefined in NonNullIndices(rows))
  {
    if kpis.Some? then Some(kpis.value.indicePromedio)
    else
      var kept := NonNullIndices(rows);
      if |kept| > 0 then
        match SumFields(kept)
        case None => None
        case Some(t) => Some(t / |kept| as real)
      else Some(0.0)
  }

  /** The index of a record as a cell with NaN: present numbers only. */
  function IndexCell(row: DisplayRow): Option<real> {
    if row.indice.Num? then Some(row.indice.x) else None
  }

  function IndexCells(rows: seq<DisplayRow>): (cs: seq<Option<real>>)
    ensures |cs| == |rows| && forall i :: 0 <= i < |rows| ==> cs[i] == IndexCell(rows[i])
  {
    seq(|rows|, i requires 0 <= i < |rows| => IndexCell(rows[i]))
  }

  /** When no index is missing, the kept cells are the present ones and their sum is the
      sum of the present values. */
  lemma KeptArePresent(rows: seq<DisplayRow>)
    requires forall i :: 0 <= i < |rows| ==> rows[i].indice != Undefined
    ensures |NonNullIndices(rows)| == |Present(IndexCells(rows))|
    ensures SumFields(NonNullIndices(rows)) == Some(Sum(Present(IndexCells(rows))))
  {
    KeptCount(rows);
    KeptSum(rows);
  }

  lemma {:induction false} KeptCount(rows: seq<DisplayRow>)
    requires forall i :: 0 <= i < |rows| ==> rows[i].indice != Undefined
    ensures |NonNullIndices(rows)| == |Present(IndexCells(rows))|
  {
    if rows != [] {
      KeptCount(rows[1..]);
      PresentCellsCons(rows);
    }
  }

  /** The present index values of the rows, in order. */
  function IndexValues(rows: seq<DisplayRow>): seq<real> {
    if rows == [] then []
    else (if rows[0].indice.Num? then [rows[0].indice.x] else []) + IndexValues(rows[1..])
  }

  lemma KeptSum(rows: seq<DisplayRow>)
    requires forall i :: 0 <= i < |rows| ==> rows[i].indice != Undefined
    ensures SumFields(NonNullIndices(rows)) == Some(Sum(Present(IndexCells(rows))))
  {
    KeptSumValues(rows);
    PresentCellsValues(rows);
  }

  lemma {:induction false} PresentCellsValues(rows: seq<DisplayRow>)
    ensures Present(IndexCells(rows)) == IndexValues(rows)
  {
    if rows == [] {
      assert IndexCells(rows) == [];
    } else {
      PresentCellsValues(rows[1..]);
      PresentCellsCons(rows);
    }
  }

  lemma {:induction false} KeptSumValues(rows: seq<DisplayRow>)
    requires forall i :: 0 <= i < |rows| ==> rows[i].indice != Undefined
    ensures SumFields(NonNullIndices(rows)) == Some(Sum(IndexValues(rows)))
  {
    if rows != [] {
      var kept, values := NonNullIndices(rows[1..]), IndexValues(rows[1..]);
      KeptSumValues(rows[1..]);
      if rows[0].indice.Num? {
        var x := rows[0].indice.x;
        assert NonNullIndices(rows) == [rows[0].indice] + kept;
        assert IndexValues(rows) == [x] + values;
        SumFieldsCons(rows[0].indice, kept);
        SumCons(x, values);
      } else {
        assert NonNullIndices(rows) == kept;
        assert IndexValues(rows) == values;
      }
    }
  }

  lemma SumFieldsCons(f: Field, fs: seq<Field>)
    requires f != Undefined && SumFields(fs).Some?
    ensures SumFields([f] + fs) == Some(OrZero(f) + SumFields(fs).value)
  {
    assert ([f] + fs)[1..] == fs;
  }

  lemma SumCons(x: real, p: seq<real>)
    ensures Sum([x] + p) == x + Sum(p)
  {
    assert ([x] + p)[1..] == p;
  }

  /** The present cells of a non-empty list: those of the first row, then of the rest. */
  lemma PresentCellsCons(rows: seq<DisplayRow>)
    requires rows != []
    ensures Present(IndexCells(rows))
      == (if rows[0].indice.Num? then [rows[0].indice.x] else []) + Present(IndexCells(rows[1..]))
  {
    assert IndexCells(rows)[1..] == IndexCells(rows[1..]);
  }

  /** Without summary figures and with no missing index, the footer shows the NaN-skipping
      mean of the index column, or 0 when every index is `null`. */
  lemma IndexFooterIsMean(rows: seq<DisplayRow>)
    requires forall i :: 0 <= i < |rows| ==> rows[i].indice != Undefined
    ensures IndexFooter(None, rows) == Some(MeanSkipNaN(IndexCells(rows)).GetOr(0.0))
  {
    KeptArePresent(rows);
  }

  /** The footer index then lies between the smallest and the largest index shown. */
  lemma IndexFooterBounds(rows: seq<DisplayRow>, lo: real, hi: real)
    requires forall i :: 0 <= i < |rows| ==> rows[i].indice != Undefined
    requires forall i :: 0 <= i < |rows| && rows[i].indice.Num? ==> lo <= rows[i].indice.x <= hi
    requires exists i :: 0 <= i < |rows| && rows[i].indice.Num?
    ensures IndexFooter(None, rows).Some? && lo <= IndexFooter(None, rows).value <= hi
  {
    var cells := IndexCells(rows);
    IndexFooterIsMean(rows);
    assert MeanSkipNaN(cells).Some? by {
      var i :| 0 <= i < |rows| && rows[i].indice.Num?;
      assert cells[i] == Some(rows[i].indice.x);
      assert rows[i].indice.x in Present(cells);
    }
    assert forall k :: 0 <= k < |cells| && cells[k].Some? ==> lo <= cells[k].value <= hi;
    MeanBounds(cells, lo, hi);
  }
}
