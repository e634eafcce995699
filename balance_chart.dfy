/** The inflow/outflow bar chart of one valve
    (frontend/src/components/charts/BalanceChart.jsx): the chart point of each balance
    record and the tooltip lines shown for a point. `None` stands for `null`. */
module BalanceChart {
  import opened Wrappers
  import opened PeriodLabels
  import opened BalanceTable

  /** A bar group: the short month (`undefined` is `None`) and the three volumes. */
  datatype ChartPoint = ChartPoint(
    month: Option<string>, entrada: Option<real>, salida: Option<real>, perdidas: Option<real>)

  /** `item.entrada || null`: zero and missing inflows become `null`. */
  function NullIfFalsy(f: Field): (v: Option<real>)
    ensures v.Some? <==> f.Num? && f.x != 0.0
    ensures v.Some? ==> v.value == f.x
  {
    if f.Num? && f.x != 0.0 then Some(f.x) else None
  }

  /** `item.salida !== undefined ? item.salida : null`: only a missing value becomes `null`,
      so 0 is kept. */
  function NullIfUndefined(f: Field): (v: Option<real>)
    ensures v.Some? <==> f.Num?
    ensures v.Some? ==> v.value == f.x
  {
    if f.Num? then Some(f.x) else None
  }

  function PointOf(r: BalanceRecord): (p: ChartPoint)
    ensures p.month == ShortLabel(r.periodo)
    ensures p.entrada == NullIfFalsy(r.entrada)
    ensures p.salida == NullIfUndefined(r.salida) && p.perdidas == NullIfUndefined(r.perdidas)
  {
    ChartPoint(ShortLabel(r.periodo), NullIfFalsy(r.entrada), NullIfUndefined(r.salida),
               NullIfUndefined(r.perdidas))
  }

  /** `displayData`: one point per record, in order. */
  function ChartPoints(data: seq<BalanceRecord>): (ps: seq<ChartPoint>)
    ensures |ps| == |data|
    ensures forall i :: 0 <= i < |data| ==> ps[i] == PointOf(data[i])
  {
    seq(|data|, i requires 0 <= i < |data| => PointOf(data[i]))
  }

  /** An inflow of 0 is left out of the chart while an outflow or a loss of 0 is drawn. */
  lemma ZeroInflowDropped(r: BalanceRecord)
    requires r.entrada == Num(0.0) && r.salida == Num(0.0) && r.perdidas == Num(0.0)
    ensures PointOf(r).entrada.None?
    ensures PointOf(r).salida == Some(0.0) && PointOf(r).perdidas == Some(0.0)
  {
  }

  /** A tooltip line: its caption and the value shown. */
  datatype TooltipLine = TooltipLine(caption: string, value: real)

  /** The tooltip's three captions, in the order of the bars. */
  const Captions: seq<string> := ["Entrada", "Salida", "Pérdidas"]

  /** The volume of the k-th bar. */
  function Volume(p: ChartPoint, k: nat): Option<real>
    requires k < 3
  {
    if k == 0 then p.entrada else if k == 1 then p.salida else p.perdidas
  }

  /** The position of a caption among the three (3 for any other text). */
  function Rank(caption: string): (k: nat)
    ensures k <= 3 && (k < 3 ==> Captions[k] == caption)
  {
    if caption == Captions[0] then 0 else if caption == Captions[1] then 1
    else if caption == Captions[2] then 2 else 3
  }

  function LineIf(caption: string, v: Option<real>): (ls: seq<TooltipLine>)
    ensures |ls| == (if v.Some? then 1 else 0)
    ensures v.Some? ==> ls[0] == TooltipLine(caption, v.value)
  {
    if v.Some? then [TooltipLine(caption, v.value)] else []
  }

  function PresentCount(p: ChartPoint): nat {
    (if p.entrada.Some? then 1 else 0) + (if p.salida.Some? then 1 else 0)
    + (if p.perdidas.Some? then 1 else 0)
  }

  // ---------------------------------------------------------------- the tooltip as written

  /** The tooltip's `payload`: recharts passes one entry per bar and, with `filterNull` at its
      default, leaves out the entries whose value is `null`; the volumes left keep the order
      of the bars. */
  function Payload(p: ChartPoint): (vs: seq<real>)
    ensures |vs| == PresentCount(p)
  {
    LineValues(TooltipLines(p))
  }

  function LineValues(ls: seq<TooltipLine>): (vs: seq<real>)
    ensures |vs| == |ls| && forall i :: 0 <= i < |ls| ==> vs[i] == ls[i].value
  {
    seq(|ls|, i requires 0 <= i < |ls| => ls[i].value)
  }

  /** A line of the tooltip as written: the caption of its position and the value there. */
  datatype ShownLine = ShownLine(caption: string, value: real)

  /** `CustomTooltip` as written: nothing when the payload is empty; otherwise one line per
      payload entry, the i-th captioned "Entrada", "Salida" or "Pérdidas" by its position
      and showing the i-th payload value, whichever volume the filtering has moved there. */
  function TooltipAsWritten(p: ChartPoint): (t: Option<seq<ShownLine>>)
    ensures t.None? <==> PresentCount(p) == 0
    ensures t.Some? ==> |t.value| == PresentCount(p)
    ensures t.Some? ==> forall i :: 0 <= i < |t.value| ==>
      (t.value[i].caption == Captions[i] && t.value[i].value == Payload(p)[i])
  {
    var vs := Payload(p);
    if vs == [] then None
    else Some(seq(|vs|, i requires 0 <= i < |vs| => ShownLine(Captions[i], vs[i])))
  }

  /** A zero inflow is dropped from the point, so the tooltip shows its outflow under the
      caption "Entrada", and the losses, when given, under "Salida"; without losses the
      outflow is the only line. */
  lemma ZeroInflowMislabelled(r: BalanceRecord, salida: real)
    requires r.entrada == Num(0.0) && r.salida == Num(salida)
    ensures TooltipAsWritten(PointOf(r)).Some?
    ensures TooltipAsWritten(PointOf(r)).value[0] == ShownLine("Entrada", salida)
    ensures TooltipLines(PointOf(r))[0] == TooltipLine("Salida", salida)
    ensures r.perdidas.Num? ==>
      TooltipAsWritten(PointOf(r)).value == [ShownLine("Entrada", salida), ShownLine("Salida", r.perdidas.x)]
    ensures !r.perdidas.Num? ==> TooltipAsWritten(PointOf(r)).value == [ShownLine("Entrada", salida)]
  {
    var p := PointOf(r);
    assert Payload(p)[0] == salida;
    if r.perdidas.Num? {
      assert Payload(p)[1] == r.perdidas.x;
    }
  }

  // ---------------------------------------------------------------- the tooltip intended

  /** The tooltip intended: a line for each volume that is not `null`, captioned by its own
      bar, in the order inflow, outflow, losses. */
  function TooltipLines(p: ChartPoint): (ls: seq<TooltipLine>)
    ensures |ls| == PresentCount(p)
    ensures forall i :: 0 <= i < |ls| ==> (Rank(ls[i].caption) < 3
      && Volume(p, Rank(ls[i].caption)) == Some(ls[i].value))
    ensures forall i, j :: 0 <= i < j < |ls| ==> Rank(ls[i].caption) < Rank(ls[j].caption)
  {
    LineIf(Captions[0], p.entrada) + LineIf(Captions[1], p.salida) + LineIf(Captions[2], p.perdidas)
  }

  /** Each volume has a line, under its own caption, exactly when it is not `null`. */
  lemma TooltipShowsPresent(p: ChartPoint, k: nat)
    requires k < 3
    ensures Volume(p, k).Some? <==> exists i :: 0 <= i < |TooltipLines(p)| && TooltipLines(p)[i].caption == Captions[k]
  {
    var a := LineIf(Captions[0], p.entrada);
    var b := LineIf(Captions[1], p.salida);
    var c := LineIf(Captions[2], p.perdidas);
    assert TooltipLines(p) == a + b + c;
    if Volume(p, k).Some? {
      var i := |a| * (if k > 0 then 1 else 0) + |b| * (if k > 1 then 1 else 0);
      assert TooltipLines(p)[i].caption == Captions[k];
    }
  }

  /** The null volumes are at the end of the bars' order. */
  predicate NullsTrail(p: ChartPoint) {
    (p.salida.Some? ==> p.entrada.Some?) && (p.perdidas.Some? ==> p.salida.Some?)
  }

  /** Every value the tooltip shows stands under the caption of its own bar. */
  predicate Truthful(p: ChartPoint, t: seq<ShownLine>) {
    forall i :: 0 <= i < |t| ==>
      (Rank(t[i].caption) < 3 && Volume(p, Rank(t[i].caption)) == Some(t[i].value))
  }

  /** The tooltip as written shows every value under its own caption exactly when the null
      volumes come last; a gap before a present volume shifts its caption. */
  lemma AsWrittenTruthfulIffNullsTrail(p: ChartPoint)
    requires PresentCount(p) > 0
    ensures Truthful(p, TooltipAsWritten(p).value) <==> NullsTrail(p)
  {
    var w := TooltipAsWritten(p).value;
    var ls := TooltipLines(p);
    var a := LineIf(Captions[0], p.entrada);
    var b := LineIf(Captions[1], p.salida);
    var c := LineIf(Captions[2], p.perdidas);
    assert ls == a + b + c;
    if NullsTrail(p) {
      forall i | 0 <= i < |ls| ensures ls[i].caption == Captions[i] {
      }
      forall i | 0 <= i < |w|
        ensures Rank(w[i].caption) < 3 && Volume(p, Rank(w[i].caption)) == Some(w[i].value)
      {
        assert w[i].value == Payload(p)[i] && Payload(p)[i] == ls[i].value;
        assert Rank(w[i].caption) == i;
      }
    } else {
      if p.entrada.None? {
        assert Rank(w[0].caption) == 0;
      } else {
        assert w[1].value == Payload(p)[1] && Rank(w[1].caption) == 1;
      }
    }
  }
}
