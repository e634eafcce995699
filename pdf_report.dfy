/** The PDF balance reports (frontend/src/utils/pdfGenerator.js): the cells of a balance
    row, the KPI block, and the page bookkeeping of the single-valve and consolidated
    reports — a page inserted before every valve after the first, and the footer
    "Página i de N" written on every page.

    Drawing (fonts, colours, coordinates) and the layout of `autoTable` are not modelled:
    the number of pages a valve's tables run over is given as data. */
module PdfReport {
  import opened Wrappers
  import opened Text
  import opened Seqs
  import opened PeriodLabels
  import opened BalanceTable

  // ---------------------------------------------------------------- rows

  /** A table cell: "-", a formatted amount, or a percentage. */
  datatype Cell = Dash | Amount(x: real) | Percent(x: real)

  datatype PdfRow = PdfRow(
    periodo: string, entrada: Cell, salida: Cell, perdidas: Cell, indice: Cell, tipo: string)

  /** `item.v?.toLocaleString() || "-"`: any number, 0 included, prints as an amount. */
  function AmountOrDash(f: Field): (c: Cell)
    ensures c.Amount? <==> f.Num?
    ensures c.Amount? ==> c.x == f.x
  {
    if f.Num? then Amount(f.x) else Dash
  }

  /** `item.indice ? x.xx% : "-"`: an index of 0 prints as "-". */
  function PercentOrDash(f: Field): (c: Cell)
    ensures c.Percent? <==> f.Num? && f.x != 0.0
    ensures c.Percent? ==> c.x == f.x
  {
    if f.Num? && f.x != 0.0 then Percent(f.x) else Dash
  }

  function PdfRowOf(r: BalanceRecord): PdfRow {
    PdfRow(LongLabel(r.periodo), AmountOrDash(r.entrada), AmountOrDash(r.salida),
           AmountOrDash(r.perdidas), PercentOrDash(r.indice),
           if r.esPronostico then "Predicho" else "Real")
  }

  /** `tableRows`: one row per record, in order. */
  function PdfRows(data: seq<BalanceRecord>): (rows: seq<PdfRow>)
    ensures |rows| == |data|
    ensures forall i :: 0 <= i < |data| ==> rows[i] == PdfRowOf(data[i])
  {
    seq(|data|, i requires 0 <= i < |data| => PdfRowOf(data[i]))
  }

  /** The report row agrees with the on-screen table row: the same period label and the
      same type, capitalised. */
  lemma PdfRowAgreesWithTable(r: BalanceRecord)
    ensures PdfRowOf(r).periodo == RowOf(r).month
    ensures PdfRowOf(r).tipo == "Predicho" <==> RowOf(r).tipo == "predicho"
    ensures PdfRowOf(r).tipo == "Real" <==> RowOf(r).tipo == "real"
  {
  }

  /** An inflow of 0 is printed in the report but shown as 0 on screen, and an index of 0
      is printed as "-" although it is a number. */
  lemma ZeroCells(r: BalanceRecord)
    requires r.entrada == Num(0.0) && r.indice == Num(0.0)
    ensures PdfRowOf(r).entrada == Amount(0.0) && PdfRowOf(r).indice == Dash
    ensures RowOf(r).entrada == 0.0
  {
  }

  // ---------------------------------------------------------------- KPI block

  /** The summary figures passed in; `None` is `null`. */
  datatype KpiInput = KpiInput(totalPerdidas: Option<real>, indicePromedio: Option<real>)

  datatype KpiBlock = KpiBlock(totalPerdidas: Option<real>, indicePromedio: Option<real>,
                               eficiencia: real)

  /** `100 - (indice_promedio || 0)`. */
  function Efficiency(indicePromedio: Option<real>): (e: real)
    ensures e + indicePromedio.GetOr(0.0) == 100.0
  {
    100.0 - (if TruthyNumber(indicePromedio) then indicePromedio.value else 0.0)
  }

  /** The KPI block is printed only when summary figures are passed. */
  function KpiSummary(kpis: Option<KpiInput>): (b: Option<KpiBlock>)
    ensures b.Some? <==> kpis.Some?
    ensures b.Some? ==> b.value.eficiencia + kpis.value.indicePromedio.GetOr(0.0) == 100.0
    ensures b.Some? ==> b.value.totalPerdidas == kpis.value.totalPerdidas
    ensures b.Some? ==> b.value.indicePromedio == kpis.value.indicePromedio
  {
    match kpis
    case None => None
    case Some(k) => Some(KpiBlock(k.totalPerdidas, k.indicePromedio, Efficiency(k.indicePromedio)))
  }

  // ---------------------------------------------------------------- pages

  /** "Página i de N". */
  function PageFooter(i: nat, n: nat): string {
    "Página " + NatToString(i) + " de " + NatToString(n)
  }

  /** Different pages of a document get different footers. */
  lemma PageFootersDistinct(i: nat, j: nat, n: nat)
    requires PageFooter(i, n) == PageFooter(j, n)
    ensures i == j
  {
    var p := "Página ";
    var a := NatToString(i);
    var b := NatToString(j);
    var s := PageFooter(i, n);
    assert s == p + a + (" de " + NatToString(n));
    assert s == p + b + (" de " + NatToString(n));
    assert a == s[|p|..|p| + |a|] == b;
    NatToStringInjective(i, j);
  }

  /** A valve of the consolidated report: its id and the number of extra pages its tables
      runs over. */
  datatype ValveSection = ValveSection(id: string, overflow: nat)

  function Ids(vs: seq<ValveSection>): (ids: seq<string>)
    ensures |ids| == |vs| && forall i :: 0 <= i < |vs| ==> ids[i] == vs[i].id
  {
    seq(|vs|, i requires 0 <= i < |vs| => vs[i].id)
  }

  function Overflow(v: ValveSection): real { v.overflow as real }

  /** A jsPDF document as far as page bookkeeping goes. */
  class Document {
    var pageCount: nat
    var currentPage: nat
    /** The footer written on each page, "" where none was written. */
    var footers: seq<string>
    /** The valves written, in order, and the page on which each section starts. */
    var sectionIds: seq<string>
    var sectionPages: seq<nat>

    predicate Valid()
      reads this
    {
      1 <= currentPage <= pageCount && |footers| == pageCount
      && |sectionPages| == |sectionIds|
      && forall k :: 0 <= k < |sectionPages| ==> 1 <= sectionPages[k] <= pageCount
    }

    /** `new jsPDF()`: one empty page. */
    constructor ()
      ensures Valid()
      ensures pageCount == 1 && currentPage == 1 && footers == [""]
      ensures sectionIds == [] && sectionPages == []
    {
      pageCount := 1;
      currentPage := 1;
      footers := [""];
      sectionIds := [];
      sectionPages := [];
    }

    /** `doc.addPage()`: a new last page, which becomes the current one. */
    method AddPage()
      requires Valid()
      modifies this
      ensures Valid()
      ensures pageCount == old(pageCount) + 1 && currentPage == pageCount
      ensures footers == old(footers) + [""]
      ensures sectionIds == old(sectionIds) && sectionPages == old(sectionPages)
    {
      pageCount := pageCount + 1;
      currentPage := pageCount;
      footers := footers + [""];
    }

    /** `doc.setPage(i)`. */
    method SetPage(i: nat)
      requires Valid() && 1 <= i <= pageCount
      modifies this
      ensures Valid() && currentPage == i
      ensures pageCount == old(pageCount) && footers == old(footers)
      ensures sectionIds == old(sectionIds) && sectionPages == old(sectionPages)
    {
      currentPage := i;
    }

    /** The footer `doc.text(...)` writes on the current page. */
    method WriteFooter(text: string)
      requires Valid()
      modifies this
      ensures Valid()
      ensures footers == old(footers)[old(currentPage) - 1 := text]
      ensures pageCount == old(pageCount) && currentPage == old(currentPage)
      ensures sectionIds == old(sectionIds) && sectionPages == old(sectionPages)
    {
      footers := footers[currentPage - 1 := text];
    }

    /** `addValveContent`: the section starts on the current page; its tables may run over
        `overflow` new pages, the last of which becomes current. */
    method AddValveContent(v: ValveSection)
      requires Valid()
      modifies this
      ensures Valid()
      ensures sectionIds == old(sectionIds) + [v.id]
      ensures sectionPages == old(sectionPages) + [old(currentPage)]
      ensures pageCount == old(pageCount) + v.overflow
      ensures v.overflow > 0 ==> currentPage == pageCount
      ensures v.overflow == 0 ==> currentPage == old(currentPage)
      ensures footers == old(footers) + seq(v.overflow, k => "")
    {
      sectionIds := sectionIds + [v.id];
      sectionPages := sectionPages + [currentPage];
      if v.overflow > 0 {
        footers := footers + seq(v.overflow, k => "");
        pageCount := pageCount + v.overflow;
        currentPage := pageCount;
      }
    }

    /** `addPageNumbers`: every page i of N gets the footer "Página i de N"; the pages and
        the sections are unchanged. */
    method AddPageNumbers()
      requires Valid()
      modifies this
      ensures Valid()
      ensures pageCount == old(pageCount)
      ensures sectionIds == old(sectionIds) && sectionPages == old(sectionPages)
      ensures forall p :: 1 <= p <= pageCount ==> footers[p - 1] == PageFooter(p, pageCount)
    {
      var n := pageCount;
      var i := 1;
      while i <= n
        invariant 1 <= i <= n + 1
        invariant Valid() && pageCount == n
        invariant sectionIds == old(sectionIds) && sectionPages == old(sectionPages)
        invariant forall p :: 1 <= p < i ==> footers[p - 1] == PageFooter(p, n)
      {
        SetPage(i);
        WriteFooter(PageFooter(i, n));
        i := i + 1;
      }
    }
  }

  /** `generateBalanceReport`: one valve section on the first page, then the page
      numbers. */
  method GenerateBalanceReport(v: ValveSection) returns (doc: Document)
    ensures fresh(doc) && doc.Valid()
    ensures doc.sectionIds == [v.id] && doc.sectionPages == [1]
    ensures doc.pageCount == 1 + v.overflow
    ensures forall p :: 1 <= p <= doc.pageCount ==> doc.footers[p - 1] == PageFooter(p, doc.pageCount)
  {
    doc := new Document();
    doc.AddValveContent(v);
    doc.AddPageNumbers();
  }

  /** `generateFullReport`: the valves in order, a page inserted before every valve after
      the first, then the page numbers. */
  method GenerateFullReport(valves: seq<ValveSection>) returns (doc: Document)
    ensures fresh(doc) && doc.Valid()
    ensures doc.sectionIds == Ids(valves)
    ensures doc.pageCount as real
         == 1.0 + (if |valves| > 0 then (|valves| - 1) as real else 0.0) + SumOf(valves, Overflow)
    ensures |valves| > 0 ==> doc.sectionPages[0] == 1
    ensures forall k :: 0 < k < |valves| ==>
      doc.sectionPages[k] == doc.sectionPages[k - 1] + valves[k - 1].overflow + 1
    ensures forall p :: 1 <= p <= doc.pageCount ==> doc.footers[p - 1] == PageFooter(p, doc.pageCount)
  {
    doc := new Document();
    var index := 0;
    while index < |valves|
      invariant 0 <= index <= |valves|
      invariant doc.Valid() && fresh(doc)
      invariant doc.sectionIds == Ids(valves[..index])
      invariant |doc.sectionPages| == index
      invariant index > 0 ==> doc.currentPage == doc.pageCount
      invariant doc.pageCount as real
             == 1.0 + (if index > 0 then (index - 1) as real else 0.0) + SumOf(valves[..index], Overflow)
      invariant index > 0 ==> doc.sectionPages[0] == 1
      invariant index > 0 ==> doc.pageCount == doc.sectionPages[index - 1] + valves[index - 1].overflow
      invariant forall k :: 0 < k < index ==>
        doc.sectionPages[k] == doc.sectionPages[k - 1] + valves[k - 1].overflow + 1
    {
      if index > 0 {
        doc.AddPage();
      }
      doc.AddValveContent(valves[index]);
      SumOfSnoc(valves[..index], valves[index]);
      assert valves[..index + 1] == valves[..index] + [valves[index]];
      index := index + 1;
    }
    assert valves[..index] == valves;
    doc.AddPageNumbers();
  }

  lemma SumOfSnoc(s: seq<ValveSection>, v: ValveSection)
    ensures SumOf(s + [v], Overflow) == SumOf(s, Overflow) + Overflow(v)
  {
    SumOfAppend(s, [v], Overflow);
    assert [v][1..] == [];
  }
}
