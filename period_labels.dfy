/** The three ways the frontend turns a `YYYYMM` period code into a month label:
    the long form "<month> <year>" of the balance table and the PDF report
    (frontend/src/components/ui/BalanceTable.jsx, frontend/src/utils/pdfGenerator.js),
    the short month of the balance chart (frontend/src/components/charts/BalanceChart.jsx)
    and the short month read from the last two characters in the loss-index chart
    (frontend/src/components/charts/LossIndexChart.jsx).

    None of them checks the code: a month that is not a number from 1 to 12 indexes past
    the month list and yields `undefined`, modelled as `None`. */
module PeriodLabels {
  import opened Wrappers
  import opened Text

  const LongMonths: seq<string> := ["Enero", "Febrero", "Marzo", "Abril", "Mayo", "Junio",
    "Julio", "Agosto", "Septiembre", "Octubre", "Noviembre", "Diciembre"]

  const ShortMonths: seq<string> := ["Ene", "Feb", "Mar", "Abr", "May", "Jun", "Jul", "Ago",
    "Sep", "Oct", "Nov", "Dic"]

  /** Each short month is the first three letters of the long one. */
  lemma ShortMonthsAbbreviateLong()
    ensures |ShortMonths| == |LongMonths| == 12
    ensures forall i :: 0 <= i < 12 ==> ShortMonths[i] == LongMonths[i][..3]
  {
  }

  lemma ShortMonthsThreeLetters()
    ensures forall i :: 0 <= i < |ShortMonths| ==> |ShortMonths[i]| == 3
  {
  }

  lemma LongMonthsLong()
    ensures forall i :: 0 <= i < |LongMonths| ==> |LongMonths[i]| >= 4
  {
  }

  lemma LongMonthsDistinct()
    ensures forall i, j :: 0 <= i < j < |LongMonths| ==> LongMonths[i] != LongMonths[j]
  {
  }

  /** No abbreviation reads "N/A". */
  lemma NotAvailableIsNoMonth()
    ensures "N/A" !in ShortMonths
  {
    forall i | 0 <= i < |ShortMonths| ensures ShortMonths[i] != "N/A" {
      assert ShortMonths[i][1] != '/';
    }
  }

  /** The abbreviation of month `k + 1` is the start of its name. */
  lemma ShortMonthAt(k: nat)
    requires k < 12
    ensures ShortMonths[k] == LongMonths[k][..3] && |LongMonths[k]| >= 4
  {
    ShortMonthsAbbreviateLong();
    LongMonthsLong();
  }

  lemma ShortMonthsDistinct()
    ensures forall i, j :: 0 <= i < j < |ShortMonths| ==> ShortMonths[i] != ShortMonths[j]
  {
  }

  /** `meses[i]`: `undefined` for NaN or an index outside the list. */
  function Lookup(months: seq<string>, i: Option<int>): (r: Option<string>)
    ensures r.Some? <==> i.Some? && 0 <= i.value < |months|
    ensures r.Some? ==> r.value == months[i.value]
  {
    if i.Some? && 0 <= i.value < |months| then Some(months[i.value]) else None
  }

  /** `parseInt(text) - 1`: NaN minus one is NaN. */
  function MonthIndexOf(text: string): Option<int> {
    match ParseInt(text)
    case None => None
    case Some(v) => Some(v - 1)
  }

  /** A template literal writes `undefined` for a missing value. */
  function Shown(o: Option<string>): string
  {
    if o.Some? then o.value else "undefined"
  }

  // ---------------------------------------------------------------- well-formed codes

  /** Six digits whose last two are a month from 01 to 12. */
  predicate ValidCode(p: string) {
    |p| == 6 && (forall i :: 0 <= i < 6 ==> IsDigit(p[i]))
    && 1 <= 10 * DigitValue(p[4]) + DigitValue(p[5]) <= 12
  }

  function MonthOf(p: string): (m: nat)
    requires ValidCode(p)
    ensures 1 <= m <= 12
  {
    10 * DigitValue(p[4]) + DigitValue(p[5])
  }

  /** `parseInt(periodo.substring(4, 6)) - 1` of a valid code is its month less one. */
  lemma ValidMonthIndex(p: string)
    requires ValidCode(p)
    ensures MonthIndexOf(JsSubstring(p, 4, 6)) == Some(MonthOf(p) - 1)
  {
    MonthDigits(p);
    ParseTwoDigits(p[4], p[5]);
  }

  /** Characters 4 and 5 of a valid code are its month digits. */
  lemma MonthDigits(p: string)
    requires |p| == 6
    ensures JsSubstring(p, 4, 6) == [p[4], p[5]]
  {
    assert p[4..6] == [p[4], p[5]];
  }

  // ---------------------------------------------------------------- long form

  /** `formatPeriodo` of the balance table and the PDF report: "N/A" for a falsy period,
      otherwise the month name, a space and the first four characters. */
  function LongLabel(periodo: Option<string>): string
  {
    if !Truthy(periodo) then "N/A"
    else
      var p := periodo.value;
      Shown(Lookup(LongMonths, MonthIndexOf(JsSubstring(p, 4, 6)))) + " " + JsSubstring(p, 0, 4)
  }

  /** Only a falsy period is shown as "N/A": every other label holds a space after at least
      three characters. */
  lemma LongLabelNotAvailable(periodo: Option<string>)
    ensures LongLabel(periodo) == "N/A" <==> !Truthy(periodo)
  {
    if Truthy(periodo) {
      var p := periodo.value;
      var m := Shown(Lookup(LongMonths, MonthIndexOf(JsSubstring(p, 4, 6))));
      LongMonthsLong();
      assert |m| >= 4;
      assert LongLabel(periodo)[|m|] == ' ';
    }
  }

  /** A valid code reads "<month> <year>": "202407" gives "Julio 2024". */
  lemma LongLabelOfValid(p: string)
    requires ValidCode(p)
    ensures LongLabel(Some(p)) == LongMonths[MonthOf(p) - 1] + " " + p[..4]
  {
    NameOfValid(LongMonths, p);
  }

  /** The month looked up for a valid code, in a twelve-month list. */
  lemma NameOfValid(months: seq<string>, p: string)
    requires ValidCode(p) && |months| == 12
    ensures Lookup(months, MonthIndexOf(JsSubstring(p, 4, 6))) == Some(months[MonthOf(p) - 1])
    ensures JsSubstring(p, 0, 4) == p[..4]
  {
    ValidMonthIndex(p);
  }

  /** A truthy code whose characters 4-5 are not a month from 01 to 12 (a code shorter than
      six characters, "202413", "2024ab") is shown as "undefined " followed by its first four
      characters. */
  lemma LongLabelOfBadMonth(p: string)
    requires p != ""
    requires Lookup(LongMonths, MonthIndexOf(JsSubstring(p, 4, 6))).None?
    ensures LongLabel(Some(p)) == "undefined" + " " + JsSubstring(p, 0, 4)
  {
  }

  /** Index of the first occurrence of `name` in `names`. */
  function IndexOf(names: seq<string>, name: string): (r: Option<nat>)
    ensures r.Some? <==> name in names
    ensures r.Some? ==> r.value < |names| && names[r.value] == name
    ensures r.Some? ==> forall j :: 0 <= j < r.value ==> names[j] != name
  {
    if names == [] then None
    else if names[0] == name then Some(0)
    else match IndexOf(names[1..], name)
      case None => None
      case Some(i) => Some(i + 1)
  }

  /** In a list without repetitions, the first occurrence of an element is its position. */
  lemma IndexOfDistinct(names: seq<string>, k: nat)
    requires k < |names|
    requires forall i, j :: 0 <= i < j < |names| ==> names[i] != names[j]
    ensures IndexOf(names, names[k]) == Some(k)
  {
  }

  /** Reading a long label back: the text before the last five characters names the month,
      the last four are the year. */
  function PeriodOfLongLabel(caption: string): Option<string>
  {
    if |caption| < 5 || caption[|caption| - 5] != ' ' then None
    else match IndexOf(LongMonths, caption[..|caption| - 5])
      case None => None
      case Some(i) => Some(caption[|caption| - 4..] + Pad2(i + 1))
  }

  /** The long label loses nothing: a valid code is read back from it. */
  lemma LongLabelRoundTrip(p: string)
    requires ValidCode(p)
    ensures PeriodOfLongLabel(LongLabel(Some(p))) == Some(p)
  {
    LongLabelOfValid(p);
    ReadBack(MonthOf(p) - 1, p[..4]);
    CodeSplit(p);
  }

  /** The label of month `k + 1` of `year` reads back as the year and the padded month. */
  lemma ReadBack(k: nat, year: string)
    requires k < |LongMonths| && |year| == 4
    ensures PeriodOfLongLabel(LongMonths[k] + " " + year) == Some(year + Pad2(k + 1))
  {
    SplitCaption(LongMonths[k], year);
    LongMonthsDistinct();
    IndexOfDistinct(LongMonths, k);
  }

  lemma SplitCaption(name: string, year: string)
    requires |year| == 4
    ensures var c := name + " " + year;
      |c| == |name| + 5 && c[..|c| - 5] == name && c[|c| - 5] == ' ' && c[|c| - 4..] == year
  {
  }

  /** A valid code is its year followed by its padded month. */
  lemma CodeSplit(p: string)
    requires ValidCode(p)
    ensures p[..4] + Pad2(MonthOf(p)) == p
  {
    Pad2TwoDigits(p[4], p[5]);
    assert p == p[..4] + [p[4], p[5]];
  }

  /** Distinct valid codes get distinct long labels. */
  lemma LongLabelInjective(p: string, q: string)
    requires ValidCode(p) && ValidCode(q)
    requires LongLabel(Some(p)) == LongLabel(Some(q))
    ensures p == q
  {
    LongLabelRoundTrip(p);
    LongLabelRoundTrip(q);
  }

  // ---------------------------------------------------------------- short form

  /** `formatPeriodo` of the balance chart: "N/A" for a falsy period, otherwise the short
      month at characters 4-5, or `undefined` (`None`). The year is dropped. */
  function ShortLabel(periodo: Option<string>): (r: Option<string>)
    ensures r == Some("N/A") <==> !Truthy(periodo)
    ensures Truthy(periodo) && r.Some? ==> r.value in ShortMonths
  {
    NotAvailableIsNoMonth();
    if !Truthy(periodo) then Some("N/A")
    else Lookup(ShortMonths, MonthIndexOf(JsSubstring(periodo.value, 4, 6)))
  }

  /** A valid code shows the abbreviation of its month. */
  lemma ShortLabelOfValid(p: string)
    requires ValidCode(p)
    ensures ShortLabel(Some(p)) == Some(ShortMonths[MonthOf(p) - 1])
  {
    NameOfValid(ShortMonths, p);
  }

  /** The short label of a valid code is the first three letters of its long label. */
  lemma ShortLabelAbbreviatesLong(p: string)
    requires ValidCode(p)
    ensures ShortLabel(Some(p)) == Some(LongLabel(Some(p))[..3])
  {
    var k := MonthOf(p) - 1;
    var short, name, year := ShortMonths[k], LongMonths[k], p[..4];
    assert ShortLabel(Some(p)) == Some(short) by {
      ShortLabelOfValid(p);
    }
    assert LongLabel(Some(p)) == name + " " + year by {
      LongLabelOfValid(p);
    }
    assert (name + " " + year)[..3] == short by {
      ShortMonthAt(k);
      AbbreviationStartsLabel(short, name, year);
    }
  }

  lemma AbbreviationStartsLabel(short: string, name: string, year: string)
    requires 3 <= |name| && short == name[..3]
    ensures (name + " " + year)[..3] == short
  {
    assert name + " " + year == name + (" " + year);
    PrefixOfConcat(name, " " + year, 3);
  }

  lemma PrefixOfConcat(a: string, b: string, n: nat)
    requires n <= |a|
    ensures (a + b)[..n] == a[..n]
  {
  }

  /** The month a short label stands for. */
  function MonthOfShortLabel(caption: string): (m: Option<nat>)
    ensures m.Some? <==> caption in ShortMonths
    ensures m.Some? ==> 1 <= m.value <= 12 && ShortMonths[m.value - 1] == caption
  {
    match IndexOf(ShortMonths, caption)
    case None => None
    case Some(i) => Some(i + 1)
  }

  /** The short label of a valid code keeps its month, and only its month. */
  lemma ShortLabelRoundTrip(p: string)
    requires ValidCode(p)
    ensures ShortLabel(Some(p)).Some?
    ensures MonthOfShortLabel(ShortLabel(Some(p)).value) == Some(MonthOf(p))
  {
    var k := MonthOf(p) - 1;
    ShortLabelOfValid(p);
    MonthOfShortMonth(k);
  }

  /** Each abbreviation stands for its own month. */
  lemma MonthOfShortMonth(k: nat)
    requires k < 12
    ensures MonthOfShortLabel(ShortMonths[k]) == Some(k + 1)
  {
    var m := MonthOfShortLabel(ShortMonths[k]);
    assert m.Some?;
    ShortMonthsDistinct();
    assert ShortMonths[m.value - 1] == ShortMonths[k];
  }

  // ---------------------------------------------------------------- last-two-characters form

  /** A period as the loss-index chart may receive it: missing, a string or a number. */
  datatype PeriodValue = Missing | Chars(s: string) | Number(n: int)

  predicate TruthyValue(v: PeriodValue) {
    match v
    case Missing => false
    case Chars(s) => s != ""
    case Number(n) => n != 0
  }

  /** `periodo.toString()`. */
  function TextOf(v: PeriodValue): string
    requires TruthyValue(v)
  {
    match v
    case Chars(s) => s
    case Number(n) => IntToString(n)
  }

  /** `formatPeriodo` of the loss-index chart: "" for a falsy period; otherwise the short
      month read from the last two characters, whatever the length, or the period itself
      when they are not a month from 1 to 12. */
  function LastTwoLabel(periodo: PeriodValue): (r: string)
    ensures r == "" <==> !TruthyValue(periodo)
    ensures TruthyValue(periodo) ==> r in ShortMonths || r == TextOf(periodo)
  {
    if !TruthyValue(periodo) then ""
    else
      var text := TextOf(periodo);
      ShortMonthsThreeLetters();
      match Lookup(ShortMonths, MonthIndexOf(JsSliceLast(text, 2)))
      case Some(m) => m
      case None => text
  }

  /** Any text ending in the two digits of a month from 01 to 12 is labelled with that
      month. */
  lemma LastTwoOfMonth(s: string, a: char, b: char)
    requires IsDigit(a) && IsDigit(b) && 1 <= 10 * DigitValue(a) + DigitValue(b) <= 12
    ensures LastTwoLabel(Chars(s + [a, b])) == ShortMonths[10 * DigitValue(a) + DigitValue(b) - 1]
  {
    LastTwoIndex(ShortMonths, s, a, b);
  }

  /** The month index read from the last two digits of a text, in a twelve-month list. */
  lemma LastTwoIndex(months: seq<string>, s: string, a: char, b: char)
    requires |months| == 12 && IsDigit(a) && IsDigit(b)
    ensures var n := 10 * DigitValue(a) + DigitValue(b);
      Lookup(months, MonthIndexOf(JsSliceLast(s + [a, b], 2)))
        == if 1 <= n <= 12 then Some(months[n - 1]) else None
  {
    var u := JsSliceLast(s + [a, b], 2);
    assert u == [a, b];
    TwoDigitIndex(a, b);
    assert MonthIndexOf(u) == Some(10 * DigitValue(a) + DigitValue(b) - 1);
  }

  /** `parseInt` of two digits, less one. */
  lemma TwoDigitIndex(a: char, b: char)
    requires IsDigit(a) && IsDigit(b)
    ensures MonthIndexOf([a, b]) == Some(10 * DigitValue(a) + DigitValue(b) - 1)
  {
    var t := [a, b];
    ParseTwoDigits(a, b);
    MonthIndexOfParsed(t, 10 * DigitValue(a) + DigitValue(b));
  }

  lemma MonthIndexOfParsed(text: string, v: int)
    requires ParseInt(text) == Some(v)
    ensures MonthIndexOf(text) == Some(v - 1)
  {
  }

  /** Text ending in two digits that are not a month (00, 13-99) is shown unchanged. */
  lemma LastTwoOfNonMonth(s: string, a: char, b: char)
    requires IsDigit(a) && IsDigit(b)
    requires 10 * DigitValue(a) + DigitValue(b) == 0 || 10 * DigitValue(a) + DigitValue(b) > 12
    ensures LastTwoLabel(Chars(s + [a, b])) == s + [a, b]
  {
    LastTwoIndex(ShortMonths, s, a, b);
  }

  /** On a valid code the loss-index chart and the balance chart show the same month. */
  lemma LastTwoAgreesWithShort(p: string)
    requires ValidCode(p)
    ensures ShortLabel(Some(p)) == Some(LastTwoLabel(Chars(p)))
  {
    LastTwoOfValid(p);
    ShortLabelOfValid(p);
  }

  /** The last two characters of a valid code name its month. */
  lemma LastTwoOfValid(p: string)
    requires ValidCode(p)
    ensures LastTwoLabel(Chars(p)) == ShortMonths[MonthOf(p) - 1]
  {
    assert p == p[..4] + [p[4], p[5]];
    LastTwoOfMonth(p[..4], p[4], p[5]);
  }
}
