/** The correlation scatter plot (frontend/src/components/charts/InteractiveScatterPlot.jsx):
    the data fallback, the Pearson coefficient computed from five running sums, and the
    strength label, colour and sign shown for a coefficient.

    `Math.sqrt` is not computed: its result is a parameter `root`, of which only the facts
    in `IsSqrt` are assumed. A coefficient is `Option<real>`, `None` standing for NaN. */
module ScatterPlot {
  import opened Wrappers
  import opened Text
  import opened Seqs

  datatype Point = Point(valvula: string, periodo: string, x: real, y: real, z: real)

  function MockPoint(i: nat): Point {
    Point("VALVULA_" + NatToString(i % 5 + 1), "2024" + Pad2(i % 12 + 1),
          50.0 + i as real * 3.2 + (i % 3) as real * 5.0,
          5.0 + i as real * 0.4 + (i % 5) as real * 1.5,
          5.0 + (i % 8) as real)
  }

  /** `defaultMockData`: thirty points over five valves and twelve months of 2024. */
  function MockData(): (r: seq<Point>)
    ensures |r| == 30
    ensures forall i :: 0 <= i < 30 ==> r[i] == MockPoint(i)
  {
    seq(30, i requires 0 <= i => MockPoint(i))
  }

  /** `data || defaultMockData`: an array, even an empty one, is truthy. */
  function DisplayData(data: Option<seq<Point>>): (r: seq<Point>)
    ensures data.Some? ==> r == data.value
    ensures data.None? ==> |r| == 30
  {
    match data
    case Some(d) => d
    case None => MockData()
  }

  function X(p: Point): real { p.x }
  function Y(p: Point): real { p.y }
  function XY(p: Point): real { p.x * p.y }
  function XX(p: Point): real { p.x * p.x }
  function YY(p: Point): real { p.y * p.y }

  /** The five running sums and the count. */
  datatype Sums = Sums(n: real, sumX: real, sumY: real, sumXY: real, sumX2: real, sumY2: real)

  function SumsOf(d: seq<Point>): Sums {
    Sums(|d| as real, SumOf(d, X), SumOf(d, Y), SumOf(d, XY), SumOf(d, XX), SumOf(d, YY))
  }

  /** `n * sumXY - sumX * sumY`. */
  function NumeratorOf(s: Sums): real {
    s.n * s.sumXY - s.sumX * s.sumY
  }

  /** The argument of `Math.sqrt`. */
  function RadicandOf(s: Sums): real {
    (s.n * s.sumX2 - s.sumX * s.sumX) * (s.n * s.sumY2 - s.sumY * s.sumY)
  }

  function Numerator(d: seq<Point>): real {
    NumeratorOf(SumsOf(d))
  }

  function Radicand(d: seq<Point>): real {
    RadicandOf(SumsOf(d))
  }

  /** What is assumed of `root == Math.sqrt(v)`: a non-negative number, zero exactly
      when `v` is, for a non-negative `v`; NaN for a negative one. */
  predicate IsSqrt(root: Option<real>, v: real) {
    if v >= 0.0 then root.Some? && root.value >= 0.0 && (root.value == 0.0 <==> v == 0.0)
    else root.None?
  }

  /** `calculatedCorrelation`: a non-null prop as given; otherwise numerator over
      denominator (`root`, the value of `Math.sqrt(Radicand(d))`), or 0 when the
      denominator is 0. */
  function Correlation(external: Option<real>, d: seq<Point>, root: Option<real>): (c: Option<real>)
    ensures external.Some? ==> c == external
    ensures external.None? && root == Some(0.0) ==> c == Some(0.0)
    ensures external.None? && root.Some? && root.value != 0.0 ==> c == Some(Ratio(Numerator(d), root.value))
    ensures external.None? && root.None? ==> c.None?
  {
    if external.Some? then external
    else match root
      case None => None
      case Some(den) =>
        if den == 0.0 then Some(0.0)
        else Some(Ratio(Numerator(d), den))
  }

  /** The quotient, stated by what it is: times the divisor it gives back the dividend. */
  function Ratio(a: real, b: real): (q: real)
    requires b != 0.0
    ensures q * b == a
  {
    a / b
  }

  /** An explicit empty array gives 0 (every sum is 0). */
  lemma EmptyDataGivesZero(root: Option<real>)
    requires IsSqrt(root, Radicand(DisplayData(Some([]))))
    ensures Correlation(None, DisplayData(Some([])), root) == Some(0.0)
  {
    assert Radicand([]) == 0.0;
  }

  /** The coefficient does not depend on the order of the points. */
  lemma CorrelationPermutationInvariant(d: seq<Point>, e: seq<Point>)
    requires multiset(d) == multiset(e)
    ensures Numerator(d) == Numerator(e) && Radicand(d) == Radicand(e)
  {
    assert |d| == |e| by {
      assert |d| == |multiset(d)| && |e| == |multiset(e)|;
    }
    SumOfPermutation(d, e, X);
    SumOfPermutation(d, e, Y);
    SumOfPermutation(d, e, XY);
    SumOfPermutation(d, e, XX);
    SumOfPermutation(d, e, YY);
    assert SumsOf(d) == SumsOf(e);
  }

  function SwapPoint(p: Point): Point {
    p.(x := p.y, y := p.x)
  }

  function Swap(d: seq<Point>): (r: seq<Point>)
    ensures |r| == |d| && forall i :: 0 <= i < |d| ==> r[i] == SwapPoint(d[i])
  {
    if d == [] then [] else [SwapPoint(d[0])] + Swap(d[1..])
  }

  lemma {:induction false} SwapSums(d: seq<Point>)
    ensures SumOf(Swap(d), X) == SumOf(d, Y) && SumOf(Swap(d), Y) == SumOf(d, X)
    ensures SumOf(Swap(d), XY) == SumOf(d, XY)
    ensures SumOf(Swap(d), XX) == SumOf(d, YY) && SumOf(Swap(d), YY) == SumOf(d, XX)
  {
    if d != [] {
      SwapSums(d[1..]);
      assert Swap(d)[1..] == Swap(d[1..]);
      assert XY(SwapPoint(d[0])) == XY(d[0]);
    }
  }

  /** Swapping the two variables gives the same coefficient. */
  lemma CorrelationSwapInvariant(d: seq<Point>)
    ensures Numerator(Swap(d)) == Numerator(d) && Radicand(Swap(d)) == Radicand(d)
  {
    SwapSums(d);
    var s := SumsOf(d);
    assert SumsOf(Swap(d)) == SwapVariables(s);
    SwapVariablesInvariant(s);
  }

  function SwapVariables(s: Sums): Sums {
    Sums(s.n, s.sumY, s.sumX, s.sumXY, s.sumY2, s.sumX2)
  }

  lemma SwapVariablesInvariant(s: Sums)
    ensures NumeratorOf(SwapVariables(s)) == NumeratorOf(s)
    ensures RadicandOf(SwapVariables(s)) == RadicandOf(s)
  {
    var a := s.n * s.sumX2 - s.sumX * s.sumX;
    var b := s.n * s.sumY2 - s.sumY * s.sumY;
    assert RadicandOf(SwapVariables(s)) == b * a;
    assert RadicandOf(s) == a * b;
  }

  /** `getCorrelationLabel`: bands on |c|, inclusive at their lower bounds; NaN fails every
      comparison and is "Débil". */
  function StrengthLabel(c: Option<real>): (r: string)
    ensures r == "Fuerte" <==> c.Some? && Abs(c.value) >= 0.7
    ensures r == "Moderada" <==> c.Some? && 0.4 <= Abs(c.value) < 0.7
    ensures r == "Débil" <==> c.None? || Abs(c.value) < 0.4
  {
    match c
    case None => "Débil"
    case Some(v) => if Abs(v) >= 0.7 then "Fuerte" else if Abs(v) >= 0.4 then "Moderada" else "Débil"
  }

  /** The label depends only on |c|. */
  lemma StrengthLabelSymmetric(v: real)
    ensures StrengthLabel(Some(v)) == StrengthLabel(Some(-v))
  {
    assert Abs(v) == Abs(-v);
  }

  /** `getCorrelationColor`: a strong coefficient is green when positive and red otherwise,
      a moderate one amber whatever its sign, a weak one neutral. */
  function StrengthColor(c: Option<real>): (r: string)
    ensures r in {"text-success", "text-error"} <==> StrengthLabel(c) == "Fuerte"
    ensures r == "text-warning" <==> StrengthLabel(c) == "Moderada"
    ensures r == "text-textSecondary" <==> StrengthLabel(c) == "Débil"
    ensures r == "text-success" <==> c.Some? && c.value >= 0.7
  {
    match c
    case None => "text-textSecondary"
    case Some(v) =>
      if Abs(v) >= 0.7 then (if v > 0.0 then "text-success" else "text-error")
      else if Abs(v) >= 0.4 then "text-warning"
      else "text-textSecondary"
  }

  /** `correlationType`: "Positiva" only for c > 0, so 0 (and NaN) read "Negativa". */
  function Direction(c: Option<real>): (r: string)
    ensures r == "Positiva" <==> c.Some? && c.value > 0.0
    ensures r == "Positiva" || r == "Negativa"
  {
    if c.Some? && c.value > 0.0 then "Positiva" else "Negativa"
  }
}
