/** The correlation heat map (frontend/src/components/charts/CorrelationMatrix.jsx): the
    built-in variables and matrix used when the server sends none, and the colour of a
    cell. */
module CorrelationMatrix {
  import opened Wrappers
  import opened Seqs

  const DefaultVariables: seq<string> :=
    ["Volumen Corregido", "Presión", "Temperatura", "Índice Pérdidas", "KPT", "Mes"]

  const DefaultMatrix: seq<seq<real>> := [
    [1.0, 0.65, -0.32, 0.78, 0.45, 0.12],
    [0.65, 1.0, -0.18, 0.52, 0.38, 0.08],
    [-0.32, -0.18, 1.0, -0.25, -0.15, -0.42],
    [0.78, 0.52, -0.25, 1.0, 0.42, 0.15],
    [0.45, 0.38, -0.15, 0.42, 1.0, 0.05],
    [0.12, 0.08, -0.42, 0.15, 0.05, 1.0]
  ]

  /** The built-in matrix is square over the six built-in variables, symmetric, with ones on
      the diagonal. */
  lemma DefaultMatrixWellFormed()
    ensures |DefaultMatrix| == |DefaultVariables| == 6
    ensures forall i :: 0 <= i < 6 ==> |DefaultMatrix[i]| == 6 && DefaultMatrix[i][i] == 1.0
    ensures forall i, j :: 0 <= i < 6 && 0 <= j < 6 ==> DefaultMatrix[i][j] == DefaultMatrix[j][i]
  {
    forall i, j | 0 <= i < 6 && 0 <= j < 6 ensures DefaultMatrix[i][j] == DefaultMatrix[j][i] {
      var m := DefaultMatrix;
      assert m[0] == [1.0, 0.65, -0.32, 0.78, 0.45, 0.12];
      assert m[1] == [0.65, 1.0, -0.18, 0.52, 0.38, 0.08];
      assert m[2] == [-0.32, -0.18, 1.0, -0.25, -0.15, -0.42];
      assert m[3] == [0.78, 0.52, -0.25, 1.0, 0.42, 0.15];
      assert m[4] == [0.45, 0.38, -0.15, 0.42, 1.0, 0.05];
      assert m[5] == [0.12, 0.08, -0.42, 0.15, 0.05, 1.0];
    }
  }

  /** The `data` prop: each part may be missing. */
  datatype MatrixData = MatrixData(variables: Option<seq<string>>, matrix: Option<seq<seq<real>>>)

  /** `data?.variables || defaultVariables`: any array, even an empty one, is used. */
  function Variables(data: Option<MatrixData>): (r: seq<string>)
    ensures data.Some? && data.value.variables.Some? ==> r == data.value.variables.value
    ensures data.None? || data.value.variables.None? ==> r == DefaultVariables
  {
    if data.Some? && data.value.variables.Some? then data.value.variables.value else DefaultVariables
  }

  /** `data?.matrix || defaultCorrelationData`, decided independently of the variables. */
  function Matrix(data: Option<MatrixData>): (r: seq<seq<real>>)
    ensures data.Some? && data.value.matrix.Some? ==> r == data.value.matrix.value
    ensures data.None? || data.value.matrix.None? ==> r == DefaultMatrix
  {
    if data.Some? && data.value.matrix.Some? then data.value.matrix.value else DefaultMatrix
  }

  /** Server variables with no server matrix are drawn over the built-in matrix. */
  lemma FallbacksIndependent(vs: seq<string>)
    ensures Variables(Some(MatrixData(Some(vs), None))) == vs
    ensures Matrix(Some(MatrixData(Some(vs), None))) == DefaultMatrix
  {
  }

  /** The green shades, strongest first. */
  const SuccessShades: seq<string> := ["bg-success/80 text-white", "bg-success/50 text-white", "bg-success/30"]
  /** The red shades, strongest first. */
  const ErrorShades: seq<string> := ["bg-error/80 text-white", "bg-error/50 text-white", "bg-error/30"]

  /** The band of a magnitude below 1 or above it: 0 from 0.7, 1 from 0.5, 2 from 0.3. */
  function Band(a: real): nat
    requires a >= 0.3
  {
    if a >= 0.7 then 0 else if a >= 0.5 then 1 else 2
  }

  /** `getColor`: |v| = 1 (either sign) is primary; then inclusive bands at 0.7, 0.5 and
      0.3, green for a positive value and red otherwise; neutral below 0.3. */
  function CellColor(v: real): (r: string)
    ensures Abs(v) == 1.0 <==> r == "bg-primary text-white"
    ensures Abs(v) < 0.3 <==> r == "bg-backgroundSecondary"
    ensures Abs(v) != 1.0 && Abs(v) >= 0.3 && v > 0.0 ==> r == SuccessShades[Band(Abs(v))]
    ensures Abs(v) != 1.0 && Abs(v) >= 0.3 && v < 0.0 ==> r == ErrorShades[Band(Abs(v))]
  {
    var a := Abs(v);
    if a == 1.0 then "bg-primary text-white"
    else if a >= 0.7 then (if v > 0.0 then "bg-success/80 text-white" else "bg-error/80 text-white")
    else if a >= 0.5 then (if v > 0.0 then "bg-success/50 text-white" else "bg-error/50 text-white")
    else if a >= 0.3 then (if v > 0.0 then "bg-success/30" else "bg-error/30")
    else "bg-backgroundSecondary"
  }

  /** Negating a value keeps its band and swaps green for red. */
  lemma CellColorSign(v: real)
    requires v > 0.0 && v >= 0.3 && v != 1.0
    ensures CellColor(v) == SuccessShades[Band(v)]
    ensures CellColor(-v) == ErrorShades[Band(v)]
  {
    assert Abs(-v) == v;
  }

  /** The diagonal of the built-in matrix is drawn in the primary colour. */
  lemma DiagonalIsPrimary(i: nat)
    requires i < 6
    ensures CellColor(DefaultMatrix[i][i]) == "bg-primary text-white"
  {
    DefaultMatrixWellFormed();
  }
}
