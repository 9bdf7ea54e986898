/** Dense real matrices with the handful of operations the network uses
    (the Eigen operations `+`, `-`, scalar `*`, `*`, `transpose`,
    `cwiseProduct`, `sum` and `setConstant`). Matrices are values. */
module Matrices {

  /** A `rows` x `cols` matrix stored row by row. */
  datatype Matrix = Matrix(rows: nat, cols: nat, cells: seq<seq<real>>)
  {
    /** Every row holds exactly `cols` entries. */
    ghost predicate Valid() {
      |cells| == rows && forall i :: 0 <= i < rows ==> |cells[i]| == cols
    }

    /** The entry in row `i`, column `j`. */
    function At(i: nat, j: nat): real
      requires Valid() && i < rows && j < cols
    {
      cells[i][j]
    }
  }

  ghost predicate HasShape(m: Matrix, r: nat, c: nat) {
    m.Valid() && m.rows == r && m.cols == c
  }

  ghost predicate SameShape(a: Matrix, b: Matrix) {
    a.Valid() && b.Valid() && a.rows == b.rows && a.cols == b.cols
  }

  /** Two matrices of one shape that agree entry by entry are equal. */
  lemma Ext(a: Matrix, b: Matrix)
    requires SameShape(a, b)
    requires forall i, j :: 0 <= i < a.rows && 0 <= j < a.cols ==> a.At(i, j) == b.At(i, j)
    ensures a == b
  {
    forall i | 0 <= i < a.rows
      ensures a.cells[i] == b.cells[i]
    {
      assert forall j :: 0 <= j < a.cols ==> a.cells[i][j] == a.At(i, j);
    }
  }

  /** A matrix whose every entry is `v` (Eigen's `setConstant`, `setOnes`). */
  function Constant(r: nat, c: nat, v: real): (m: Matrix)
    ensures HasShape(m, r, c)
    ensures forall i, j :: 0 <= i < r && 0 <= j < c ==> m.At(i, j) == v
  {
    Matrix(r, c, seq(r, _ => seq(c, _ => v)))
  }

  function Zeros(r: nat, c: nat): (m: Matrix)
    ensures HasShape(m, r, c)
    ensures forall i, j :: 0 <= i < r && 0 <= j < c ==> m.At(i, j) == 0.0
  {
    Constant(r, c, 0.0)
  }

  /** The matrix `m` with entry (i, j) replaced by `v`. */
  function Set(m: Matrix, i: nat, j: nat, v: real): (r: Matrix)
    requires m.Valid() && i < m.rows && j < m.cols
    ensures SameShape(r, m)
    ensures r.At(i, j) == v
    ensures forall k, l :: 0 <= k < m.rows && 0 <= l < m.cols && (k != i || l != j) ==> r.At(k, l) == m.At(k, l)
  {
    Matrix(m.rows, m.cols, m.cells[i := m.cells[i][j := v]])
  }

  function Add(a: Matrix, b: Matrix): (r: Matrix)
    requires SameShape(a, b)
    ensures SameShape(r, a)
    ensures forall i, j :: 0 <= i < a.rows && 0 <= j < a.cols ==> r.At(i, j) == a.At(i, j) + b.At(i, j)
  {
    Matrix(a.rows, a.cols,
      seq(a.rows, i requires 0 <= i < a.rows =>
        seq(a.cols, j requires 0 <= j < a.cols => a.cells[i][j] + b.cells[i][j])))
  }

  function Sub(a: Matrix, b: Matrix): (r: Matrix)
    requires SameShape(a, b)
    ensures SameShape(r, a)
    ensures forall i, j :: 0 <= i < a.rows && 0 <= j < a.cols ==> r.At(i, j) == a.At(i, j) - b.At(i, j)
  {
    Matrix(a.rows, a.cols,
      seq(a.rows, i requires 0 <= i < a.rows =>
        seq(a.cols, j requires 0 <= j < a.cols => a.cells[i][j] - b.cells[i][j])))
  }

  /** Entry-wise product (Eigen's `cwiseProduct`). */
  function Hadamard(a: Matrix, b: Matrix): (r: Matrix)
    requires SameShape(a, b)
    ensures SameShape(r, a)
    ensures forall i, j :: 0 <= i < a.rows && 0 <= j < a.cols ==> r.At(i, j) == a.At(i, j) * b.At(i, j)
  {
    Matrix(a.rows, a.cols,
      seq(a.rows, i requires 0 <= i < a.rows =>
        seq(a.cols, j requires 0 <= j < a.cols => a.cells[i][j] * b.cells[i][j])))
  }

  function Scale(k: real, a: Matrix): (r: Matrix)
    requires a.Valid()
    ensures SameShape(r, a)
    ensures forall i, j :: 0 <= i < a.rows && 0 <= j < a.cols ==> r.At(i, j) == k * a.At(i, j)
  {
    Matrix(a.rows, a.cols,
      seq(a.rows, i requires 0 <= i < a.rows =>
        seq(a.cols, j requires 0 <= j < a.cols => k * a.cells[i][j])))
  }

  function Transpose(a: Matrix): (r: Matrix)
    requires a.Valid()
    ensures HasShape(r, a.cols, a.rows)
    ensures forall i, j :: 0 <= i < a.cols && 0 <= j < a.rows ==> r.At(i, j) == a.At(j, i)
  {
    Matrix(a.cols, a.rows,
      seq(a.cols, i requires 0 <= i < a.cols =>
        seq(a.rows, j requires 0 <= j < a.rows => a.cells[j][i])))
  }

  /** The sum of the first `n` products of row `i` of `a` with column `j` of `b`. */
  function Dot(a: Matrix, b: Matrix, i: nat, j: nat, n: nat): real
    requires a.Valid() && b.Valid() && a.cols == b.rows
    requires i < a.rows && j < b.cols && n <= a.cols
  {
    if n == 0 then 0.0 else Dot(a, b, i, j, n - 1) + a.At(i, n - 1) * b.At(n - 1, j)
  }

  /** The matrix product `a * b`. */
  function Mul(a: Matrix, b: Matrix): (r: Matrix)
    requires a.Valid() && b.Valid() && a.cols == b.rows
    ensures HasShape(r, a.rows, b.cols)
    ensures forall i, j :: 0 <= i < a.rows && 0 <= j < b.cols ==> r.At(i, j) == Dot(a, b, i, j, a.cols)
  {
    Matrix(a.rows, b.cols,
      seq(a.rows, i requires 0 <= i < a.rows =>
        seq(b.cols, j requires 0 <= j < b.cols => Dot(a, b, i, j, a.cols))))
  }

  /** The sum of the first `n` entries of row `i`. */
  function RowSum(m: Matrix, i: nat, n: nat): real
    requires m.Valid() && i < m.rows && n <= m.cols
  {
    if n == 0 then 0.0 else RowSum(m, i, n - 1) + m.At(i, n - 1)
  }

  /** The sum of all entries of the first `n` rows. */
  function RowsSum(m: Matrix, n: nat): real
    requires m.Valid() && n <= m.rows
  {
    if n == 0 then 0.0 else RowsSum(m, n - 1) + RowSum(m, n - 1, m.cols)
  }

  /** The sum of all entries (Eigen's `sum`). */
  function Sum(m: Matrix): real
    requires m.Valid()
  {
    RowsSum(m, m.rows)
  }

  lemma {:induction false} RowSumNonNegative(m: Matrix, i: nat, n: nat)
    requires m.Valid() && i < m.rows && n <= m.cols
    requires forall j :: 0 <= j < m.cols ==> m.At(i, j) >= 0.0
    ensures RowSum(m, i, n) >= 0.0
  {
    if n > 0 {
      RowSumNonNegative(m, i, n - 1);
    }
  }

  lemma {:induction false} RowsSumNonNegative(m: Matrix, n: nat)
    requires m.Valid() && n <= m.rows
    requires forall i, j :: 0 <= i < m.rows && 0 <= j < m.cols ==> m.At(i, j) >= 0.0
    ensures RowsSum(m, n) >= 0.0
  {
    if n > 0 {
      RowsSumNonNegative(m, n - 1);
      RowSumNonNegative(m, n - 1, m.cols);
    }
  }

  /** A sum of squares is never negative: `sum(e .* e) >= 0`. */
  lemma SumOfSquaresNonNegative(e: Matrix)
    requires e.Valid()
    ensures Sum(Hadamard(e, e)) >= 0.0
  {
    var h := Hadamard(e, e);
    forall i, j | 0 <= i < h.rows && 0 <= j < h.cols
      ensures h.At(i, j) >= 0.0
    {
      assert h.At(i, j) == e.At(i, j) * e.At(i, j);
    }
    RowsSumNonNegative(h, h.rows);
  }

  /** Matrix addition is associative. */
  lemma AddAssoc(a: Matrix, b: Matrix, c: Matrix)
    requires SameShape(a, b) && SameShape(b, c)
    ensures Add(Add(a, b), c) == Add(a, Add(b, c))
  {
    Ext(Add(Add(a, b), c), Add(a, Add(b, c)));
  }

  /** The zero matrix is a right identity of addition. */
  lemma AddZero(a: Matrix)
    requires a.Valid()
    ensures Add(a, Zeros(a.rows, a.cols)) == a
  {
    Ext(Add(a, Zeros(a.rows, a.cols)), a);
  }
}
