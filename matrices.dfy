/** 4x4 homogeneous matrices in row-major order, composed with the row-vector
    convention (a point is a row vector multiplied on the left: `v x M`).
    A matrix is a value; the two loop-built constructions, the identity and the
    product, fill a zero-initialised local 4x4 array and return its contents. */
module Matrices {

  /** Four rows of four entries. */
  predicate IsSquare4(m: seq<seq<real>>) {
    |m| == 4 && forall i | 0 <= i < 4 :: |m[i]| == 4
  }

  type Matrix4x4 = m: seq<seq<real>> | IsSquare4(m)
    witness [[0.0, 0.0, 0.0, 0.0], [0.0, 0.0, 0.0, 0.0], [0.0, 0.0, 0.0, 0.0], [0.0, 0.0, 0.0, 0.0]]

  /** The all-zero matrix a value-initialised `Matrix4x4` starts as. */
  function Zero(): Matrix4x4 {
    seq(4, i requires 0 <= i < 4 => seq(4, j requires 0 <= j < 4 => 0.0))
  }

  /** The matrix `m` with entry (i, j) replaced by `x`. */
  function Set(m: Matrix4x4, i: nat, j: nat, x: real): Matrix4x4
    requires i < 4 && j < 4
  {
    m[i := m[i][j := x]]
  }

  /** The contents of a 4x4 array as a matrix value. */
  function Contents(a: array2<real>): Matrix4x4
    requires a.Length0 == 4 && a.Length1 == 4
    reads a
  {
    seq(4, i requires 0 <= i < 4 reads a => seq(4, j requires 0 <= j < 4 reads a => a[i, j]))
  }

  // ---------------------------------------------------------------
  // Reference definitions
  // ---------------------------------------------------------------

  /** The k = 0 .. n-1 part of the sum `row[k] * m[k][j]`, added up in order of k. */
  function ColumnSum(row: seq<real>, m: Matrix4x4, j: nat, n: nat): real
    requires |row| == 4 && j < 4 && n <= 4
  {
    if n == 0 then 0.0 else ColumnSum(row, m, j, n - 1) + Term(row, m, j, n - 1)
  }

  /** One term `row[k] * m[k][j]` of a column sum. */
  function Term(row: seq<real>, m: Matrix4x4, j: nat, k: nat): real
    requires |row| == 4 && j < 4 && k < 4
  {
    row[k] * m[k][j]
  }

  /** The row vector `row` times the matrix `m`. */
  function RowTimes(row: seq<real>, m: Matrix4x4): (r: seq<real>)
    requires |row| == 4
    ensures |r| == 4
  {
    seq(4, j requires 0 <= j < 4 => ColumnSum(row, m, j, 4))
  }

  /** The matrix product: row i of `a` times `b`, for every row. */
  function Product(a: Matrix4x4, b: Matrix4x4): Matrix4x4 {
    seq(4, i requires 0 <= i < 4 => RowTimes(a[i], b))
  }

  /** Ones on the diagonal and zeros everywhere else. */
  function Identity(): Matrix4x4 {
    seq(4, i requires 0 <= i < 4 => seq(4, j requires 0 <= j < 4 => if i == j then 1.0 else 0.0))
  }

  // ---------------------------------------------------------------
  // The loop-built constructions
  // ---------------------------------------------------------------

  /** Start from the zero matrix and set the four diagonal entries to 1. */
  method MakeIdentity() returns (r: Matrix4x4)
    ensures forall i, j | 0 <= i < 4 && 0 <= j < 4 :: r[i][j] == if i == j then 1.0 else 0.0
    ensures r == Identity()
  {
    var a := new real[4, 4]((_, _) => 0.0);
    for i := 0 to 4
      invariant forall p, q | 0 <= p < 4 && 0 <= q < 4 :: a[p, q] == if p == q && p < i then 1.0 else 0.0
    {
      a[i, i] := 1.0;
    }
    r := Contents(a);
    EqualEntries(r, Identity());
  }

  /** Start from the zero matrix and accumulate `A[i][k] * B[k][j]` into
      entry (i, j) for k = 0, 1, 2, 3. */
  method Mul(a: Matrix4x4, b: Matrix4x4) returns (r: Matrix4x4)
    ensures forall i, j | 0 <= i < 4 && 0 <= j < 4 ::
              r[i][j] == a[i][0] * b[0][j] + a[i][1] * b[1][j] + a[i][2] * b[2][j] + a[i][3] * b[3][j]
    ensures r == Product(a, b)
  {
    var acc := new real[4, 4]((_, _) => 0.0);
    for i := 0 to 4
      invariant forall p, q | 0 <= p < i && 0 <= q < 4 :: acc[p, q] == ColumnSum(a[p], b, q, 4)
      invariant forall p, q | i <= p < 4 && 0 <= q < 4 :: acc[p, q] == 0.0
    {
      for j := 0 to 4
        invariant forall p, q | 0 <= p < i && 0 <= q < 4 :: acc[p, q] == ColumnSum(a[p], b, q, 4)
        invariant forall q | 0 <= q < j :: acc[i, q] == ColumnSum(a[i], b, q, 4)
        invariant forall p, q | i <= p < 4 && 0 <= q < 4 && (p > i || q >= j) :: acc[p, q] == 0.0
      {
        for k := 0 to 4
          invariant forall p, q | 0 <= p < i && 0 <= q < 4 :: acc[p, q] == ColumnSum(a[p], b, q, 4)
          invariant forall q | 0 <= q < j :: acc[i, q] == ColumnSum(a[i], b, q, 4)
          invariant acc[i, j] == ColumnSum(a[i], b, j, k)
          invariant forall p, q | i <= p < 4 && 0 <= q < 4 && (p > i || q > j) :: acc[p, q] == 0.0
        {
          acc[i, j] := acc[i, j] + a[i][k] * b[k][j];
        }
      }
    }
    r := Contents(acc);
    EqualEntries(r, Product(a, b));
    forall i, j | 0 <= i < 4 && 0 <= j < 4
      ensures r[i][j] == a[i][0] * b[0][j] + a[i][1] * b[1][j] + a[i][2] * b[2][j] + a[i][3] * b[3][j]
    {
      ColumnSumExpanded(a[i], b, j);
    }
  }

  // ---------------------------------------------------------------
  // Lemmas
  // ---------------------------------------------------------------

  /** Two matrices with the same sixteen entries are equal. */
  lemma EqualEntries(m1: Matrix4x4, m2: Matrix4x4)
    requires forall i, j | 0 <= i < 4 && 0 <= j < 4 :: m1[i][j] == m2[i][j]
    ensures m1 == m2
  {
    forall i | 0 <= i < 4 ensures m1[i] == m2[i] {
      assert |m1[i]| == |m2[i]| == 4;
    }
  }

  /** The full column sum written out term by term. */
  lemma ColumnSumExpanded(row: seq<real>, m: Matrix4x4, j: nat)
    requires |row| == 4 && j < 4
    ensures ColumnSum(row, m, j, 4)
            == row[0] * m[0][j] + row[1] * m[1][j] + row[2] * m[2][j] + row[3] * m[3][j]
  {
    assert ColumnSum(row, m, j, 1) == Term(row, m, j, 0);
    assert ColumnSum(row, m, j, 2) == Term(row, m, j, 0) + Term(row, m, j, 1);
    assert ColumnSum(row, m, j, 3) == Term(row, m, j, 0) + Term(row, m, j, 1) + Term(row, m, j, 2);
    assert ColumnSum(row, m, j, 4) == Term(row, m, j, 0) + Term(row, m, j, 1) + Term(row, m, j, 2) + Term(row, m, j, 3);
    assert Term(row, m, j, 0) == row[0] * m[0][j];
    assert Term(row, m, j, 1) == row[1] * m[1][j];
    assert Term(row, m, j, 2) == row[2] * m[2][j];
    assert Term(row, m, j, 3) == row[3] * m[3][j];
  }

  /** The unit row e_k times `m` is row k of `m`. */
  lemma UnitRowTimes(k: nat, m: Matrix4x4)
    requires k < 4
    ensures RowTimes(Identity()[k], m) == m[k]
  {
    var e := Identity()[k];
    forall j | 0 <= j < 4 ensures RowTimes(e, m)[j] == m[k][j] {
      ColumnSumExpanded(e, m, j);
    }
  }

  /** `v x I == v` for every row vector `v`. */
  lemma RowTimesIdentity(row: seq<real>)
    requires |row| == 4
    ensures RowTimes(row, Identity()) == row
  {
    forall j | 0 <= j < 4 ensures RowTimes(row, Identity())[j] == row[j] {
      ColumnSumExpanded(row, Identity(), j);
    }
  }

  /** The identity is a left unit of the product. */
  lemma {:induction false} ProductIdentityLeft(m: Matrix4x4)
    ensures Product(Identity(), m) == m
  {
    forall i | 0 <= i < 4 ensures Product(Identity(), m)[i] == m[i] {
      UnitRowTimes(i, m);
    }
  }

  /** The identity is a right unit of the product. */
  lemma {:induction false} ProductIdentityRight(m: Matrix4x4)
    ensures Product(m, Identity()) == m
  {
    forall i | 0 <= i < 4 ensures Product(m, Identity())[i] == m[i] {
      RowTimesIdentity(m[i]);
    }
  }

  /** Multiplying a row vector by `a` and then by `b` is multiplying it by
      the product `a x b`; this is what lets a chain of transforms be folded
      into one matrix. */
  lemma RowTimesProduct(row: seq<real>, a: Matrix4x4, b: Matrix4x4)
    requires |row| == 4
    ensures RowTimes(RowTimes(row, a), b) == RowTimes(row, Product(a, b))
  {
    forall j | 0 <= j < 4 ensures RowTimes(RowTimes(row, a), b)[j] == RowTimes(row, Product(a, b))[j] {
      RowTimesProductAt(row, a, b, j);
    }
  }

  lemma RowTimesProductAt(row: seq<real>, a: Matrix4x4, b: Matrix4x4, j: nat)
    requires |row| == 4 && j < 4
    ensures RowTimes(RowTimes(row, a), b)[j] == RowTimes(row, Product(a, b))[j]
  {
    var u, p := RowTimes(row, a), Product(a, b);
    var e0, e1, e2, e3 := u[0], u[1], u[2], u[3];
    var f0, f1, f2, f3 := p[0][j], p[1][j], p[2][j], p[3][j];
    assert RowTimes(u, b)[j] == e0 * b[0][j] + e1 * b[1][j] + e2 * b[2][j] + e3 * b[3][j] by {
      ColumnSumExpanded(u, b, j);
    }
    assert RowTimes(row, p)[j] == row[0] * f0 + row[1] * f1 + row[2] * f2 + row[3] * f3 by {
      ColumnSumExpanded(row, p, j);
    }
    ColumnSumExpanded(row, a, 0);
    ColumnSumExpanded(row, a, 1);
    ColumnSumExpanded(row, a, 2);
    ColumnSumExpanded(row, a, 3);
    ColumnSumExpanded(a[0], b, j);
    ColumnSumExpanded(a[1], b, j);
    ColumnSumExpanded(a[2], b, j);
    ColumnSumExpanded(a[3], b, j);
    SumOfProducts4(row, a, b, j);
  }

  /** The sixteen-term rearrangement behind `RowTimesProduct`, for one column. */
  lemma SumOfProducts4(row: seq<real>, a: Matrix4x4, b: Matrix4x4, j: nat)
    requires |row| == 4 && j < 4
    ensures (row[0] * a[0][0] + row[1] * a[1][0] + row[2] * a[2][0] + row[3] * a[3][0]) * b[0][j]
          + (row[0] * a[0][1] + row[1] * a[1][1] + row[2] * a[2][1] + row[3] * a[3][1]) * b[1][j]
          + (row[0] * a[0][2] + row[1] * a[1][2] + row[2] * a[2][2] + row[3] * a[3][2]) * b[2][j]
          + (row[0] * a[0][3] + row[1] * a[1][3] + row[2] * a[2][3] + row[3] * a[3][3]) * b[3][j]
         == row[0] * (a[0][0] * b[0][j] + a[0][1] * b[1][j] + a[0][2] * b[2][j] + a[0][3] * b[3][j])
          + row[1] * (a[1][0] * b[0][j] + a[1][1] * b[1][j] + a[1][2] * b[2][j] + a[1][3] * b[3][j])
          + row[2] * (a[2][0] * b[0][j] + a[2][1] * b[1][j] + a[2][2] * b[2][j] + a[2][3] * b[3][j])
          + row[3] * (a[3][0] * b[0][j] + a[3][1] * b[1][j] + a[3][2] * b[2][j] + a[3][3] * b[3][j])
  {}

  /** The product is associative. */
  lemma {:induction false} ProductAssociative(a: Matrix4x4, b: Matrix4x4, c: Matrix4x4)
    ensures Product(Product(a, b), c) == Product(a, Product(b, c))
  {
    forall i | 0 <= i < 4 ensures Product(Product(a, b), c)[i] == Product(a, Product(b, c))[i] {
      RowTimesProduct(a[i], b, c);
    }
  }
}
