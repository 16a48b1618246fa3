/** The dense linear algebra the least-squares set-ups use (NumPy's `@`, `.T`, `-`). */
module Linear {

  type Vector = seq<real>
  type Matrix = seq<seq<real>>

  /** `A` has `rows` rows of `cols` entries each. */
  predicate IsMatrix(A: Matrix, rows: nat, cols: nat) {
    |A| == rows && forall i :: 0 <= i < |A| ==> |A[i]| == cols
  }

  function Dot(u: Vector, v: Vector): real
    requires |u| == |v|
  {
    if u == [] then 0.0 else u[0] * v[0] + Dot(u[1..], v[1..])
  }

  /** The dot product of two three-vectors, written out. */
  lemma Dot3(u: Vector, v: Vector)
    requires |u| == 3 && |v| == 3
    ensures Dot(u, v) == u[0] * v[0] + u[1] * v[1] + u[2] * v[2]
  {
    var u2, v2 := u[2..], v[2..];
    assert u2[1..] == [] && v2[1..] == [];
    assert Dot(u2, v2) == u[2] * v[2];
    var u1, v1 := u[1..], v[1..];
    assert u1[1..] == u2 && v1[1..] == v2;
    assert Dot(u1, v1) == u[1] * v[1] + Dot(u2, v2);
  }

  /** The dot product of two four-vectors, written out. */
  lemma Dot4(u: Vector, v: Vector)
    requires |u| == 4 && |v| == 4
    ensures Dot(u, v) == u[0] * v[0] + u[1] * v[1] + u[2] * v[2] + u[3] * v[3]
  {
    var u3, v3 := u[3..], v[3..];
    assert u3[1..] == [] && v3[1..] == [];
    assert Dot(u3, v3) == u[3] * v[3];
    var u2, v2 := u[2..], v[2..];
    assert u2[1..] == u3 && v2[1..] == v3;
    assert Dot(u2, v2) == u[2] * v[2] + Dot(u3, v3);
    var u1, v1 := u[1..], v[1..];
    assert u1[1..] == u2 && v1[1..] == v2;
    assert Dot(u1, v1) == u[1] * v[1] + Dot(u2, v2);
  }

  /** `A @ v`. */
  function MatVec(A: Matrix, v: Vector): (r: Vector)
    requires forall i :: 0 <= i < |A| ==> |A[i]| == |v|
    ensures |r| == |A| && forall i :: 0 <= i < |A| ==> r[i] == Dot(A[i], v)
  {
    seq(|A|, i requires 0 <= i < |A| => Dot(A[i], v))
  }

  /** `u - v`. */
  function Sub(u: Vector, v: Vector): (r: Vector)
    requires |u| == |v|
    ensures |r| == |u| && forall i :: 0 <= i < |u| ==> r[i] == u[i] - v[i]
  {
    seq(|u|, i requires 0 <= i < |u| => u[i] - v[i])
  }

  /** `v.T @ v`, the sum of squares. */
  function SumSquares(v: Vector): (r: real)
    ensures r >= 0.0
  {
    if v == [] then 0.0 else v[0] * v[0] + SumSquares(v[1..])
  }

  /** The sum of squares of the zero vector is zero. */
  lemma {:induction false} SumSquaresZeros(n: nat)
    ensures SumSquares(Zeros(n)) == 0.0
  {
    if n > 0 {
      assert Zeros(n)[1..] == Zeros(n - 1);
      SumSquaresZeros(n - 1);
    }
  }

  /** A vector of zeros. */
  function Zeros(n: nat): (r: Vector)
    ensures |r| == n && forall i :: 0 <= i < n ==> r[i] == 0.0
  {
    seq(n, i => 0.0)
  }

  /** The contents of a two-dimensional array, row by row. */
  function Rows(A: array2<real>): (r: Matrix)
    reads A
    ensures IsMatrix(r, A.Length0, A.Length1)
    ensures forall i, j :: 0 <= i < A.Length0 && 0 <= j < A.Length1 ==> r[i][j] == A[i, j]
  {
    seq(A.Length0, i requires 0 <= i < A.Length0 reads A =>
      seq(A.Length1, j requires 0 <= j < A.Length1 reads A => A[i, j]))
  }

  /** An array holds a matrix when it has its shape and its entries. */
  lemma RowsOf(A: array2<real>, M: Matrix)
    requires IsMatrix(M, A.Length0, A.Length1)
    requires forall i, j :: 0 <= i < A.Length0 && 0 <= j < A.Length1 ==> A[i, j] == M[i][j]
    ensures Rows(A) == M
  {
    var R := Rows(A);
    forall i | 0 <= i < A.Length0
      ensures R[i] == M[i]
    {
      assert |R[i]| == |M[i]|;
    }
  }

  /** Entry (j, k) of `A.T @ A`: the products of columns `j` and `k`, summed over the rows. */
  function ColumnProduct(A: Matrix, j: nat, k: nat): real
    requires forall i :: 0 <= i < |A| ==> j < |A[i]| && k < |A[i]|
  {
    if A == [] then 0.0 else A[0][j] * A[0][k] + ColumnProduct(A[1..], j, k)
  }

  /** `A.T @ A` for a matrix with `cols` columns. */
  function Gram(A: Matrix, cols: nat): (N: Matrix)
    requires IsMatrix(A, |A|, cols)
    ensures IsMatrix(N, cols, cols)
    ensures forall j, k :: 0 <= j < cols && 0 <= k < cols ==> N[j][k] == ColumnProduct(A, j, k)
  {
    seq(cols, j requires 0 <= j < cols => seq(cols, k requires 0 <= k < cols => ColumnProduct(A, j, k)))
  }

  /** Entry `j` of `A.T @ v`. */
  function ColumnDot(A: Matrix, j: nat, v: Vector): real
    requires |A| == |v| && forall i :: 0 <= i < |A| ==> j < |A[i]|
  {
    if A == [] then 0.0 else A[0][j] * v[0] + ColumnDot(A[1..], j, v[1..])
  }

  /** `A.T @ v` for a matrix with `cols` columns. */
  function TransposeTimes(A: Matrix, cols: nat, v: Vector): (w: Vector)
    requires IsMatrix(A, |v|, cols)
    ensures |w| == cols && forall j :: 0 <= j < cols ==> w[j] == ColumnDot(A, j, v)
  {
    seq(cols, j requires 0 <= j < cols => ColumnDot(A, j, v))
  }

  /** Swapping the two columns leaves a column product unchanged. */
  lemma {:induction false} ColumnProductSymmetric(A: Matrix, j: nat, k: nat)
    requires forall i :: 0 <= i < |A| ==> j < |A[i]| && k < |A[i]|
    ensures ColumnProduct(A, j, k) == ColumnProduct(A, k, j)
  {
    if A != [] {
      ColumnProductSymmetric(A[1..], j, k);
    }
  }

  /** `A.T @ A` is symmetric. */
  lemma GramSymmetric(A: Matrix, cols: nat)
    requires IsMatrix(A, |A|, cols)
    ensures forall j, k :: 0 <= j < cols && 0 <= k < cols ==> Gram(A, cols)[j][k] == Gram(A, cols)[k][j]
  {
    forall j, k | 0 <= j < cols && 0 <= k < cols
      ensures Gram(A, cols)[j][k] == Gram(A, cols)[k][j]
    {
      ColumnProductSymmetric(A, j, k);
    }
  }
}
