/**
 * The Bursa-Wolf seven-parameter transform of `src/function/seven_par.py`:
 * translations dx, dy, dz, small rotations ex, ey, ez and scale change m, with
 *   X' = [dx, dy, dz] + (1 + m) * R * X,  R = [[1, -ez, ey], [ez, 1, -ex], [-ey, ex, 1]].
 * The linear solve, the square root and the standard deviation are parameters.
 */
module SevenPar {
  import opened Wrappers
  import opened Linear

  datatype Point3 = Point3(x: real, y: real, z: real)

  /** [dx, dy, dz, ex, ey, ez, m], in the order of the unknown vector. */
  datatype SevenParams = SevenParams(dx: real, dy: real, dz: real, ex: real, ey: real, ez: real, m: real)

  /** `[min, max, mean, std]` of one residual column. */
  datatype AxisStats = AxisStats(min: real, max: real, mean: real, std: real)

  /** The dictionary `bursa_seven_parameters` returns. */
  datatype SevenFit = SevenFit(parameters: SevenParams, residuals: seq<Point3>, rms: real,
                               xStats: AxisStats, yStats: AxisStats, zStats: AxisStats)

  datatype FitError = BadShape | InsufficientPoints | SingularSystem

  datatype PointFault = PointNotThree | ParamsTooShort

  /** Component `c` (0, 1, 2) of a point. */
  function Coord(q: Point3, c: nat): real
    requires c < 3
  {
    if c == 0 then q.x else if c == 1 then q.y else q.z
  }

  function Minus(a: Point3, b: Point3): Point3 {
    Point3(a.x - b.x, a.y - b.y, a.z - b.z)
  }

  function Plus(a: Point3, b: Point3): Point3 {
    Point3(a.x + b.x, a.y + b.y, a.z + b.z)
  }

  function AsVector(p: SevenParams): (v: Vector)
    ensures |v| == 7
  {
    [p.dx, p.dy, p.dz, p.ex, p.ey, p.ez, p.m]
  }

  // ---------------------------------------------------------------------------
  // Input validation
  // ---------------------------------------------------------------------------

  /** Both arrays have the same shape (n, 3) with n > 0 (an empty list has shape (0,)). */
  predicate WellShaped(src: seq<seq<real>>, tgt: seq<seq<real>>) {
    |src| == |tgt| && |src| > 0 &&
    (forall i :: 0 <= i < |src| ==> |src[i]| == 3) &&
    (forall i :: 0 <= i < |tgt| ==> |tgt[i]| == 3)
  }

  /** The validation of `bursa_seven_parameters`, in its order: shape first, then point count. */
  function CheckInput(src: seq<seq<real>>, tgt: seq<seq<real>>): (r: Option<FitError>)
    ensures r == None <==> WellShaped(src, tgt) && |src| >= 3
    ensures r == Some(BadShape) <==> !WellShaped(src, tgt)
  {
    if !WellShaped(src, tgt) then Some(BadShape)
    else if |src| < 3 then Some(InsufficientPoints)
    else None
  }

  /** Two well-formed points on each side fail the count check; a ragged point fails the shape check first. */
  lemma ShapeBeforeCount()
    ensures CheckInput([[0.0, 0.0, 0.0], [1.0, 1.0, 1.0]], [[0.0, 0.0, 0.0], [1.0, 1.0, 1.0]]) == Some(InsufficientPoints)
    ensures CheckInput([[0.0, 0.0]], [[0.0, 0.0, 0.0]]) == Some(BadShape)
    ensures CheckInput([], []) == Some(BadShape)
  {
    assert !WellShaped([[0.0, 0.0]], [[0.0, 0.0, 0.0]]) by {
      assert |[[0.0, 0.0]][0]| == 2;
    }
  }

  function ToPoint(row: seq<real>): Point3
    requires |row| == 3
  {
    Point3(row[0], row[1], row[2])
  }

  function ToPoints(rows: seq<seq<real>>): (ps: seq<Point3>)
    requires forall i :: 0 <= i < |rows| ==> |rows[i]| == 3
    ensures |ps| == |rows| && forall i :: 0 <= i < |rows| ==> ps[i] == ToPoint(rows[i])
  {
    seq(|rows|, i requires 0 <= i < |rows| => ToPoint(rows[i]))
  }

  // ---------------------------------------------------------------------------
  // The least-squares system
  // ---------------------------------------------------------------------------

  /** Row `r` (0, 1, 2) of the 3 x 7 block of one source point: I3, the three rotation columns, the point. */
  function BlockRow(q: Point3, r: nat): (row: Vector)
    requires r < 3
    ensures |row| == 7
  {
    if r == 0 then [1.0, 0.0, 0.0, 0.0, q.z, -q.y, q.x]
    else if r == 1 then [0.0, 1.0, 0.0, -q.z, 0.0, q.x, q.y]
    else [0.0, 0.0, 1.0, q.y, -q.x, 0.0, q.z]
  }

  function DesignRow(src: seq<Point3>, k: nat): (row: Vector)
    requires k < 3 * |src|
    ensures |row| == 7
  {
    BlockRow(src[k / 3], k % 3)
  }

  /** The coefficient matrix B (3n x 7). */
  function Design(src: seq<Point3>): (B: Matrix)
    ensures IsMatrix(B, 3 * |src|, 7)
    ensures forall k :: 0 <= k < 3 * |src| ==> B[k] == DesignRow(src, k)
  {
    seq(3 * |src|, k requires 0 <= k < 3 * |src| => DesignRow(src, k))
  }

  /** Entry `k` of L: the matching component of target minus source. */
  function Observation(src: seq<Point3>, tgt: seq<Point3>, k: nat): real
    requires |src| == |tgt| && k < 3 * |src|
  {
    Coord(Minus(tgt[k / 3], src[k / 3]), k % 3)
  }

  function Observations(src: seq<Point3>, tgt: seq<Point3>): (L: Vector)
    requires |src| == |tgt|
    ensures |L| == 3 * |src|
    ensures forall k :: 0 <= k < 3 * |src| ==> L[k] == Observation(src, tgt, k)
  {
    seq(3 * |src|, k requires 0 <= k < 3 * |src| => Observation(src, tgt, k))
  }

  /** The normal matrix N = B.T @ B. */
  function Normal(src: seq<Point3>): (N: Matrix)
    ensures IsMatrix(N, 7, 7)
  {
    Gram(Design(src), 7)
  }

  /** The right-hand side W = B.T @ L. */
  function RightHandSide(src: seq<Point3>, tgt: seq<Point3>): (W: Vector)
    requires |src| == |tgt|
    ensures |W| == 7
  {
    TransposeTimes(Design(src), 7, Observations(src, tgt))
  }

  /** N = B.T @ B is symmetric. */
  lemma NormalSymmetric(src: seq<Point3>)
    ensures forall j, k :: 0 <= j < 7 && 0 <= k < 7 ==> Normal(src)[j][k] == Normal(src)[k][j]
  {
    GramSymmetric(Design(src), 7);
  }

  // ---------------------------------------------------------------------------
  // The transform, and its agreement with the linear model
  // ---------------------------------------------------------------------------

  /** R - I: the rotation part of R, a skew-symmetric matrix. */
  function RotationOffset(p: SevenParams): (S: Matrix)
    ensures IsMatrix(S, 3, 3)
  {
    [[0.0, -p.ez, p.ey], [p.ez, 0.0, -p.ex], [-p.ey, p.ex, 0.0]]
  }

  lemma RotationOffsetSkew(p: SevenParams)
    ensures forall i, j :: 0 <= i < 3 && 0 <= j < 3 ==> RotationOffset(p)[i][j] == -RotationOffset(p)[j][i]
  {
  }

  /** (R - I) * q. */
  function Rotate(p: SevenParams, q: Point3): Point3 {
    Point3(-p.ez * q.y + p.ey * q.z, p.ez * q.x - p.ex * q.z, -p.ey * q.x + p.ex * q.y)
  }

  /** Rotate is the matrix R - I applied to the point. */
  lemma RotateIsOffset(p: SevenParams, q: Point3)
    ensures var v := MatVec(RotationOffset(p), [q.x, q.y, q.z]);
      Rotate(p, q) == Point3(v[0], v[1], v[2])
  {
    var S := RotationOffset(p);
    var u := [q.x, q.y, q.z];
    var v := MatVec(S, u);
    Dot3(S[0], u);
    Dot3(S[1], u);
    Dot3(S[2], u);
    assert v[0] == -p.ez * q.y + p.ey * q.z;
    assert v[1] == p.ez * q.x - p.ex * q.z;
    assert v[2] == -p.ey * q.x + p.ex * q.y;
  }

  /** The transform of one point: [dx, dy, dz] + (1 + m) * R * q. */
  function Transform(p: SevenParams, q: Point3): Point3 {
    var rq := Plus(q, Rotate(p, q));
    Point3(p.dx + (1.0 + p.m) * rq.x, p.dy + (1.0 + p.m) * rq.y, p.dz + (1.0 + p.m) * rq.z)
  }

  /** The linearised model: the change the block of `q` predicts, B_q * p. */
  function Linearised(p: SevenParams, q: Point3): Point3 {
    Point3(p.dx + p.ey * q.z - p.ez * q.y + p.m * q.x,
           p.dy - p.ex * q.z + p.ez * q.x + p.m * q.y,
           p.dz + p.ex * q.y - p.ey * q.x + p.m * q.z)
  }

  lemma Dot7(u: Vector, v: Vector)
    requires |u| == 7 && |v| == 7
    ensures Dot(u, v) == u[0] * v[0] + u[1] * v[1] + u[2] * v[2] + u[3] * v[3]
                       + u[4] * v[4] + u[5] * v[5] + u[6] * v[6]
  {
    Dot4(u[3..], v[3..]);
    var u2, v2 := u[2..], v[2..];
    assert u2[1..] == u[3..] && v2[1..] == v[3..];
    assert Dot(u2, v2) == u[2] * v[2] + Dot(u[3..], v[3..]);
    var u1, v1 := u[1..], v[1..];
    assert u1[1..] == u2 && v1[1..] == v2;
    assert Dot(u1, v1) == u[1] * v[1] + Dot(u2, v2);
  }

  /** Row r of block q, times p, is component r of the linearised model. */
  lemma BlockRowTimes(q: Point3, p: SevenParams, r: nat)
    requires r < 3
    ensures Dot(BlockRow(q, r), AsVector(p)) == Coord(Linearised(p, q), r)
  {
    Dot7(BlockRow(q, r), AsVector(p));
  }

  /** Rows 3i, 3i+1, 3i+2 of B * p are the linearised change of source point i. */
  lemma DesignAgreesWithLinearised(src: seq<Point3>, p: SevenParams, i: nat, r: nat)
    requires i < |src| && r < 3
    ensures MatVec(Design(src), AsVector(p))[3 * i + r] == Coord(Linearised(p, src[i]), r)
  {
    assert Design(src)[3 * i + r] == BlockRow(src[i], r);
    BlockRowTimes(src[i], p, r);
  }

  /** With no scale change the fitted model and the applied transform agree exactly. */
  lemma LinearisedExactWithoutScale(p: SevenParams, q: Point3)
    requires p.m == 0.0
    ensures Transform(p, q) == Plus(q, Linearised(p, q))
  {
  }

  // ---------------------------------------------------------------------------
  // Residuals and statistics
  // ---------------------------------------------------------------------------

  /** V = B @ p - L. */
  function Residual(src: seq<Point3>, tgt: seq<Point3>, p: SevenParams): (V: Vector)
    requires |src| == |tgt|
    ensures |V| == 3 * |src|
  {
    Sub(MatVec(Design(src), AsVector(p)), Observations(src, tgt))
  }

  /** `V.reshape(-1, 3)`: row i is (V[3i], V[3i+1], V[3i+2]). */
  function Reshape(V: Vector): (rows: seq<Point3>)
    requires |V| % 3 == 0
    ensures |rows| == |V| / 3
    ensures forall i :: 0 <= i < |rows| ==> rows[i] == Point3(V[3 * i], V[3 * i + 1], V[3 * i + 2])
  {
    seq(|V| / 3, i requires 0 <= i < |V| / 3 => Point3(V[3 * i], V[3 * i + 1], V[3 * i + 2]))
  }

  /** Residual row i is the misfit of point i: source plus predicted change, minus target. */
  lemma ResidualIsMisfit(src: seq<Point3>, tgt: seq<Point3>, p: SevenParams, i: nat)
    requires |src| == |tgt| && i < |src|
    ensures Reshape(Residual(src, tgt, p))[i] == Minus(Plus(src[i], Linearised(p, src[i])), tgt[i])
  {
    DesignAgreesWithLinearised(src, p, i, 0);
    DesignAgreesWithLinearised(src, p, i, 1);
    DesignAgreesWithLinearised(src, p, i, 2);
    BlockEntries(src, tgt, i);
    var l, d := Linearised(p, src[i]), Minus(tgt[i], src[i]);
    SubRow(MatVec(Design(src), AsVector(p)), Observations(src, tgt), |src|, i, l, d);
    MisfitRearranged(src[i], tgt[i], l);
  }

  /** Row `i` of the reshaped difference of two vectors is the difference of their row-`i` points. */
  lemma SubRow(M: Vector, O: Vector, n: nat, i: nat, a: Point3, b: Point3)
    requires |M| == 3 * n && |O| == 3 * n && i < n
    requires M[3 * i] == a.x && M[3 * i + 1] == a.y && M[3 * i + 2] == a.z
    requires O[3 * i] == b.x && O[3 * i + 1] == b.y && O[3 * i + 2] == b.z
    ensures Reshape(Sub(M, O))[i] == Minus(a, b)
  {
    assert |Sub(M, O)| / 3 == n;
  }

  /** The predicted change minus the observed change is the predicted point minus the target. */
  lemma MisfitRearranged(s: Point3, t: Point3, l: Point3)
    ensures Minus(l, Minus(t, s)) == Minus(Plus(s, l), t)
  {
  }

  /** With no scale change, residual row i is the transformed source minus the target. */
  lemma ResidualOfTransform(src: seq<Point3>, tgt: seq<Point3>, p: SevenParams, i: nat)
    requires |src| == |tgt| && i < |src| && p.m == 0.0
    ensures Reshape(Residual(src, tgt, p))[i] == Minus(Transform(p, src[i]), tgt[i])
  {
    ResidualIsMisfit(src, tgt, p, i);
    LinearisedExactWithoutScale(p, src[i]);
  }

  /** Column `c` of the residual rows. */
  function Column(rows: seq<Point3>, c: nat): (col: seq<real>)
    requires c < 3
    ensures |col| == |rows| && forall i :: 0 <= i < |rows| ==> col[i] == Coord(rows[i], c)
  {
    seq(|rows|, i requires 0 <= i < |rows| => Coord(rows[i], c))
  }

  function Sum(s: seq<real>): real {
    if s == [] then 0.0 else s[0] + Sum(s[1..])
  }

  /** `np.min`. */
  function Min(s: seq<real>): (r: real)
    requires s != []
    ensures r in s && forall i :: 0 <= i < |s| ==> r <= s[i]
  {
    if |s| == 1 then s[0]
    else
      var rest := Min(s[1..]);
      assert rest in s;
      if s[0] <= rest then s[0] else rest
  }

  /** `np.max`. */
  function Max(s: seq<real>): (r: real)
    requires s != []
    ensures r in s && forall i :: 0 <= i < |s| ==> s[i] <= r
  {
    if |s| == 1 then s[0]
    else
      var rest := Max(s[1..]);
      assert rest in s;
      if s[0] >= rest then s[0] else rest
  }

  /** `np.mean`. */
  function Mean(s: seq<real>): real
    requires s != []
  {
    Sum(s) / (|s| as real)
  }

  lemma {:induction false} SumLower(s: seq<real>, lo: real)
    requires forall i :: 0 <= i < |s| ==> lo <= s[i]
    ensures Sum(s) >= (|s| as real) * lo
  {
    if s != [] {
      SumLower(s[1..], lo);
      assert (|s| as real) * lo == ((|s| - 1) as real) * lo + lo;
    }
  }

  lemma {:induction false} SumUpper(s: seq<real>, hi: real)
    requires forall i :: 0 <= i < |s| ==> s[i] <= hi
    ensures Sum(s) <= (|s| as real) * hi
  {
    if s != [] {
      SumUpper(s[1..], hi);
      assert (|s| as real) * hi == ((|s| - 1) as real) * hi + hi;
    }
  }

  lemma DivLower(x: real, n: real, lo: real)
    requires n > 0.0 && n * lo <= x
    ensures lo <= x / n
  {
    var q := x / n;
    assert q * n == x;
  }

  lemma DivUpper(x: real, n: real, hi: real)
    requires n > 0.0 && x <= n * hi
    ensures x / n <= hi
  {
    var q := x / n;
    assert q * n == x;
  }

  /** A lower bound of every entry bounds the mean from below. */
  lemma MeanAtLeast(s: seq<real>, lo: real)
    requires s != [] && forall i :: 0 <= i < |s| ==> lo <= s[i]
    ensures lo <= Mean(s)
  {
    SumLower(s, lo);
    DivLower(Sum(s), |s| as real, lo);
  }

  /** An upper bound of every entry bounds the mean from above. */
  lemma MeanAtMost(s: seq<real>, hi: real)
    requires s != [] && forall i :: 0 <= i < |s| ==> s[i] <= hi
    ensures Mean(s) <= hi
  {
    SumUpper(s, hi);
    DivUpper(Sum(s), |s| as real, hi);
  }

  /** The mean of a column lies between its minimum and its maximum. */
  lemma MeanBetween(s: seq<real>)
    requires s != []
    ensures Min(s) <= Mean(s) <= Max(s)
  {
    MeanAtLeast(s, Min(s));
    MeanAtMost(s, Max(s));
  }

  function Stats(col: seq<real>, std: seq<real> -> real): (st: AxisStats)
    requires col != []
    ensures st.min <= st.mean <= st.max
  {
    MeanBetween(col);
    AxisStats(Min(col), Max(col), Mean(col), std(col))
  }

  /** The degrees of freedom 3n - 7 of the fit. */
  function Redundancy(n: nat): (d: int)
    ensures n >= 3 ==> d >= 2
  {
    3 * n - 7
  }

  /** The radicand of sigma0, V.T @ V / (3n - 7): never negative once n >= 3. */
  function Radicand(V: Vector, n: nat): (q: real)
    requires n >= 3
    ensures q >= 0.0
  {
    var vtv := SumSquares(V);
    var d := Redundancy(n) as real;
    DivLower(vtv, d, 0.0);
    vtv / d
  }

  /** Everything `bursa_seven_parameters` reports for a solved parameter vector. */
  function Report(src: seq<Point3>, tgt: seq<Point3>, p: SevenParams,
                  sqrt: real -> real, std: seq<real> -> real): (f: SevenFit)
    requires |src| == |tgt| && |src| >= 3
    ensures f.parameters == p
    ensures |f.residuals| == |src|
    ensures forall i :: 0 <= i < |src| ==> f.residuals[i] == Minus(Plus(src[i], Linearised(p, src[i])), tgt[i])
    ensures f.xStats.min <= f.xStats.mean <= f.xStats.max
    ensures f.yStats.min <= f.yStats.mean <= f.yStats.max
    ensures f.zStats.min <= f.zStats.mean <= f.zStats.max
  {
    var V := Residual(src, tgt, p);
    assert (3 * |src|) / 3 == |src|;
    var rows := Reshape(V);
    forall i | 0 <= i < |src|
      ensures rows[i] == Minus(Plus(src[i], Linearised(p, src[i])), tgt[i])
    {
      ResidualIsMisfit(src, tgt, p, i);
    }
    SevenFit(p, rows, sqrt(Radicand(V, |src|)),
             Stats(Column(rows, 0), std), Stats(Column(rows, 1), std), Stats(Column(rows, 2), std))
  }

  // ---------------------------------------------------------------------------
  // bursa_seven_parameters
  // ---------------------------------------------------------------------------

  /** Writes the seven entries of row `k` of a seven-column array. */
  method SetRow7(B: array2<real>, k: nat, row: Vector)
    requires k < B.Length0 && B.Length1 == 7 && |row| == 7
    modifies B
    ensures forall j :: 0 <= j < 7 ==> B[k, j] == row[j]
    ensures forall i, j :: 0 <= i < B.Length0 && 0 <= j < 7 && i != k ==> B[i, j] == old(B[i, j])
  {
    for j := 0 to 7
      invariant forall j' :: 0 <= j' < j ==> B[k, j'] == row[j']
      invariant forall i, j' :: 0 <= i < B.Length0 && 0 <= j' < 7 && i != k ==> B[i, j'] == old(B[i, j'])
    {
      B[k, j] := row[j];
    }
  }

  /** The loop of `bursa_seven_parameters` that fills B and L, one 3-row block per point. */
  method BuildSystem(src: seq<Point3>, tgt: seq<Point3>) returns (B: array2<real>, L: array<real>)
    requires |src| == |tgt|
    ensures Rows(B) == Design(src) && L[..] == Observations(src, tgt)
  {
    var n := |src|;
    B := new real[3 * n, 7]((i, j) => 0.0);
    L := new real[3 * n](i => 0.0);
    for i := 0 to n
      invariant forall k, j :: 0 <= k < 3 * i && 0 <= j < 7 ==> B[k, j] == DesignRow(src, k)[j]
      invariant forall k :: 0 <= k < 3 * i ==> L[k] == Observation(src, tgt, k)
    {
      FillBlock(B, L, src, tgt, i);
    }
    RowsOf(B, Design(src));
    assert L[..] == Observations(src, tgt);
  }

  /** One pass of that loop: the three rows of B and entries of L that point `i` gives. */
  method FillBlock(B: array2<real>, L: array<real>, src: seq<Point3>, tgt: seq<Point3>, i: nat)
    requires |src| == |tgt| && i < |src|
    requires B.Length0 == 3 * |src| && B.Length1 == 7 && L.Length == 3 * |src|
    modifies B, L
    ensures forall k, j :: 0 <= k < B.Length0 && 0 <= j < 7 ==>
      B[k, j] == if 3 * i <= k < 3 * i + 3 then DesignRow(src, k)[j] else old(B[k, j])
    ensures forall k :: 0 <= k < L.Length ==>
      L[k] == if 3 * i <= k < 3 * i + 3 then Observation(src, tgt, k) else old(L[k])
  {
    var q := src[i];
    var d := Minus(tgt[i], q);
    BlockEntries(src, tgt, i);
    SetRow7(B, 3 * i, BlockRow(q, 0));
    SetRow7(B, 3 * i + 1, BlockRow(q, 1));
    SetRow7(B, 3 * i + 2, BlockRow(q, 2));
    L[3 * i] := d.x;
    L[3 * i + 1] := d.y;
    L[3 * i + 2] := d.z;
  }

  /** Rows `3i`, `3i + 1`, `3i + 2` of B and L belong to point `i`, one per axis. */
  lemma BlockEntries(src: seq<Point3>, tgt: seq<Point3>, i: nat)
    requires |src| == |tgt| && i < |src|
    ensures DesignRow(src, 3 * i) == BlockRow(src[i], 0)
    ensures DesignRow(src, 3 * i + 1) == BlockRow(src[i], 1)
    ensures DesignRow(src, 3 * i + 2) == BlockRow(src[i], 2)
    ensures Observation(src, tgt, 3 * i) == tgt[i].x - src[i].x
    ensures Observation(src, tgt, 3 * i + 1) == tgt[i].y - src[i].y
    ensures Observation(src, tgt, 3 * i + 2) == tgt[i].z - src[i].z
  {
    assert (3 * i) / 3 == i && (3 * i) % 3 == 0;
    assert (3 * i + 1) / 3 == i && (3 * i + 1) % 3 == 1;
    assert (3 * i + 2) / 3 == i && (3 * i + 2) % 3 == 2;
  }

  /**
   * `bursa_seven_parameters`: validate the shapes and the count, build B and L,
   * solve N p = W, and report residuals, sigma0 and the per-axis statistics.
   */
  method BursaSevenParameters(
    srcRows: seq<seq<real>>, tgtRows: seq<seq<real>>,
    solve: (Matrix, Vector) -> Option<SevenParams>,
    sqrt: real -> real, std: seq<real> -> real)
    returns (r: Result<SevenFit, FitError>)
    ensures CheckInput(srcRows, tgtRows).Some? ==> r == Err(CheckInput(srcRows, tgtRows).value)
    ensures CheckInput(srcRows, tgtRows).None? ==>
      var src, tgt := ToPoints(srcRows), ToPoints(tgtRows);
      match solve(Normal(src), RightHandSide(src, tgt))
      case None => r == Err(SingularSystem)
      case Some(p) => r == Ok(Report(src, tgt, p, sqrt, std))
  {
    var check := CheckInput(srcRows, tgtRows);
    if check.Some? {
      return Err(check.value);
    }
    var src, tgt := ToPoints(srcRows), ToPoints(tgtRows);
    var B, L := BuildSystem(src, tgt);
    var N := Gram(Rows(B), 7);
    var W := TransposeTimes(Rows(B), 7, L[..]);
    var solved := solve(N, W);
    if solved.None? {
      return Err(SingularSystem);
    }
    return Ok(Report(src, tgt, solved.value, sqrt, std));
  }

  // ---------------------------------------------------------------------------
  // transform_point_seven_par
  // ---------------------------------------------------------------------------

  /**
   * `transform_point_seven_par`: the point must have exactly three components, then the
   * first seven parameters are read (a shorter vector fails to unpack).
   */
  function TransformPointSevenPar(point: seq<real>, params: seq<real>): (r: Result<Point3, PointFault>)
    ensures |point| != 3 ==> r == Err(PointNotThree)
    ensures |point| == 3 && |params| < 7 ==> r == Err(ParamsTooShort)
    ensures |point| == 3 && |params| >= 7 ==>
      r == Ok(Transform(SevenParams(params[0], params[1], params[2], params[3], params[4], params[5], params[6]),
                        ToPoint(point)))
  {
    if |point| != 3 then Err(PointNotThree)
    else if |params| < 7 then Err(ParamsTooShort)
    else Ok(Transform(SevenParams(params[0], params[1], params[2], params[3], params[4], params[5], params[6]),
                      ToPoint(point)))
  }

  /** The zero parameter vector maps every point to itself. */
  lemma ZeroParamsIdentity(q: Point3)
    ensures TransformPointSevenPar([q.x, q.y, q.z], [0.0, 0.0, 0.0, 0.0, 0.0, 0.0, 0.0]) == Ok(q)
  {
    var p := SevenParams(0.0, 0.0, 0.0, 0.0, 0.0, 0.0, 0.0);
    assert Rotate(p, q) == Point3(0.0, 0.0, 0.0);
    assert Plus(q, Rotate(p, q)) == q;
    assert Transform(p, q) == q;
  }
}
