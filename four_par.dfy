/**
 * The planar four-parameter (similarity) transform of `src/function/four_par.py`:
 *   X = a*x - b*y + dx,  Y = b*x + a*y + dy.
 * The least-squares solve, the square root and the arc tangent are parameters.
 */
module FourPar {
  import opened Wrappers
  import opened Linear

  datatype Point2 = Point2(x: real, y: real)

  /** The four parameters a = s*cos(theta), b = s*sin(theta), dx, dy. */
  datatype FourParams = FourParams(a: real, b: real, dx: real, dy: real)

  /** The dictionary `calculate_four_parameters` returns. */
  datatype FourFit = FourFit(params: FourParams, s: real, theta: real)

  datatype FitError = InsufficientPoints | CountMismatch

  /** `KeyError` for a missing dictionary key, `ValueError` for a bad unpacking or point. */
  datatype ParamsError = MissingKey(key: string) | WrongParamCount | PointNotTwo

  /** The two spellings `transform_point_four_par` accepts for its parameters. */
  datatype ParamsArg = DictParams(d: map<string, real>) | SeqParams(s: seq<real>)

  /** The forward transform of one point. */
  function Apply(p: FourParams, q: Point2): Point2 {
    Point2(p.a * q.x - p.b * q.y + p.dx, p.b * q.x + p.a * q.y + p.dy)
  }

  /** The parameters as the unknown vector [a, b, dx, dy] of the least-squares problem. */
  function AsVector(p: FourParams): (v: Vector)
    ensures |v| == 4
  {
    [p.a, p.b, p.dx, p.dy]
  }

  /** Row `k` of the design matrix: two rows per control point. */
  function DesignRow(src: seq<Point2>, k: nat): (row: Vector)
    requires k < 2 * |src|
    ensures |row| == 4
  {
    var q := src[k / 2];
    if k % 2 == 0 then [q.x, -q.y, 1.0, 0.0] else [q.y, q.x, 0.0, 1.0]
  }

  /** The design matrix A (2n x 4). */
  function Design(src: seq<Point2>): (A: Matrix)
    ensures IsMatrix(A, 2 * |src|, 4)
    ensures forall k :: 0 <= k < 2 * |src| ==> A[k] == DesignRow(src, k)
  {
    seq(2 * |src|, k requires 0 <= k < 2 * |src| => DesignRow(src, k))
  }

  /** The observation vector L: X then Y of each target point. */
  function Observation(tgt: seq<Point2>, k: nat): real
    requires k < 2 * |tgt|
  {
    if k % 2 == 0 then tgt[k / 2].x else tgt[k / 2].y
  }

  function Observations(tgt: seq<Point2>): (L: Vector)
    ensures |L| == 2 * |tgt|
    ensures forall k :: 0 <= k < 2 * |tgt| ==> L[k] == Observation(tgt, k)
  {
    seq(2 * |tgt|, k requires 0 <= k < 2 * |tgt| => Observation(tgt, k))
  }

  /** The validation of `calculate_four_parameters`, in its order. */
  function CheckCounts(nSrc: nat, nTgt: nat): (r: Option<FitError>)
    ensures r == None <==> nSrc >= 2 && nTgt >= 2 && nSrc == nTgt
    ensures r == Some(InsufficientPoints) <==> nSrc < 2 || nTgt < 2
  {
    if nSrc < 2 || nTgt < 2 then Some(InsufficientPoints)
    else if nSrc != nTgt then Some(CountMismatch)
    else None
  }

  /** The insufficient-points check runs first: one source and three target points report it. */
  lemma InsufficientBeforeMismatch()
    ensures CheckCounts(1, 3) == Some(InsufficientPoints)
    ensures CheckCounts(2, 3) == Some(CountMismatch)
  {
  }

  /** The returned dictionary: the solved parameters, the scale sqrt(a^2 + b^2) and the angle atan2(b, a). */
  function FitOf(p: FourParams, sqrt: real -> real, atan2: (real, real) -> real): (f: FourFit)
    ensures f.params == p
  {
    FourFit(p, sqrt(p.a * p.a + p.b * p.b), atan2(p.b, p.a))
  }

  /**
   * `calculate_four_parameters`: validate, fill A and L row pair by row pair,
   * hand them to the solver, and derive the scale and rotation.
   */
  method CalculateFourParameters(
    src: seq<Point2>, tgt: seq<Point2>,
    lstsq: (Matrix, Vector) -> FourParams,
    sqrt: real -> real, atan2: (real, real) -> real)
    returns (r: Result<FourFit, FitError>)
    ensures CheckCounts(|src|, |tgt|).Some? ==> r == Err(CheckCounts(|src|, |tgt|).value)
    ensures CheckCounts(|src|, |tgt|).None? ==>
      r == Ok(FitOf(lstsq(Design(src), Observations(tgt)), sqrt, atan2))
  {
    var check := CheckCounts(|src|, |tgt|);
    if check.Some? {
      return Err(check.value);
    }
    var A, L := BuildSystem(src, tgt);
    var p := lstsq(Rows(A), L[..]);
    return Ok(FitOf(p, sqrt, atan2));
  }

  /** Writes the four entries of row `k` of a four-column array. */
  method SetRow4(A: array2<real>, k: nat, c0: real, c1: real, c2: real, c3: real)
    requires k < A.Length0 && A.Length1 == 4
    modifies A
    ensures A[k, 0] == c0 && A[k, 1] == c1 && A[k, 2] == c2 && A[k, 3] == c3
    ensures forall i, j :: 0 <= i < A.Length0 && 0 <= j < 4 && i != k ==> A[i, j] == old(A[i, j])
  {
    A[k, 0] := c0;
    A[k, 1] := c1;
    A[k, 2] := c2;
    A[k, 3] := c3;
  }

  /** The loop of `calculate_four_parameters` that fills A and L, row pair by row pair. */
  method BuildSystem(src: seq<Point2>, tgt: seq<Point2>) returns (A: array2<real>, L: array<real>)
    requires |src| == |tgt|
    ensures Rows(A) == Design(src) && L[..] == Observations(tgt)
  {
    var n := |src|;
    A := new real[2 * n, 4]((i, j) => 0.0);
    L := new real[2 * n](i => 0.0);
    for i := 0 to n
      invariant forall k, j :: 0 <= k < 2 * i && 0 <= j < 4 ==> A[k, j] == DesignRow(src, k)[j]
      invariant forall k :: 0 <= k < 2 * i ==> L[k] == Observation(tgt, k)
    {
      FillPair(A, L, src, tgt, i);
    }
    RowsOf(A, Design(src));
    assert L[..] == Observations(tgt);
  }

  /** One pass of that loop: the two rows of A and entries of L that point `i` gives. */
  method FillPair(A: array2<real>, L: array<real>, src: seq<Point2>, tgt: seq<Point2>, i: nat)
    requires |src| == |tgt| && i < |src|
    requires A.Length0 == 2 * |src| && A.Length1 == 4 && L.Length == 2 * |src|
    modifies A, L
    ensures forall k, j :: 0 <= k < A.Length0 && 0 <= j < 4 ==>
      A[k, j] == if 2 * i <= k < 2 * i + 2 then DesignRow(src, k)[j] else old(A[k, j])
    ensures forall k :: 0 <= k < L.Length ==>
      L[k] == if 2 * i <= k < 2 * i + 2 then Observation(tgt, k) else old(L[k])
  {
    var q := src[i];
    var t := tgt[i];
    PairEntries(src, tgt, i);
    SetRow4(A, 2 * i, q.x, -q.y, 1.0, 0.0);
    SetRow4(A, 2 * i + 1, q.y, q.x, 0.0, 1.0);
    L[2 * i] := t.x;
    L[2 * i + 1] := t.y;
  }

  /** Rows `2i` and `2i + 1` of A and L belong to point `i`: its X row, then its Y row. */
  lemma PairEntries(src: seq<Point2>, tgt: seq<Point2>, i: nat)
    requires |src| == |tgt| && i < |src|
    ensures DesignRow(src, 2 * i) == [src[i].x, -src[i].y, 1.0, 0.0]
    ensures DesignRow(src, 2 * i + 1) == [src[i].y, src[i].x, 0.0, 1.0]
    ensures Observation(tgt, 2 * i) == tgt[i].x && Observation(tgt, 2 * i + 1) == tgt[i].y
  {
    assert (2 * i) / 2 == i && (2 * i) % 2 == 0;
    assert (2 * i + 1) / 2 == i && (2 * i + 1) % 2 == 1;
  }

  /** Rows 2i and 2i+1 of A*p are the X and Y of point i under the transform. */
  lemma DesignAgreesWithApply(src: seq<Point2>, p: FourParams, i: nat)
    requires i < |src|
    ensures MatVec(Design(src), AsVector(p))[2 * i] == Apply(p, src[i]).x
    ensures MatVec(Design(src), AsVector(p))[2 * i + 1] == Apply(p, src[i]).y
  {
    var q := src[i];
    var v := AsVector(p);
    assert Design(src)[2 * i] == [q.x, -q.y, 1.0, 0.0];
    assert Design(src)[2 * i + 1] == [q.y, q.x, 0.0, 1.0];
    Dot4([q.x, -q.y, 1.0, 0.0], v);
    Dot4([q.y, q.x, 0.0, 1.0], v);
  }

  /** Entries 2i and 2i+1 of the residual A*p - L are the X and Y misfits of point i. */
  lemma ResidualPair(src: seq<Point2>, tgt: seq<Point2>, p: FourParams, i: nat)
    requires |src| == |tgt| && i < |src|
    ensures Residual(src, tgt, p)[2 * i] == Apply(p, src[i]).x - tgt[i].x
    ensures Residual(src, tgt, p)[2 * i + 1] == Apply(p, src[i]).y - tgt[i].y
  {
    DesignAgreesWithApply(src, p, i);
    assert Observation(tgt, 2 * i) == tgt[i].x;
    assert Observation(tgt, 2 * i + 1) == tgt[i].y;
  }

  /** The residual vector A*p - L. */
  function Residual(src: seq<Point2>, tgt: seq<Point2>, p: FourParams): (V: Vector)
    requires |src| == |tgt|
    ensures |V| == 2 * |src|
  {
    Sub(MatVec(Design(src), AsVector(p)), Observations(tgt))
  }

  /** The residual A*p - L vanishes iff every source point maps exactly onto its target. */
  lemma ExactFitIff(src: seq<Point2>, tgt: seq<Point2>, p: FourParams)
    requires |src| == |tgt|
    ensures Residual(src, tgt, p) == Zeros(2 * |src|)
        <==> forall i :: 0 <= i < |src| ==> Apply(p, src[i]) == tgt[i]
  {
    var V := Residual(src, tgt, p);
    if forall i :: 0 <= i < |src| ==> Apply(p, src[i]) == tgt[i] {
      forall k | 0 <= k < 2 * |src|
        ensures V[k] == 0.0
      {
        var i := k / 2;
        ResidualPair(src, tgt, p, i);
        assert k == 2 * i || k == 2 * i + 1;
      }
    }
    if V == Zeros(2 * |src|) {
      forall i | 0 <= i < |src|
        ensures Apply(p, src[i]) == tgt[i]
      {
        ResidualPair(src, tgt, p, i);
        assert V[2 * i] == 0.0 && V[2 * i + 1] == 0.0;
      }
    }
  }

  /** Reading the parameter dictionary: `params['a']`, `['b']`, `['dx']`, `['dy']` in that order. */
  function ReadDict(d: map<string, real>): (r: Result<FourParams, ParamsError>)
    ensures r.Ok? <==> "a" in d && "b" in d && "dx" in d && "dy" in d
    ensures r.Ok? ==> r.value == FourParams(d["a"], d["b"], d["dx"], d["dy"])
    ensures "a" !in d ==> r == Err(MissingKey("a"))
  {
    if "a" !in d then Err(MissingKey("a"))
    else if "b" !in d then Err(MissingKey("b"))
    else if "dx" !in d then Err(MissingKey("dx"))
    else if "dy" !in d then Err(MissingKey("dy"))
    else Ok(FourParams(d["a"], d["b"], d["dx"], d["dy"]))
  }

  /** `transform_coordinates`: the parameters are read once, then each point is mapped in order. */
  method TransformCoordinates(points: seq<Point2>, d: map<string, real>)
    returns (r: Result<seq<Point2>, ParamsError>)
    ensures ReadDict(d).Err? ==> r == Err(ReadDict(d).error)
    ensures ReadDict(d).Ok? ==> r.Ok? && |r.value| == |points|
    ensures ReadDict(d).Ok? ==> forall i :: 0 <= i < |points| ==> r.value[i] == Apply(ReadDict(d).value, points[i])
  {
    var read := ReadDict(d);
    if read.Err? {
      return Err(read.error);
    }
    var p := read.value;
    var transformed: seq<Point2> := [];
    for i := 0 to |points|
      invariant |transformed| == i
      invariant forall k :: 0 <= k < i ==> transformed[k] == Apply(p, points[k])
    {
      transformed := transformed + [Apply(p, points[i])];
    }
    return Ok(transformed);
  }

  /** The parameters of `transform_point_four_par`: a dictionary, or a sequence unpacked into four. */
  function ReadParams(params: ParamsArg): (r: Result<FourParams, ParamsError>)
    ensures params.SeqParams? ==> (r.Ok? <==> |params.s| == 4)
    ensures params.SeqParams? && |params.s| == 4 ==>
      r.value == FourParams(params.s[0], params.s[1], params.s[2], params.s[3])
    ensures params.DictParams? ==> r == ReadDict(params.d)
  {
    match params
    case DictParams(d) => ReadDict(d)
    case SeqParams(s) =>
      if |s| == 4 then Ok(FourParams(s[0], s[1], s[2], s[3])) else Err(WrongParamCount)
  }

  /** `transform_point_four_par`: parameters are read first, then the point must have two components. */
  function TransformPointFourPar(point: seq<real>, params: ParamsArg): (r: Result<Point2, ParamsError>)
    ensures ReadParams(params).Err? ==> r == Err(ReadParams(params).error)
    ensures ReadParams(params).Ok? && |point| != 2 ==> r == Err(PointNotTwo)
    ensures ReadParams(params).Ok? && |point| == 2 ==>
      r == Ok(Apply(ReadParams(params).value, Point2(point[0], point[1])))
  {
    var read := ReadParams(params);
    if read.Err? then Err(read.error)
    else if |point| != 2 then Err(PointNotTwo)
    else
      Ok(Apply(read.value, Point2(point[0], point[1])))
  }

  /** The dictionary and the sequence [a, b, dx, dy] give the same transform. */
  lemma DictAndSeqAgree(point: seq<real>, a: real, b: real, dx: real, dy: real)
    ensures TransformPointFourPar(point, DictParams(map["a" := a, "b" := b, "dx" := dx, "dy" := dy]))
         == TransformPointFourPar(point, SeqParams([a, b, dx, dy]))
  {
    var d := map["a" := a, "b" := b, "dx" := dx, "dy" := dy];
    assert d["a"] == a && d["b"] == b && d["dx"] == dx && d["dy"] == dy;
  }

  /** The identity parameters (a = 1, b = 0, dx = dy = 0). */
  const Identity := FourParams(1.0, 0.0, 0.0, 0.0)

  /** The identity parameters map every point to itself. */
  lemma IdentityFixesPoints(q: Point2)
    ensures Apply(Identity, q) == q
  {
  }

  /** Applying the single-point transform to each point is `transform_coordinates`. */
  lemma SinglePointAgreesWithList(q: Point2, p: FourParams)
    ensures TransformPointFourPar([q.x, q.y], SeqParams(AsVector(p))) == Ok(Apply(p, q))
  {
  }
}
