/** Image to ground projection (compute-server HomographyTransform) over the reals: how a
    matrix is normalised and checked at construction, and what a point is mapped to. */
module Homography {
  import opened Domain

  const MIN_DENOMINATOR := 1.0 / 1000000000.0
  const MIN_NORMALIZED_DETERMINANT := 1.0 / 1000000000000.0
  const IDENTITY_TOLERANCE := 1.0 / 1000000000.0

  /** Row-major 3x3. */
  type Matrix = m: seq<real> | |m| == 9 witness [0.0, 0.0, 0.0, 0.0, 0.0, 0.0, 0.0, 0.0, 0.0]

  datatype Point = Point(x: real, y: real)

  datatype Options = Options(
    pixelSpace: bool, imageWidth: real, imageHeight: real,
    boundsEnabled: bool, minX: real, maxX: real, minY: real, maxY: real)

  datatype Error = BadImageSize | BadBounds | ZeroMatrix | Singular | HorizonAtAnchor | IdentityMatrix
  datatype Result = Failure(error: Error) | Success(matrix: Matrix)

  function Abs(x: real): real { if x < 0.0 then -x else x }

  function Determinant(m: Matrix): real {
    m[0] * (m[4] * m[8] - m[5] * m[7]) - m[1] * (m[3] * m[8] - m[5] * m[6]) + m[2] * (m[3] * m[7] - m[4] * m[6])
  }

  function Denominator(m: Matrix, u: real, v: real): real { m[6] * u + m[7] * v + m[8] }
  function NumeratorX(m: Matrix, u: real, v: real): real { m[0] * u + m[1] * v + m[2] }
  function NumeratorY(m: Matrix, u: real, v: real): real { m[3] * u + m[4] * v + m[5] }

  /** The denominator at the bottom centre of the picture. */
  function Anchor(m: Matrix): real { Denominator(m, 0.5, 1.0) }

  // ---------- normalisation, as values ----------

  function ColumnFactor(i: nat, width: real, height: real): real {
    if i % 3 == 0 then width else if i % 3 == 1 then height else 1.0
  }

  function Columns(m: Matrix, width: real, height: real): Matrix {
    seq(9, i requires 0 <= i < 9 => m[i] * ColumnFactor(i, width, height))
  }

  function InImage(m: Matrix, o: Options): Matrix {
    if o.pixelSpace then Columns(m, o.imageWidth, o.imageHeight) else m
  }

  function MaxAbs(m: seq<real>): (a: real) {
    if m == [] then 0.0 else Max(MaxAbs(m[..|m| - 1]), Abs(m[|m| - 1]))
  }

  function Over(m: Matrix, d: real): Matrix
    requires d != 0.0
  {
    seq(9, i requires 0 <= i < 9 => m[i] / d)
  }

  function Negated(m: Matrix): Matrix {
    seq(9, i requires 0 <= i < 9 => -m[i])
  }

  function Expected(i: nat): real { if i == 0 || i == 4 || i == 8 then 1.0 else 0.0 }

  predicate IsIdentityLike(m: Matrix) {
    Abs(m[8]) >= 1.0 / 1000000000000.0
    && forall i :: 0 <= i < 9 ==> Abs(m[i] / m[8] - Expected(i)) <= IDENTITY_TOLERANCE
  }

  function Oriented(m: Matrix): Matrix {
    if Anchor(m) < 0.0 then Negated(m) else m
  }

  /** From magnitude 1 on. */
  function Checked(m: Matrix): Result {
    if Abs(Determinant(m)) < MIN_NORMALIZED_DETERMINANT then Failure(Singular)
    else if Abs(Anchor(m)) <= MIN_DENOMINATOR then Failure(HorizonAtAnchor)
    else if IsIdentityLike(Oriented(m)) then Failure(IdentityMatrix)
    else Success(Oriented(m))
  }

  function Normalized(m: Matrix): Result {
    if MaxAbs(m) <= 0.0 then Failure(ZeroMatrix) else Checked(Over(m, MaxAbs(m)))
  }

  /** The matrix the constructor keeps, or the error it throws. */
  function Constructed(m: Matrix, o: Options): Result {
    if o.pixelSpace && !(o.imageWidth > 0.0 && o.imageHeight > 0.0) then Failure(BadImageSize)
    else if o.boundsEnabled && !(o.minX < o.maxX && o.minY < o.maxY) then Failure(BadBounds)
    else Normalized(InImage(m, o))
  }

  predicate InUnitSquare(u: real, v: real) { 0.0 <= u <= 1.0 && 0.0 <= v <= 1.0 }

  predicate InBounds(p: Point, o: Options) {
    o.boundsEnabled ==> o.minX <= p.x <= o.maxX && o.minY <= p.y <= o.maxY
  }

  function Image(m: Matrix, u: real, v: real): Point
    requires Denominator(m, u, v) != 0.0
  {
    Point(NumeratorX(m, u, v) / Denominator(m, u, v), NumeratorY(m, u, v) / Denominator(m, u, v))
  }

  function ToLocal(m: Matrix, o: Options, u: real, v: real): Option<Point> {
    if !InUnitSquare(u, v) || Denominator(m, u, v) <= MIN_DENOMINATOR then None
    else if InBounds(Image(m, u, v), o) then Some(Image(m, u, v))
    else None
  }

  // ---------- the class ----------

  lemma RowFactors(m: Matrix, row: nat, width: real, height: real)
    requires row < 3
    ensures var n := Columns(m, width, height);
            n[row * 3] == m[row * 3] * width && n[row * 3 + 1] == m[row * 3 + 1] * height
              && n[row * 3 + 2] == m[row * 3 + 2]
  {
    assert row == 0 || row == 1 || row == 2;
  }

  method ScaleColumns(a: array<real>, width: real, height: real)
    requires a.Length == 9
    modifies a
    ensures a[..] == Columns(old(a[..]), width, height)
  {
    ghost var m: Matrix := a[..];
    ghost var n := Columns(m, width, height);
    for row := 0 to 3
      invariant forall i :: 0 <= i < row * 3 ==> a[i] == n[i]
      invariant forall i :: row * 3 <= i < 9 ==> a[i] == m[i]
    {
      RowFactors(m, row, width, height);
      a[row * 3 + 0] := a[row * 3 + 0] * width;
      a[row * 3 + 1] := a[row * 3 + 1] * height;
    }
  }

  method MaxAbsValue(a: array<real>) returns (max: real)
    requires a.Length == 9
    ensures max == MaxAbs(a[..])
  {
    max := 0.0;
    for i := 0 to 9
      invariant max == MaxAbs(a[..i])
    {
      assert a[..i + 1][..i] == a[..i];
      max := Max(max, Abs(a[i]));
    }
    assert a[..9] == a[..];
  }

  method DivideAll(a: array<real>, d: real)
    requires a.Length == 9 && d != 0.0
    modifies a
    ensures a[..] == Over(old(a[..]), d)
  {
    ghost var m: Matrix := a[..];
    for i := 0 to 9
      invariant forall k :: 0 <= k < i ==> a[k] == Over(m, d)[k]
      invariant forall k :: i <= k < 9 ==> a[k] == m[k]
    {
      a[i] := a[i] / d;
    }
  }

  method NegateAll(a: array<real>)
    requires a.Length == 9
    modifies a
    ensures a[..] == Negated(old(a[..]))
  {
    ghost var m: Matrix := a[..];
    for i := 0 to 9
      invariant forall k :: 0 <= k < i ==> a[k] == Negated(m)[k]
      invariant forall k :: i <= k < 9 ==> a[k] == m[k]
    {
      a[i] := -a[i];
    }
  }

  method LooksLikeIdentity(a: array<real>) returns (yes: bool)
    requires a.Length == 9
    ensures yes <==> IsIdentityLike(a[..])
  {
    if Abs(a[8]) < 1.0 / 1000000000000.0 {
      return false;
    }
    for i := 0 to 9
      invariant forall k :: 0 <= k < i ==> Abs(a[k] / a[8] - Expected(k)) <= IDENTITY_TOLERANCE
    {
      if Abs(a[i] / a[8] - Expected(i)) > IDENTITY_TOLERANCE {
        return false;
      }
    }
    return true;
  }

  /** Orientation and identity test, the last two steps of the constructor. */
  method Orient(a: array<real>) returns (error: Option<Error>)
    requires a.Length == 9
    modifies a
    ensures match Checked(old(a[..])) case Success(m) => error == None && a[..] == m case Failure(e) => error == Some(e)
  {
    if Abs(Determinant(a[..])) < MIN_NORMALIZED_DETERMINANT {
      return Some(Singular);
    }
    var anchor := Anchor(a[..]);
    if Abs(anchor) <= MIN_DENOMINATOR {
      return Some(HorizonAtAnchor);
    }
    if anchor < 0.0 {
      NegateAll(a);
    }
    var identity := LooksLikeIdentity(a);
    return if identity then Some(IdentityMatrix) else None;
  }

  class HomographyTransform {
    const matrix: array<real>
    const options: Options
    var failureCount: nat

    constructor (matrix: array<real>, options: Options)
      ensures this.matrix == matrix && this.options == options && failureCount == 0
    {
      this.matrix, this.options, failureCount := matrix, options, 0;
    }

    ghost predicate Valid()
      reads this, matrix
    {
      matrix.Length == 9
    }

    /** Construction; an exception of the original is the error. */
    static method Make(m: array<real>, o: Options) returns (t: HomographyTransform?, error: Option<Error>)
      requires m.Length == 9
      modifies m
      ensures match Constructed(old(m[..]), o)
              case Success(n) =>
                t != null && fresh(t) && t.matrix == m && t.options == o && t.Valid() && m[..] == n && error == None
              case Failure(e) => t == null && error == Some(e)
    {
      t, error := null, None;
      if o.pixelSpace {
        if !(o.imageWidth > 0.0) || !(o.imageHeight > 0.0) {
          error := Some(BadImageSize);
          return;
        }
        ScaleColumns(m, o.imageWidth, o.imageHeight);
      }
      if o.boundsEnabled && (!(o.minX < o.maxX) || !(o.minY < o.maxY)) {
        error := Some(BadBounds);
        return;
      }
      assert m[..] == InImage(old(m[..]), o);
      var max := MaxAbsValue(m);
      if !(max > 0.0) {
        error := Some(ZeroMatrix);
        return;
      }
      DivideAll(m, max);
      error := Orient(m);
      if error == None {
        t := new HomographyTransform(m, o);
      }
    }

    /** Maps a point; a refused point is counted. */
    method ToLocalPoint(u: real, v: real) returns (r: Option<Point>)
      requires Valid()
      modifies `failureCount
      ensures r == ToLocal(matrix[..], options, u, v)
      ensures failureCount == old(failureCount) + if r == None then 1 else 0
    {
      if u < 0.0 || u > 1.0 || v < 0.0 || v > 1.0 {
        failureCount := failureCount + 1;
        return None;
      }
      var denominator := matrix[6] * u + matrix[7] * v + matrix[8];
      assert denominator == Denominator(matrix[..], u, v);
      if denominator <= MIN_DENOMINATOR {
        failureCount := failureCount + 1;
        return None;
      }
      var local := Point((matrix[0] * u + matrix[1] * v + matrix[2]) / denominator,
                         (matrix[3] * u + matrix[4] * v + matrix[5]) / denominator);
      assert local == Image(matrix[..], u, v);
      if options.boundsEnabled
         && (local.x < options.minX || local.x > options.maxX || local.y < options.minY || local.y > options.maxY) {
        failureCount := failureCount + 1;
        return None;
      }
      return Some(local);
    }
  }
}
