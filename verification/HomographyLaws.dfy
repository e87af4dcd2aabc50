/** What the projection guarantees: it depends on the matrix only up to scale, it is the
    projective map of the calibration, it is injective, and it maps segments to segments. */
module HomographyLaws {
  import opened Domain
  import opened Homography

  function Scaled(m: Matrix, c: real): Matrix {
    seq(9, i requires 0 <= i < 9 => m[i] * c)
  }

  predicate Entry(i: int) { 0 <= i < 9 }

  /** `s` is `c` times `m`. */
  ghost predicate Multiple(s: Matrix, m: Matrix, c: real) {
    forall i {:trigger Entry(i)} :: Entry(i) ==> s[i] == m[i] * c
  }

  lemma ScaledIsMultiple(m: Matrix, c: real)
    ensures Multiple(Scaled(m, c), m, c)
  {}

  lemma MultipleIsScaled(s: Matrix, m: Matrix, c: real)
    requires Multiple(s, m, c)
    ensures s == Scaled(m, c)
  {
    forall i | 0 <= i < 9 ensures s[i] == Scaled(m, c)[i] { assert Entry(i); }
  }

  // ---------- scale invariance ----------

  lemma Magnitude(x: real, c: real, xc: real, bound: real)
    requires xc == x * c && Abs(x) <= bound
    ensures Abs(xc) <= bound * Abs(c) && (Abs(x) == bound ==> Abs(xc) == bound * Abs(c))
  {
    assert Abs(xc) == Abs(x) * Abs(c);
    Nonneg(bound - Abs(x), Abs(c));
  }

  lemma {:induction false} MaxAbsBounds(m: seq<real>, i: nat)
    requires i < |m|
    ensures Abs(m[i]) <= MaxAbs(m)
  {
    var n := |m| - 1;
    if i < n {
      MaxAbsBounds(m[..n], i);
      assert m[..n][i] == m[i];
    }
  }

  lemma {:induction false} MaxAbsAttained(m: seq<real>) returns (i: nat)
    requires m != []
    ensures i < |m| && MaxAbs(m) == Abs(m[i])
  {
    var n := |m| - 1;
    if n == 0 || MaxAbs(m[..n]) <= Abs(m[n]) {
      i := n;
    } else {
      i := MaxAbsAttained(m[..n]);
    }
  }

  lemma SameMaximum(x: real, xc: real, y: real, yc: real, c: real, d: real, e: real)
    requires xc == x * c && yc == y * c
    requires Abs(x) == d && Abs(y) <= d && Abs(yc) == e && Abs(xc) <= e
    ensures e == d * Abs(c)
  {
    Magnitude(x, c, xc, d);
    Magnitude(y, c, yc, d);
  }

  lemma LargestEntries(m: Matrix, s: Matrix) returns (i: nat, j: nat)
    ensures i < 9 && j < 9
    ensures Abs(m[i]) == MaxAbs(m) && Abs(m[j]) <= MaxAbs(m)
    ensures Abs(s[j]) == MaxAbs(s) && Abs(s[i]) <= MaxAbs(s)
  {
    i := MaxAbsAttained(m);
    j := MaxAbsAttained(s);
    MaxAbsBounds(m, j);
    MaxAbsBounds(s, i);
  }

  lemma EntriesScale(m: Matrix, s: Matrix, c: real, i: nat, j: nat, d: real, e: real, k: real)
    requires Multiple(s, m, c) && i < 9 && j < 9 && k == Abs(c)
    requires Abs(m[i]) == d && Abs(m[j]) <= d && Abs(s[j]) == e && Abs(s[i]) <= e
    ensures e == d * k
  {
    assert Entry(i) && Entry(j);
    SameMaximum(m[i], s[i], m[j], s[j], c, d, e);
  }

  lemma MaxAbsScaled(m: Matrix, s: Matrix, c: real, d: real, e: real, k: real)
    requires Multiple(s, m, c) && d == MaxAbs(m) && e == MaxAbs(s) && k == Abs(c)
    ensures e == d * k
  {
    var i, j := LargestEntries(m, s);
    EntriesScale(m, s, c, i, j, d, e, k);
  }

  lemma Quotient(n: real, d: real, q: real)
    requires d != 0.0 && q * d == n
    ensures n / d == q
  {}

  lemma PositiveProduct(x: real, y: real)
    requires x > 0.0 && y > 0.0
    ensures x * y > 0.0
  {}

  lemma NonZeroProduct(x: real, y: real)
    requires x != 0.0 && y != 0.0
    ensures x * y != 0.0
  {
    PositiveProduct(Abs(x), Abs(y));
  }

  lemma OverIsScaled(m: Matrix, d: real, k: real)
    requires d > 0.0 && k == 1.0 / d
    ensures k > 0.0
    ensures Over(m, d) == Scaled(m, k) && Negated(Over(m, d)) == Scaled(m, -k)
  {
    assert k * d == 1.0;
    var o, s, t := Over(m, d), Scaled(m, k), Scaled(m, -k);
    forall i | 0 <= i < 9 ensures o[i] == s[i] && Negated(o)[i] == t[i] {
      DivideIsTimes(m[i], d, k);
    }
  }

  lemma DivideIsTimes(x: real, d: real, k: real)
    requires d > 0.0 && k * d == 1.0
    ensures x / d == x * k && -(x / d) == x * -k
  {
    Associate(x, k, d, x * k, 1.0);
    Quotient(x, d, x * k);
  }

  lemma ScaledTwice(m: Matrix, c: real, f: real, cf: real)
    requires cf == c * f
    ensures Scaled(Scaled(m, c), f) == Scaled(m, cf)
  {
    var s, t := Scaled(m, c), Scaled(m, cf);
    forall i | 0 <= i < 9 ensures Scaled(s, f)[i] == t[i] {
      Associate(m[i], c, f, s[i], cf);
    }
  }

  lemma Associate(x: real, c: real, f: real, xc: real, cf: real)
    requires xc == x * c && cf == c * f
    ensures xc * f == x * cf
  {}

  lemma InverseOfProduct(c: real, d: real, e: real, size: real)
    requires c != 0.0 && size == Abs(c) && d > 0.0 && e == d * size && e > 0.0
    ensures c * (1.0 / e) == if c > 0.0 then 1.0 / d else -(1.0 / d)
  {
    var k := 1.0 / e;
    assert e * k == 1.0;
    Associate(d, size, k, e, size * k);
    Quotient(1.0, d, size * k);
    assert c * k == if c > 0.0 then size * k else -(size * k);
  }

  lemma OverProduct(m: Matrix, s: Matrix, c: real, d: real, e: real, k: real)
    requires Multiple(s, m, c) && c != 0.0 && k == Abs(c) && d > 0.0 && e == d * k && e > 0.0
    ensures Over(s, e) == if c > 0.0 then Over(m, d) else Negated(Over(m, d))
  {
    MultipleIsScaled(s, m, c);
    OverIsScaled(m, d, 1.0 / d);
    OverIsScaled(s, e, 1.0 / e);
    ScaledTwice(m, c, 1.0 / e, c * (1.0 / e));
    InverseOfProduct(c, d, e, k);
  }

  /** After the division by the largest magnitude only the sign of the factor is left. */
  lemma UnitMatrix(m: Matrix, s: Matrix, c: real, d: real, e: real)
    requires Multiple(s, m, c) && c != 0.0 && d == MaxAbs(m) && d > 0.0 && e == MaxAbs(s)
    ensures e > 0.0
    ensures Over(s, e) == if c > 0.0 then Over(m, d) else Negated(Over(m, d))
  {
    var k := Abs(c);
    MaxAbsScaled(m, s, c, d, e, k);
    PositiveProduct(d, k);
    OverProduct(m, s, c, d, e, k);
  }

  lemma NegatedDeterminant(m: Matrix)
    ensures Determinant(Negated(m)) == -Determinant(m)
  {}

  lemma NegatedAnchor(m: Matrix)
    ensures Anchor(Negated(m)) == -Anchor(m) && Negated(Negated(m)) == m
  {}

  lemma CheckedIgnoresSign(m: Matrix)
    ensures Checked(Negated(m)) == Checked(m)
  {
    NegatedDeterminant(m);
    NegatedAnchor(m);
  }

  lemma ColumnsScaled(m: Matrix, s: Matrix, c: real, o: Options)
    requires Multiple(s, m, c)
    ensures Multiple(InImage(s, o), InImage(m, o), c)
  {}

  lemma NormalizedAlike(m: Matrix, s: Matrix, c: real)
    requires Multiple(s, m, c) && c != 0.0
    ensures Normalized(s) == Normalized(m)
  {
    if MaxAbs(m) > 0.0 {
      UnitMatrix(m, s, c, MaxAbs(m), MaxAbs(s));
      CheckedIgnoresSign(Over(m, MaxAbs(m)));
    } else {
      var i := MaxAbsAttained(m);
      MaxAbsScaled(m, s, c, 0.0, MaxAbs(s), Abs(c));
    }
  }

  /** A matrix and every non-zero multiple of it, negative ones included, are accepted alike,
      with the same error or the same kept matrix, hence map every point alike. */
  lemma ScaleDoesNotMatter(m: Matrix, s: Matrix, c: real, o: Options)
    requires Multiple(s, m, c) && c != 0.0
    ensures Constructed(s, o) == Constructed(m, o)
  {
    ColumnsScaled(m, s, c, o);
    NormalizedAlike(InImage(m, o), InImage(s, o), c);
  }

  // ---------- relation to the calibration matrix ----------

  /** The kept matrix is a non-zero multiple of the given one, in image coordinates, with
      a real determinant and the anchor on the near side of the horizon. */
  lemma KeptIsMultiple(m: Matrix, o: Options) returns (k: real)
    requires Constructed(m, o).Success?
    ensures k != 0.0 && Constructed(m, o).matrix == Scaled(InImage(m, o), k)
    ensures Anchor(Constructed(m, o).matrix) > MIN_DENOMINATOR
    ensures Abs(Determinant(Constructed(m, o).matrix)) >= MIN_NORMALIZED_DETERMINANT
  {
    var n := InImage(m, o);
    k := OrientedMultiple(n, MaxAbs(n));
  }

  /** An accepted matrix has a positive third coordinate at the bottom centre of the picture; one for which
      it vanishes there is refused. */
  lemma SeesBottomCentre(m: Matrix, o: Options)
    ensures match Constructed(m, o)
            case Success(kept) => kept[6] / 2.0 + kept[7] + kept[8] > MIN_DENOMINATOR
            case Failure(error) =>
              var n := InImage(m, o);
              error == HorizonAtAnchor ==> Abs(n[6] / 2.0 + n[7] + n[8]) <= MIN_DENOMINATOR * MaxAbs(n)
  {
    if Constructed(m, o).Success? {
      var k := KeptIsMultiple(m, o);
    } else if Constructed(m, o).error == HorizonAtAnchor {
      HorizonOver(InImage(m, o), MaxAbs(InImage(m, o)));
    }
  }

  lemma HorizonOver(n: Matrix, d: real)
    requires d > 0.0 && Abs(Anchor(Over(n, d))) <= MIN_DENOMINATOR
    ensures Abs(n[6] / 2.0 + n[7] + n[8]) <= MIN_DENOMINATOR * d
  {
    AnchorOver(n, d);
    Nonneg(MIN_DENOMINATOR - Abs(Anchor(Over(n, d))), d);
  }

  lemma AnchorOver(n: Matrix, d: real)
    requires d > 0.0
    ensures Abs(Anchor(Over(n, d))) * d == Abs(n[6] / 2.0 + n[7] + n[8])
  {
    var a, b, c := n[6] / d, n[7] / d, n[8] / d;
    assert a * d == n[6] && b * d == n[7] && c * d == n[8];
    assert (a * 0.5 + b * 1.0 + c) * d == n[6] / 2.0 + n[7] + n[8];
  }

  lemma OrientedMultiple(n: Matrix, d: real) returns (k: real)
    requires d > 0.0 && Checked(Over(n, d)).Success?
    ensures k != 0.0 && Checked(Over(n, d)).matrix == Scaled(n, k)
    ensures Anchor(Checked(Over(n, d)).matrix) > MIN_DENOMINATOR
    ensures Abs(Determinant(Checked(Over(n, d)).matrix)) >= MIN_NORMALIZED_DETERMINANT
  {
    OverIsScaled(n, d, 1.0 / d);
    NegatedDeterminant(Over(n, d));
    NegatedAnchor(Over(n, d));
    k := if Anchor(Over(n, d)) < 0.0 then -(1.0 / d) else 1.0 / d;
  }

  lemma DenominatorOfMultiple(m: Matrix, k: real, u: real, v: real)
    ensures Denominator(Scaled(m, k), u, v) == Denominator(m, u, v) * k
  {}

  lemma NumeratorsOfMultiple(m: Matrix, k: real, u: real, v: real)
    ensures NumeratorX(Scaled(m, k), u, v) == NumeratorX(m, u, v) * k
    ensures NumeratorY(Scaled(m, k), u, v) == NumeratorY(m, u, v) * k
  {}

  lemma ImageOfMultiple(m: Matrix, k: real, u: real, v: real)
    requires k != 0.0 && Denominator(m, u, v) != 0.0
    ensures Denominator(Scaled(m, k), u, v) != 0.0 && Image(Scaled(m, k), u, v) == Image(m, u, v)
  {
    var s := Scaled(m, k);
    var x, y, d := NumeratorX(m, u, v), NumeratorY(m, u, v), Denominator(m, u, v);
    var xk, yk, dk := NumeratorX(s, u, v), NumeratorY(s, u, v), Denominator(s, u, v);
    DenominatorOfMultiple(m, k, u, v);
    NumeratorsOfMultiple(m, k, u, v);
    SameQuotients(x, y, d, k, xk, yk, dk);
    assert Image(s, u, v) == Point(xk / dk, yk / dk);
  }

  lemma SameQuotients(x: real, y: real, d: real, k: real, xk: real, yk: real, dk: real)
    requires d != 0.0 && k != 0.0 && xk == x * k && yk == y * k && dk == d * k
    ensures dk != 0.0 && Point(xk / dk, yk / dk) == Point(x / d, y / d)
  {
    CancelFactor(x, d, k, xk, dk);
    CancelFactor(y, d, k, yk, dk);
  }

  lemma CancelFactor(n: real, d: real, k: real, nk: real, dk: real)
    requires d != 0.0 && k != 0.0 && nk == n * k && dk == d * k
    ensures dk != 0.0 && nk / dk == n / d
  {
    var q := n / d;
    assert q * d == n;
    NonZeroProduct(d, k);
    Associate(q, d, k, n, dk);
    Quotient(nk, dk, q);
  }

  lemma PixelColumns(m: Matrix, o: Options, u: real, v: real)
    requires o.pixelSpace
    ensures var n := InImage(m, o); var x, y := o.imageWidth * u, o.imageHeight * v;
            Denominator(n, u, v) == Denominator(m, x, y)
            && NumeratorX(n, u, v) == NumeratorX(m, x, y) && NumeratorY(n, u, v) == NumeratorY(m, x, y)
  {
    Regroup(m[0], o.imageWidth, u); Regroup(m[1], o.imageHeight, v);
    Regroup(m[3], o.imageWidth, u); Regroup(m[4], o.imageHeight, v);
    Regroup(m[6], o.imageWidth, u); Regroup(m[7], o.imageHeight, v);
  }

  lemma Regroup(a: real, w: real, u: real)
    ensures a * w * u == a * (w * u)
  {}

  /** An accepted transform applies the matrix it was given: to (u, v), or in pixel space to the
      pixel (W u, H v). A point is refused exactly when it lies outside the picture, at or
      beyond the horizon as seen from the anchor, or outside the bounds. */
  lemma MapsByCalibration(m: Matrix, o: Options, u: real, v: real)
    requires Constructed(m, o).Success?
    ensures var x, y := (if o.pixelSpace then o.imageWidth * u else u), (if o.pixelSpace then o.imageHeight * v else v);
            var d := Denominator(Constructed(m, o).matrix, u, v);
            && (ToLocal(Constructed(m, o).matrix, o, u, v).Some? ==>
                  Denominator(m, x, y) != 0.0 && ToLocal(Constructed(m, o).matrix, o, u, v).value == Image(m, x, y))
            && (ToLocal(Constructed(m, o).matrix, o, u, v).Some? <==>
                  InUnitSquare(u, v) && d > MIN_DENOMINATOR && Denominator(m, x, y) != 0.0
                    && InBounds(Image(m, x, y), o))
  {
    var k := KeptIsMultiple(m, o);
    var n := InImage(m, o);
    DenominatorOfMultiple(n, k, u, v);
    if Denominator(n, u, v) != 0.0 { ImageOfMultiple(n, k, u, v); }
    if o.pixelSpace { PixelColumns(m, o, u, v); }
    assert Denominator(n, u, v) == 0.0 ==> Denominator(n, u, v) * k == 0.0;
  }

  /** A world point is the one whose coordinates, times the third, give the first two rows of the matrix
      at the image point; it is given exactly for image points of the picture in front of the horizon
      whose world point lies within the bounds, each axis within its own. */
  lemma GivesPointExactly(m: Matrix, o: Options, u: real, v: real, p: Point)
    ensures var d := m[6] * u + m[7] * v + m[8];
            ToLocal(m, o, u, v) == Some(p) <==>
              && 0.0 <= u <= 1.0 && 0.0 <= v <= 1.0 && d > MIN_DENOMINATOR
              && p.x * d == m[0] * u + m[1] * v + m[2] && p.y * d == m[3] * u + m[4] * v + m[5]
              && (o.boundsEnabled ==> o.minX <= p.x && p.x <= o.maxX && o.minY <= p.y && p.y <= o.maxY)
  {
    var d := m[6] * u + m[7] * v + m[8];
    if d > MIN_DENOMINATOR {
      QuotientExactly(NumeratorX(m, u, v), d, p.x);
      QuotientExactly(NumeratorY(m, u, v), d, p.y);
    }
  }

  lemma QuotientExactly(n: real, d: real, q: real)
    requires d != 0.0
    ensures q == n / d <==> q * d == n
  {
    assert n / d * d == n;
    if q * d == n { assert (q - n / d) * d == 0.0; }
  }

  // ---------- a missing calibration ----------

  predicate IsDiagonal(m: Matrix, x: real, y: real, z: real) {
    m[0] == x && m[1] == 0.0 && m[2] == 0.0 && m[3] == 0.0 && m[4] == y && m[5] == 0.0
    && m[6] == 0.0 && m[7] == 0.0 && m[8] == z
  }

  predicate BoundsAreOk(o: Options) { o.boundsEnabled ==> o.minX < o.maxX && o.minY < o.maxY }

  /** Picture size 1 x 1 up to the tolerance. */
  predicate UnitSize(width: real, height: real) {
    Abs(width - 1.0) <= IDENTITY_TOLERANCE && Abs(height - 1.0) <= IDENTITY_TOLERANCE
  }

  lemma DiagonalMax(m: Matrix, x: real, y: real, d: real)
    requires IsDiagonal(m, x, y, 1.0) && x > 0.0 && y > 0.0 && d == Max(Max(x, y), 1.0)
    ensures MaxAbs(m) == d
  {
    var i := MaxAbsAttained(m);
    MaxAbsBounds(m, 0);
    MaxAbsBounds(m, 4);
    MaxAbsBounds(m, 8);
    assert Abs(m[i]) <= d;
  }

  lemma DiagonalOver(m: Matrix, x: real, y: real, d: real, k: real)
    requires IsDiagonal(m, x, y, 1.0) && d > 0.0 && k == 1.0 / d
    ensures IsDiagonal(Over(m, d), x * k, y * k, k)
  {
    OverIsScaled(m, d, k);
    assert forall i :: 0 <= i < 9 ==> Over(m, d)[i] == m[i] * k;
  }

  lemma DiagonalValues(m: Matrix, x: real, y: real, z: real)
    requires IsDiagonal(m, x, y, z)
    ensures Determinant(m) == x * y * z && Anchor(m) == z
  {}

  /** `x` and `y` are the width and the height times `k`. */
  lemma DiagonalIsIdentity(m: Matrix, width: real, height: real, x: real, y: real, k: real)
    requires k > MIN_DENOMINATOR && x == width * k && y == height * k && IsDiagonal(m, x, y, k)
    ensures IsIdentityLike(m) <==> UnitSize(width, height)
  {
    Quotient(x, k, width);
    Quotient(y, k, height);
    Quotient(0.0, k, 0.0);
    Quotient(k, k, 1.0);
    assert UnitSize(width, height) <==> Abs(m[0] / m[8] - Expected(0)) <= IDENTITY_TOLERANCE
                                        && Abs(m[4] / m[8] - Expected(4)) <= IDENTITY_TOLERANCE;
  }

  lemma CheckedInFront(m: Matrix, det: real, anchor: real)
    requires det == Determinant(m) && anchor == Anchor(m) && det > 0.0 && anchor > 0.0
    ensures Checked(m).Success? <==> det >= MIN_NORMALIZED_DETERMINANT && anchor > MIN_DENOMINATOR && !IsIdentityLike(m)
    ensures det >= MIN_NORMALIZED_DETERMINANT && anchor > MIN_DENOMINATOR && IsIdentityLike(m)
        ==> Checked(m) == Failure(IdentityMatrix)
    ensures Checked(m).Success? ==> Checked(m).matrix == m
  {}

  lemma DiagonalChecked(m: Matrix, width: real, height: real, x: real, y: real, k: real, det: real)
    requires width > 0.0 && height > 0.0 && k > 0.0 && x == width * k && y == height * k && det == x * y * k
    requires IsDiagonal(m, x, y, k)
    ensures Checked(m).Success?
       <==> det >= MIN_NORMALIZED_DETERMINANT && k > MIN_DENOMINATOR && !UnitSize(width, height)
    ensures det >= MIN_NORMALIZED_DETERMINANT && k > MIN_DENOMINATOR && UnitSize(width, height) ==>
              Checked(m) == Failure(IdentityMatrix)
    ensures Checked(m).Success? ==> Checked(m).matrix == m
  {
    PositiveProduct(width, k);
    PositiveProduct(height, k);
    PositiveProduct(x, y);
    PositiveProduct(x * y, k);
    DiagonalValues(m, x, y, k);
    CheckedInFront(m, det, k);
    if k > MIN_DENOMINATOR { DiagonalIsIdentity(m, width, height, x, y, k); }
  }

  /** How a diagonal matrix of this size fares; `k` is 1 over its largest entry. */
  predicate Outcome(r: Result, width: real, height: real, k: real, det: real) {
    && (r.Success? <==> det >= MIN_NORMALIZED_DETERMINANT && k > MIN_DENOMINATOR && !UnitSize(width, height))
    && (det >= MIN_NORMALIZED_DETERMINANT && k > MIN_DENOMINATOR && UnitSize(width, height) ==>
        r == Failure(IdentityMatrix))
    && (r.Success? ==> r.matrix[6] == 0.0 && r.matrix[7] == 0.0 && r.matrix[8] == k)
  }

  lemma DiagonalNormalized(m: Matrix, width: real, height: real, d: real, k: real, det: real)
    requires IsDiagonal(m, width, height, 1.0) && width > 0.0 && height > 0.0
    requires d == Max(Max(width, height), 1.0) && k == 1.0 / d && det == width * k * (height * k) * k
    ensures Outcome(Normalized(m), width, height, k, det)
  {
    DiagonalMax(m, width, height, d);
    DiagonalOver(m, width, height, d, k);
    DiagonalChecked(Over(m, d), width, height, width * k, height * k, k, det);
  }

  lemma UncalibratedInImage(m: Matrix, o: Options)
    requires IsDiagonal(m, 1.0, 1.0, 1.0)
    ensures o.pixelSpace ==> IsDiagonal(InImage(m, o), o.imageWidth, o.imageHeight, 1.0)
    ensures !o.pixelSpace ==> InImage(m, o) == m
  {}

  /** Which pictures let a missing calibration through: pixel space, and a size that is neither
      1 x 1 nor so long and thin, or so large, that another check fails. */
  predicate HidesMissingCalibration(o: Options) {
    o.pixelSpace && o.imageWidth > 0.0 && o.imageHeight > 0.0 && !UnitSize(o.imageWidth, o.imageHeight)
    && var k := 1.0 / Max(Max(o.imageWidth, o.imageHeight), 1.0);
       k > MIN_DENOMINATOR && o.imageWidth * k * (o.imageHeight * k) * k >= MIN_NORMALIZED_DETERMINANT
  }

  /** The identity, that is no calibration: it is recognised as such outside pixel space. In pixel
      space it is refused exactly for odd picture sizes. */
  lemma IdentityIsRefused(m: Matrix, o: Options)
    requires IsDiagonal(m, 1.0, 1.0, 1.0)
    ensures !o.pixelSpace && BoundsAreOk(o) ==> Constructed(m, o) == Failure(IdentityMatrix)
    ensures Constructed(m, o).Success? <==> BoundsAreOk(o) && HidesMissingCalibration(o)
    ensures Constructed(m, o).Success? ==> Constructed(m, o).matrix[6] == 0.0 && Constructed(m, o).matrix[7] == 0.0
                                           && Constructed(m, o).matrix[8] > MIN_DENOMINATOR
  {
    UncalibratedInImage(m, o);
    if !o.pixelSpace {
      DiagonalNormalized(m, 1.0, 1.0, 1.0, 1.0, 1.0);
    } else if o.imageWidth > 0.0 && o.imageHeight > 0.0 {
      var d := Max(Max(o.imageWidth, o.imageHeight), 1.0);
      var k := 1.0 / d;
      DiagonalNormalized(InImage(m, o), o.imageWidth, o.imageHeight, d, k, o.imageWidth * k * (o.imageHeight * k) * k);
      PixelOutcome(Normalized(InImage(m, o)), o, k);
    }
  }

  lemma PixelOutcome(r: Result, o: Options, k: real)
    requires o.pixelSpace && o.imageWidth > 0.0 && o.imageHeight > 0.0
    requires k == 1.0 / Max(Max(o.imageWidth, o.imageHeight), 1.0)
    requires Outcome(r, o.imageWidth, o.imageHeight, k, o.imageWidth * k * (o.imageHeight * k) * k)
    ensures r.Success? <==> HidesMissingCalibration(o)
    ensures r.Success? ==> r.matrix[6] == 0.0 && r.matrix[7] == 0.0 && r.matrix[8] > MIN_DENOMINATOR
  {}

  function Identity(): Matrix { [1.0, 0.0, 0.0, 0.0, 1.0, 0.0, 0.0, 0.0, 1.0] }

  /** The same for every non-zero multiple of the identity. */
  lemma UncalibratedIsRefused(c: real, o: Options)
    requires c != 0.0
    ensures !o.pixelSpace && BoundsAreOk(o) ==> Constructed(Scaled(Identity(), c), o) == Failure(IdentityMatrix)
    ensures Constructed(Scaled(Identity(), c), o).Success? <==> BoundsAreOk(o) && HidesMissingCalibration(o)
  {
    ScaledIsMultiple(Identity(), c);
    ScaleDoesNotMatter(Identity(), Scaled(Identity(), c), c, o);
    IdentityIsRefused(Identity(), o);
  }

  /** Where it is accepted, the ground position of a point is its pixel. */
  lemma UncalibratedMapsToPixels(c: real, o: Options, u: real, v: real)
    requires c != 0.0 && Constructed(Scaled(Identity(), c), o).Success? && InUnitSquare(u, v)
    ensures var p := Point(o.imageWidth * u, o.imageHeight * v);
            ToLocal(Constructed(Scaled(Identity(), c), o).matrix, o, u, v) == if InBounds(p, o) then Some(p) else None
  {
    ScaledIsMultiple(Identity(), c);
    ScaleDoesNotMatter(Identity(), Scaled(Identity(), c), c, o);
    IdentityIsRefused(Identity(), o);
    MapsByCalibration(Identity(), o, u, v);
    IdentityImage(Identity(), o.imageWidth * u, o.imageHeight * v);
    FlatDenominator(Constructed(Identity(), o).matrix, u, v);
  }

  lemma FlatDenominator(m: Matrix, u: real, v: real)
    requires m[6] == 0.0 && m[7] == 0.0
    ensures Denominator(m, u, v) == m[8]
  {}

  lemma IdentityImage(m: Matrix, x: real, y: real)
    requires IsDiagonal(m, 1.0, 1.0, 1.0)
    ensures Denominator(m, x, y) == 1.0 && Image(m, x, y) == Point(x, y)
  {}

  lemma AtLeastProduct(x: real, a: real, y: real, b: real)
    requires x >= a && a >= 0.0 && y >= b && b >= 0.0
    ensures x * y >= a * b
  {
    Nonneg(x - a, y);
    Nonneg(a, y - b);
    assert x * y - a * b == (x - a) * y + a * (y - b);
  }

  lemma InverseAtLeast(d: real, bound: real)
    requires 0.0 < d <= bound
    ensures 1.0 / d >= 1.0 / bound
  {
    var k, b := 1.0 / d, 1.0 / bound;
    assert k * d == 1.0 && b * bound == 1.0;
    assert b * bound - k * d == d * (b - k) + (bound - d) * b;
    Nonneg(bound - d, b);
    if k < b { PositiveProduct(d, b - k); }
  }

  /** Every picture of 2 to 8192 pixels in each direction lets it through. */
  lemma OrdinaryPicturesHideIt(o: Options)
    requires o.pixelSpace && 2.0 <= o.imageWidth <= 8192.0 && 2.0 <= o.imageHeight <= 8192.0
    ensures HidesMissingCalibration(o)
  {
    var d := Max(Max(o.imageWidth, o.imageHeight), 1.0);
    var k, least := 1.0 / d, 1.0 / 8192.0;
    InverseAtLeast(d, 8192.0);
    AtLeastProduct(o.imageWidth, 2.0, k, least);
    AtLeastProduct(o.imageHeight, 2.0, k, least);
    var x, y := o.imageWidth * k, o.imageHeight * k;
    AtLeastProduct(x, 2.0 * least, y, 2.0 * least);
    AtLeastProduct(x * y, 2.0 * least * (2.0 * least), k, least);
    assert 2.0 * least * (2.0 * least) * least >= MIN_NORMALIZED_DETERMINANT;
  }

  /** A 2000 x 1000 picture without calibration: the middle is taken to be a kilometre away. */
  lemma UncalibratedPictureIsAccepted()
    ensures var o := Options(true, 2000.0, 1000.0, false, 0.0, 0.0, 0.0, 0.0);
            && Constructed(Scaled(Identity(), 1.0), o).Success?
            && ToLocal(Constructed(Scaled(Identity(), 1.0), o).matrix, o, 0.5, 0.5) == Some(Point(1000.0, 500.0))
  {
    var o := Options(true, 2000.0, 1000.0, false, 0.0, 0.0, 0.0, 0.0);
    assert 1.0 / 2000.0 == 0.0005;
    UncalibratedIsRefused(1.0, o);
    UncalibratedMapsToPixels(1.0, o, 0.5, 0.5);
  }

  // ---------- injectivity ----------

  function Det3(p: real, q: real, r: real, s: real, t: real, w: real, x: real, y: real, z: real): real {
    p * (t * z - w * y) - q * (s * z - w * x) + r * (s * y - t * x)
  }

  /** Cramer's rule: the determinant times the first unknown is a combination of the three rows. */
  lemma Cramer(p: real, q: real, r: real, s: real, t: real, w: real, x: real, y: real, z: real, a: real, b: real,
               c: real)
    ensures Det3(p, q, r, s, t, w, x, y, z) * a
         == (t * z - w * y) * (p * a + q * b + r * c) - (q * z - r * y) * (s * a + t * b + w * c)
            + (q * w - r * t) * (x * a + y * b + z * c)
  {}

  lemma FirstIsZero(p: real, q: real, r: real, s: real, t: real, w: real, x: real, y: real, z: real, a: real, b: real,
                    c: real)
    requires p * a + q * b + r * c == 0.0 && s * a + t * b + w * c == 0.0 && x * a + y * b + z * c == 0.0
    requires Det3(p, q, r, s, t, w, x, y, z) != 0.0
    ensures a == 0.0
  {
    Cramer(p, q, r, s, t, w, x, y, z, a, b, c);
    if a != 0.0 { NonZeroProduct(Det3(p, q, r, s, t, w, x, y, z), a); }
  }

  lemma Rotated(p: real, q: real, r: real, s: real, t: real, w: real, x: real, y: real, z: real)
    ensures Det3(q, r, p, t, w, s, y, z, x) == Det3(p, q, r, s, t, w, x, y, z)
    ensures Det3(r, p, q, w, s, t, z, x, y) == Det3(p, q, r, s, t, w, x, y, z)
  {}

  /** A vector that a regular matrix maps to zero is zero. */
  lemma KernelIsZero(m: Matrix, a: real, b: real, c: real)
    requires m[0] * a + m[1] * b + m[2] * c == 0.0
    requires m[3] * a + m[4] * b + m[5] * c == 0.0
    requires m[6] * a + m[7] * b + m[8] * c == 0.0
    requires Determinant(m) != 0.0
    ensures a == 0.0 && b == 0.0 && c == 0.0
  {
    Rotated(m[0], m[1], m[2], m[3], m[4], m[5], m[6], m[7], m[8]);
    FirstIsZero(m[0], m[1], m[2], m[3], m[4], m[5], m[6], m[7], m[8], a, b, c);
    FirstIsZero(m[1], m[2], m[0], m[4], m[5], m[3], m[7], m[8], m[6], b, c, a);
    FirstIsZero(m[2], m[0], m[1], m[5], m[3], m[4], m[8], m[6], m[7], c, a, b);
  }

  lemma FromImage(n: real, d: real, x: real)
    requires d != 0.0 && n / d == x
    ensures n == x * d
  {}

  lemma Proportional(d: real, u: real, u': real)
    requires d > 0.0 && d * u - d * u' == 0.0
    ensures u == u'
  {
    if u != u' { NonZeroProduct(d, u - u'); }
  }

  /** Both points lie on the same ray from the camera, hence differ by a kernel vector. */
  lemma SameRay(m: Matrix, u: real, v: real, u': real, v': real, d: real, d': real, p: Point)
    requires Determinant(m) != 0.0
    requires d == Denominator(m, u, v) && d' == Denominator(m, u', v')
    requires NumeratorX(m, u, v) == p.x * d && NumeratorY(m, u, v) == p.y * d
    requires NumeratorX(m, u', v') == p.x * d' && NumeratorY(m, u', v') == p.y * d'
    ensures d' * u - d * u' == 0.0 && d' * v - d * v' == 0.0 && d' - d == 0.0
  {
    var a, b, c := d' * u - d * u', d' * v - d * v', d' - d;
    KernelX(m, u, v, u', v', d, d', p.x, a, b, c);
    KernelY(m, u, v, u', v', d, d', p.y, a, b, c);
    KernelDenominator(m, u, v, u', v', d, d', a, b, c);
    KernelIsZero(m, a, b, c);
  }

  lemma KernelX(m: Matrix, u: real, v: real, u': real, v': real, d: real, d': real, x: real, a: real, b: real, c: real)
    requires NumeratorX(m, u, v) == x * d && NumeratorX(m, u', v') == x * d'
    requires a == d' * u - d * u' && b == d' * v - d * v' && c == d' - d
    ensures m[0] * a + m[1] * b + m[2] * c == 0.0
  {}

  lemma KernelY(m: Matrix, u: real, v: real, u': real, v': real, d: real, d': real, y: real, a: real, b: real, c: real)
    requires NumeratorY(m, u, v) == y * d && NumeratorY(m, u', v') == y * d'
    requires a == d' * u - d * u' && b == d' * v - d * v' && c == d' - d
    ensures m[3] * a + m[4] * b + m[5] * c == 0.0
  {}

  lemma KernelDenominator(m: Matrix, u: real, v: real, u': real, v': real, d: real, d': real, a: real, b: real, c: real)
    requires Denominator(m, u, v) == d && Denominator(m, u', v') == d'
    requires a == d' * u - d * u' && b == d' * v - d * v' && c == d' - d
    ensures m[6] * a + m[7] * b + m[8] * c == 0.0
  {}

  /** Two accepted points with the same ground position are the same point. */
  lemma Injective(m: Matrix, o: Options, u: real, v: real, u': real, v': real)
    requires Determinant(m) != 0.0
    requires ToLocal(m, o, u, v).Some? && ToLocal(m, o, u', v') == ToLocal(m, o, u, v)
    ensures u == u' && v == v'
  {
    var d, d', p := Denominator(m, u, v), Denominator(m, u', v'), Image(m, u, v);
    FromImage(NumeratorX(m, u, v), d, p.x);
    FromImage(NumeratorY(m, u, v), d, p.y);
    FromImage(NumeratorX(m, u', v'), d', p.x);
    FromImage(NumeratorY(m, u', v'), d', p.y);
    SameRay(m, u, v, u', v', d, d', p);
    Proportional(d, u, u');
    Proportional(d, v, v');
  }

  /** Every accepted construction is injective. */
  lemma ConstructedIsInjective(m: Matrix, o: Options, u: real, v: real, u': real, v': real)
    requires Constructed(m, o).Success?
    requires var n := Constructed(m, o).matrix;
      ToLocal(n, o, u, v).Some? && ToLocal(n, o, u', v') == ToLocal(n, o, u, v)
    ensures u == u' && v == v'
  {
    var k := KeptIsMultiple(m, o);
    Injective(Constructed(m, o).matrix, o, u, v, u', v');
  }

  // ---------- segments ----------

  function Between(x: real, y: real, t: real): real { (1.0 - t) * x + t * y }

  lemma BetweenStays(x: real, y: real, t: real, lo: real, hi: real)
    requires 0.0 <= t <= 1.0 && lo <= x <= hi && lo <= y <= hi
    ensures lo <= Between(x, y, t) <= hi
  {
    Nonneg(1.0 - t, x - lo);
    Nonneg(t, y - lo);
    Nonneg(1.0 - t, hi - x);
    Nonneg(t, hi - y);
  }

  lemma BetweenAbove(x: real, y: real, t: real, bound: real)
    requires 0.0 <= t <= 1.0 && x > bound && y > bound
    ensures Between(x, y, t) > bound
  {
    var lo := Min(x, y);
    Nonneg(1.0 - t, x - lo);
    Nonneg(t, y - lo);
    assert Between(x, y, t) == lo + (1.0 - t) * (x - lo) + t * (y - lo);
  }

  /** Weights of a projective segment: numerators and denominators are mixed alike. */
  lemma MixedQuotient(n: real, n': real, d: real, d': real, t: real) returns (s: real)
    requires 0.0 <= t <= 1.0 && d > 0.0 && d' > 0.0 && Between(d, d', t) > 0.0
    ensures s == t * d' / Between(d, d', t) && 0.0 <= s <= 1.0
    ensures Between(n, n', t) / Between(d, d', t) == Between(n / d, n' / d', s)
  {
    var e := Between(d, d', t);
    s := t * d' / e;
    assert s * e == t * d';
    assert (1.0 - s) * e == (1.0 - t) * d;
    Nonneg(t, d'); Nonneg(1.0 - t, d);
    QuotientSign(t * d', e); QuotientSign((1.0 - t) * d, e);
    Quotient((1.0 - t) * d, e, 1.0 - s);
    MixedValue(n, d, s, e, t, n', d');
    Quotient(Between(n, n', t), e, Between(n / d, n' / d', s));
  }

  lemma QuotientSign(n: real, d: real)
    requires n >= 0.0 && d > 0.0
    ensures n / d >= 0.0
  {}

  lemma MixedValue(n: real, d: real, s: real, e: real, t: real, n': real, d': real)
    requires d > 0.0 && d' > 0.0 && s * e == t * d' && (1.0 - s) * e == (1.0 - t) * d
    ensures Between(n / d, n' / d', s) * e == Between(n, n', t)
  {
    var q, q' := n / d, n' / d';
    assert q * d == n && q' * d' == n';
    var left, right := (1.0 - s) * e, s * e;
    assert Between(q, q', s) * e == q * left + q' * right;
    Associate2(q, d, 1.0 - t, left);
    Associate2(q', d', t, right);
  }

  lemma Associate2(q: real, d: real, t: real, td: real)
    requires td == t * d
    ensures q * td == t * (q * d)
  {}

  lemma DenominatorBetween(m: Matrix, u: real, v: real, u': real, v': real, t: real)
    ensures Denominator(m, Between(u, u', t), Between(v, v', t))
      == Between(Denominator(m, u, v), Denominator(m, u', v'), t)
  {}

  lemma NumeratorsBetween(m: Matrix, u: real, v: real, u': real, v': real, t: real)
    ensures NumeratorX(m, Between(u, u', t), Between(v, v', t))
      == Between(NumeratorX(m, u, v), NumeratorX(m, u', v'), t)
    ensures NumeratorY(m, Between(u, u', t), Between(v, v', t))
      == Between(NumeratorY(m, u, v), NumeratorY(m, u', v'), t)
  {}

  lemma ImageBetween(m: Matrix, u: real, v: real, u': real, v': real, t: real) returns (s: real)
    requires 0.0 <= t <= 1.0 && Denominator(m, u, v) > MIN_DENOMINATOR && Denominator(m, u', v') > MIN_DENOMINATOR
    ensures 0.0 <= s <= 1.0 && Denominator(m, Between(u, u', t), Between(v, v', t)) > MIN_DENOMINATOR
    ensures var p, q := Image(m, u, v), Image(m, u', v');
            Image(m, Between(u, u', t), Between(v, v', t)) == Point(Between(p.x, q.x, s), Between(p.y, q.y, s))
  {
    var d, d' := Denominator(m, u, v), Denominator(m, u', v');
    BetweenAbove(d, d', t, MIN_DENOMINATOR);
    DenominatorBetween(m, u, v, u', v', t);
    NumeratorsBetween(m, u, v, u', v', t);
    s := MixedQuotient(NumeratorX(m, u, v), NumeratorX(m, u', v'), d, d', t);
    var s' := MixedQuotient(NumeratorY(m, u, v), NumeratorY(m, u', v'), d, d', t);
  }

  /** Every point between two accepted points is accepted, bounds or not, and maps to a point
      between their images. */
  lemma SegmentsMapToSegments(m: Matrix, o: Options, u: real, v: real, u': real, v': real, t: real) returns (s: real)
    requires 0.0 <= t <= 1.0 && ToLocal(m, o, u, v).Some? && ToLocal(m, o, u', v').Some?
    ensures 0.0 <= s <= 1.0
    ensures var p, q := ToLocal(m, o, u, v).value, ToLocal(m, o, u', v').value;
            ToLocal(m, o, Between(u, u', t), Between(v, v', t))
              == Some(Point(Between(p.x, q.x, s), Between(p.y, q.y, s)))
  {
    BetweenStays(u, u', t, 0.0, 1.0);
    BetweenStays(v, v', t, 0.0, 1.0);
    s := ImageBetween(m, u, v, u', v', t);
    if o.boundsEnabled {
      BetweenStays(Image(m, u, v).x, Image(m, u', v').x, s, o.minX, o.maxX);
      BetweenStays(Image(m, u, v).y, Image(m, u', v').y, s, o.minY, o.maxY);
    }
  }
}
