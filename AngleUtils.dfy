/**
 * Planar geometry over pose landmarks: the angle a joint makes at a vertex and
 * the distance between two joints. Both read only `x` and `y`.
 *
 * The host runtime's `Math.sqrt`, `Math.acos` and `Math.PI` are not computable
 * over the reals, so they are a parameter `math: MathLib`; `Lawful(math)` states
 * the laws the proofs rely on, and only the lemmas that need them require it.
 */
module AngleUtils {
  import opened Optional

  /** A detected body joint, in the detector's unit coordinate space. */
  datatype Landmark = Landmark(x: real, y: real, z: real)

  // Positions in a landmark frame (the detector's 33-point body numbering).
  const NOSE := 0
  const LEFT_SHOULDER := 11
  const RIGHT_SHOULDER := 12
  const LEFT_ELBOW := 13
  const RIGHT_ELBOW := 14
  const LEFT_WRIST := 15
  const RIGHT_WRIST := 16
  const LEFT_HIP := 23
  const RIGHT_HIP := 24
  const LEFT_KNEE := 25
  const RIGHT_KNEE := 26
  const LEFT_ANKLE := 27
  const RIGHT_ANKLE := 28
  const LEFT_HEEL := 29
  const RIGHT_HEEL := 30
  const LEFT_FOOT_INDEX := 31
  const RIGHT_FOOT_INDEX := 32

  type PositiveReal = r: real | r > 0.0 witness 1.0

  /** Square root, arc cosine (in radians) and pi, as supplied by the runtime. */
  datatype MathLib = MathLib(sqrt: real -> real, acos: real -> real, pi: PositiveReal)

  /** At `x`, `sqrt` gives the non-negative square root. */
  ghost predicate SqrtLaw(math: MathLib, x: real) {
    x >= 0.0 ==> math.sqrt(x) >= 0.0 && math.sqrt(x) * math.sqrt(x) == x
  }

  /** At `x`, `acos` maps the cosine range [-1, 1] into [0, pi]. */
  ghost predicate AcosLaw(math: MathLib, x: real) {
    -1.0 <= x <= 1.0 ==> 0.0 <= math.acos(x) <= math.pi
  }

  /** The laws of the real square root and arc cosine that the proofs use. */
  ghost predicate Lawful(math: MathLib) {
    (forall x: real :: SqrtLaw(math, x)) && (forall x: real :: AcosLaw(math, x))
  }

  /** At `x`, a non-positive cosine gives at least a right angle. */
  ghost predicate AcosObtuseAt(math: MathLib, x: real) {
    -1.0 <= x <= 0.0 ==> math.acos(x) >= math.pi / 2.0
  }

  /** Two further laws of the real arc cosine, required only where stated. */
  ghost predicate AcosObtuse(math: MathLib) {
    forall x: real :: AcosObtuseAt(math, x)
  }

  ghost predicate AcosOfOneIsZero(math: MathLib) {
    math.acos(1.0) == 0.0
  }

  /** A planar vector. */
  datatype Vector = Vector(x: real, y: real)

  /** The planar vector from `from` to `to`; `z` is dropped. */
  function Between(from: Landmark, to: Landmark): Vector {
    Vector(to.x - from.x, to.y - from.y)
  }

  function Dot(u: Vector, v: Vector): real {
    u.x * v.x + u.y * v.y
  }

  function Magnitude(math: MathLib, v: Vector): real {
    math.sqrt(Dot(v, v))
  }

  /** `Math.max(-1, Math.min(1, c))`. */
  function Clamp(c: real): (r: real)
    ensures -1.0 <= r <= 1.0
    ensures -1.0 <= c <= 1.0 ==> r == c
    ensures c > 1.0 ==> r == 1.0
    ensures c < -1.0 ==> r == -1.0
  {
    var upper := if 1.0 < c then 1.0 else c;
    if -1.0 > upper then -1.0 else upper
  }

  /**
   * The clamped cosine `dotProduct / (magnitude1 * magnitude2)`, or None when
   * either magnitude is zero.
   */
  function CosineOf(dotProduct: real, magnitude1: real, magnitude2: real): (r: Option<real>)
    ensures r.Some? ==> -1.0 <= r.value <= 1.0
  {
    if magnitude1 == 0.0 || magnitude2 == 0.0 then None
    else Some(Clamp(dotProduct / (magnitude1 * magnitude2)))
  }

  /**
   * The clamped cosine that `calculateAngle` hands to `acos`, or None when one
   * of the two vectors has magnitude zero and the function returns early.
   */
  function CosineAt(math: MathLib, a: Landmark, b: Landmark, c: Landmark): Option<real> {
    CosineOf(Dot(Between(b, a), Between(b, c)), Magnitude(math, Between(b, a)), Magnitude(math, Between(b, c)))
  }

  /** The angle a-b-c in degrees, with `b` the vertex; 0 for a degenerate vector. */
  function CalculateAngle(math: MathLib, a: Landmark, b: Landmark, c: Landmark): real {
    match CosineAt(math, a, b, c)
    case None => 0.0
    case Some(cosAngle) => math.acos(cosAngle) * (180.0 / math.pi)
  }

  /** The planar Euclidean distance between `a` and `b`. */
  function CalculateDistance(math: MathLib, a: Landmark, b: Landmark): real {
    Magnitude(math, Between(b, a))
  }

  /** Two landmarks that project to the same point of the plane. */
  predicate SamePlanarPoint(p: Landmark, q: Landmark) {
    p.x == q.x && p.y == q.y
  }

  // ---------------------------------------------------------------------------
  // Facts about the square root and squared lengths

  lemma ProductZero(p: real, q: real)
    requires p * q == 0.0
    ensures p == 0.0 || q == 0.0
  {
  }

  lemma SquareNonNegative(r: real)
    ensures r * r >= 0.0
    ensures r * r == 0.0 ==> r == 0.0
  {
    if r * r == 0.0 {
      ProductZero(r, r);
    }
    if r < 0.0 {
      assert r * r == (-r) * (-r);
    }
  }

  lemma SquaredLength(v: Vector)
    ensures Dot(v, v) >= 0.0
    ensures Dot(v, v) == 0.0 <==> v == Vector(0.0, 0.0)
  {
    SquareNonNegative(v.x);
    SquareNonNegative(v.y);
  }

  lemma SqrtZeroIff(math: MathLib, x: real)
    requires Lawful(math) && x >= 0.0
    ensures math.sqrt(x) >= 0.0
    ensures math.sqrt(x) == 0.0 <==> x == 0.0
  {
    assert SqrtLaw(math, x);
    SquareNonNegative(math.sqrt(x));
  }

  /** The square root of a perfect square is its non-negative root. */
  lemma SqrtOfSquare(math: MathLib, r: real)
    requires Lawful(math) && r >= 0.0
    ensures math.sqrt(r * r) == r
  {
    var s := math.sqrt(r * r);
    assert SqrtLaw(math, r * r);
    assert (s - r) * (s + r) == s * s - r * r;
    ProductZero(s - r, s + r);
  }

  /** A vector has magnitude zero exactly when it is the zero vector. */
  lemma MagnitudeZeroIff(math: MathLib, v: Vector)
    requires Lawful(math)
    ensures Magnitude(math, v) >= 0.0
    ensures Magnitude(math, v) == 0.0 <==> v == Vector(0.0, 0.0)
  {
    SquaredLength(v);
    SqrtZeroIff(math, Dot(v, v));
  }

  // ---------------------------------------------------------------------------
  // calculateAngle

  /**
   * The zero-magnitude guard fires exactly when `a` or `c` coincides with the
   * vertex `b` in the plane, and the angle is then exactly 0.
   */
  lemma DegenerateIffCoincident(math: MathLib, a: Landmark, b: Landmark, c: Landmark)
    requires Lawful(math)
    ensures CosineAt(math, a, b, c).None? <==> SamePlanarPoint(a, b) || SamePlanarPoint(c, b)
    ensures SamePlanarPoint(a, b) || SamePlanarPoint(c, b) ==> CalculateAngle(math, a, b, c) == 0.0
  {
    MagnitudeZeroIff(math, Between(b, a));
    MagnitudeZeroIff(math, Between(b, c));
  }

  /** The degenerate triple (1,1), (1,1), (2,2), at any depths, gives exactly 0. */
  lemma CoincidentTriple(math: MathLib, a: Landmark, b: Landmark, c: Landmark)
    requires Lawful(math)
    requires a.x == 1.0 && a.y == 1.0 && b.x == 1.0 && b.y == 1.0 && c.x == 2.0 && c.y == 2.0
    ensures CalculateAngle(math, a, b, c) == 0.0
  {
    assert SamePlanarPoint(a, b);
    DegenerateIffCoincident(math, a, b, c);
  }

  lemma MulPositive(p: real, q: real)
    requires p > 0.0 && q > 0.0
    ensures p * q > 0.0
  {
  }

  /** Cauchy-Schwarz in the plane, via Lagrange's identity. */
  lemma CauchySchwarz(v1: Vector, v2: Vector)
    ensures Dot(v1, v2) * Dot(v1, v2) <= Dot(v1, v1) * Dot(v2, v2)
  {
    var cross := v1.x * v2.y - v1.y * v2.x;
    assert Dot(v1, v1) * Dot(v2, v2) == Dot(v1, v2) * Dot(v1, v2) + cross * cross;
    SquareNonNegative(cross);
  }

  /** A number whose square is at most `m * m` lies in [-m, m]. */
  lemma BoundedBySquare(d: real, m: real)
    requires m > 0.0 && d * d <= m * m
    ensures -m <= d <= m
  {
    if d > m {
      assert (d - m) * (d + m) == d * d - m * m;
      MulPositive(d - m, d + m);
    } else if d < -m {
      assert (-m - d) * (m - d) == d * d - m * m;
      MulPositive(-m - d, m - d);
    }
  }

  /** Dividing a number in [-m, m] by `m` lands in [-1, 1]. */
  lemma RatioInUnitRange(d: real, m: real)
    requires m > 0.0 && -m <= d <= m
    ensures -1.0 <= d / m <= 1.0
    ensures (d / m) * m == d
  {
  }

  /** The product of two square roots squares to the product of the squares. */
  lemma MagnitudeProduct(math: MathLib, v1: Vector, v2: Vector)
    requires Lawful(math)
    ensures var m := Magnitude(math, v1) * Magnitude(math, v2);
            m * m == Dot(v1, v1) * Dot(v2, v2)
  {
    SquaredLength(v1);
    SquaredLength(v2);
    assert SqrtLaw(math, Dot(v1, v1)) && SqrtLaw(math, Dot(v2, v2));
    var m1, m2 := Magnitude(math, v1), Magnitude(math, v2);
    assert (m1 * m2) * (m1 * m2) == (m1 * m1) * (m2 * m2);
  }

  /**
   * Over the reals the ratio handed to the clamp already lies in [-1, 1]
   * (Cauchy-Schwarz), so the clamp only absorbs floating-point drift: the
   * cosine times the product of the magnitudes is exactly the dot product.
   */
  lemma ClampIsExactOverReals(math: MathLib, a: Landmark, b: Landmark, c: Landmark)
    requires Lawful(math)
    requires !SamePlanarPoint(a, b) && !SamePlanarPoint(c, b)
    ensures CosineAt(math, a, b, c).Some?
    ensures CosineAt(math, a, b, c).value * (Magnitude(math, Between(b, a)) * Magnitude(math, Between(b, c)))
            == Dot(Between(b, a), Between(b, c))
  {
    var v1, v2 := Between(b, a), Between(b, c);
    MagnitudeZeroIff(math, v1);
    MagnitudeZeroIff(math, v2);
    var m := Magnitude(math, v1) * Magnitude(math, v2);
    var d := Dot(v1, v2);
    MulPositive(Magnitude(math, v1), Magnitude(math, v2));
    MagnitudeProduct(math, v1, v2);
    CauchySchwarz(v1, v2);
    BoundedBySquare(d, m);
    RatioInUnitRange(d, m);
  }

  /** The angle always lies in [0, 180] degrees. */
  lemma AngleInRange(math: MathLib, a: Landmark, b: Landmark, c: Landmark)
    requires Lawful(math)
    ensures 0.0 <= CalculateAngle(math, a, b, c) <= 180.0
  {
    match CosineAt(math, a, b, c)
    case None =>
    case Some(cosAngle) =>
      var rad := math.acos(cosAngle);
      var k := 180.0 / math.pi;
      assert AcosLaw(math, cosAngle);
      assert k > 0.0 && math.pi * k == 180.0;
      assert rad * k <= math.pi * k;
  }

  /** Swapping the two outer points leaves the angle unchanged. */
  lemma AngleSymmetric(math: MathLib, a: Landmark, b: Landmark, c: Landmark)
    ensures CosineAt(math, a, b, c) == CosineAt(math, c, b, a)
    ensures CalculateAngle(math, a, b, c) == CalculateAngle(math, c, b, a)
  {
  }

  /** The angle does not depend on any point's `z`. */
  lemma AngleIgnoresZ(math: MathLib, a: Landmark, b: Landmark, c: Landmark, za: real, zb: real, zc: real)
    ensures CalculateAngle(math, a.(z := za), b.(z := zb), c.(z := zc)) == CalculateAngle(math, a, b, c)
  {
  }

  /** A vector of squared length 1 has magnitude exactly 1. */
  lemma UnitMagnitude(math: MathLib, v: Vector)
    requires Lawful(math) && Dot(v, v) == 1.0
    ensures Magnitude(math, v) == 1.0
  {
    SqrtOfSquare(math, 1.0);
  }

  /** A vector along the `y` axis, pointing to larger `y`, has magnitude its `y`. */
  lemma VerticalMagnitude(math: MathLib, v: Vector)
    requires Lawful(math) && v.x == 0.0 && v.y > 0.0
    ensures Magnitude(math, v) == v.y
  {
    var r := v.y;
    SqrtOfSquare(math, r);
    assert math.sqrt(r * r) == r;
    assert Dot(v, v) == r * r;
  }

  /** When both vectors at the vertex have length 1, the cosine is their dot product. */
  lemma CosineOfUnitVectors(math: MathLib, a: Landmark, b: Landmark, c: Landmark)
    requires Lawful(math)
    requires Dot(Between(b, a), Between(b, a)) == 1.0 && Dot(Between(b, c), Between(b, c)) == 1.0
    ensures CosineAt(math, a, b, c) == Some(Clamp(Dot(Between(b, a), Between(b, c))))
  {
    UnitMagnitude(math, Between(b, a));
    UnitMagnitude(math, Between(b, c));
  }

  /** (0,0), (0,1), (1,1), at any depths: the cosine handed to acos is exactly 0 (a right angle). */
  lemma RightAngleCosine(math: MathLib, a: Landmark, b: Landmark, c: Landmark)
    requires Lawful(math)
    requires a.x == 0.0 && a.y == 0.0 && b.x == 0.0 && b.y == 1.0 && c.x == 1.0 && c.y == 1.0
    ensures CosineAt(math, a, b, c) == Some(0.0)
  {
    assert Between(b, a) == Vector(0.0, -1.0) && Between(b, c) == Vector(1.0, 0.0);
    CosineOfUnitVectors(math, a, b, c);
  }

  /** (0,0), (0,1), (0,2), at any depths: the cosine handed to acos is exactly -1 (a straight line). */
  lemma StraightAngleCosine(math: MathLib, a: Landmark, b: Landmark, c: Landmark)
    requires Lawful(math)
    requires a.x == 0.0 && a.y == 0.0 && b.x == 0.0 && b.y == 1.0 && c.x == 0.0 && c.y == 2.0
    ensures CosineAt(math, a, b, c) == Some(-1.0)
  {
    assert Between(b, a) == Vector(0.0, -1.0) && Between(b, c) == Vector(0.0, 1.0);
    CosineOfUnitVectors(math, a, b, c);
  }

  // ---------------------------------------------------------------------------
  // calculateDistance

  /** The distance is non-negative, and zero exactly for coincident planar points. */
  lemma DistanceNonNegative(math: MathLib, a: Landmark, b: Landmark)
    requires Lawful(math)
    ensures CalculateDistance(math, a, b) >= 0.0
    ensures CalculateDistance(math, a, b) == 0.0 <==> SamePlanarPoint(a, b)
  {
    MagnitudeZeroIff(math, Between(b, a));
  }

  /** The distance is symmetric in its arguments. */
  lemma DistanceSymmetric(math: MathLib, a: Landmark, b: Landmark)
    ensures CalculateDistance(math, a, b) == CalculateDistance(math, b, a)
  {
    var u, v := Between(b, a), Between(a, b);
    assert v == Vector(-u.x, -u.y);
    assert u.x * u.x == (-u.x) * (-u.x);
    assert u.y * u.y == (-u.y) * (-u.y);
    assert Dot(u, u) == Dot(v, v);
  }

  /** The distance does not depend on either point's `z`. */
  lemma DistanceIgnoresZ(math: MathLib, a: Landmark, b: Landmark, za: real, zb: real)
    ensures CalculateDistance(math, a.(z := za), b.(z := zb)) == CalculateDistance(math, a, b)
  {
  }

  /** (0,0) to (3,4), at any depths, is exactly 5. */
  lemma DistanceThreeFour(math: MathLib, a: Landmark, b: Landmark)
    requires Lawful(math)
    requires a.x == 0.0 && a.y == 0.0 && b.x == 3.0 && b.y == 4.0
    ensures CalculateDistance(math, a, b) == 5.0
  {
    var v := Between(b, a);
    assert v == Vector(-3.0, -4.0);
    assert Dot(v, v) == 5.0 * 5.0;
    SqrtOfSquare(math, 5.0);
  }
}
