/** The angle calculator (`getAngle`) and the arc that `paintEvent` draws
    between the two rays OA and OB. */
module Angle {
  import opened Shapes

  /** A 2D vector. The overlay only ever measures vectors between two of
      its integer points, so the components are integers. */
  datatype Vec = Vec(x: int, y: int)

  predicate IsZero(v: Vec) {
    v.x == 0 && v.y == 0
  }

  function Neg(v: Vec): Vec {
    Vec(-v.x, -v.y)
  }

  function Dot(u: Vec, v: Vec): int {
    u.x * v.x + u.y * v.y
  }

  /** The squared length, the argument getAngle hands to the square root. */
  function NormSq(v: Vec): (r: int)
    ensures r >= 0
    ensures r == 0 <==> IsZero(v)
  {
    v.x * v.x + v.y * v.y
  }

  /** Lagrange's identity gives the Cauchy-Schwarz inequality. */
  lemma CauchySchwarz(u: Vec, v: Vec)
    ensures Dot(u, v) * Dot(u, v) <= NormSq(u) * NormSq(v)
  {
    var cross := u.x * v.y - u.y * v.x;
    assert NormSq(u) * NormSq(v) == Dot(u, v) * Dot(u, v) + cross * cross;
  }

  /** The two library routines getAngle calls: the square root and the
      arc cosine, the latter already converted to degrees
      (`acos(c) / pi * 180`). They are not computed here; `Sound` states the
      properties of them that the proofs use. */
  datatype MathLib = MathLib(sqrt: real -> real, acosDeg: real -> real)

  /** `m.sqrt` is the exact non-negative square root and `m.acosDeg` is the
      arc cosine in degrees on [-1, 1]: its values lie in [0, 180], it is 0
      only at 1, 180 only at -1, and 90 at 0. */
  ghost predicate Sound(m: MathLib) {
    && (forall x {:trigger IsRoot(m.sqrt(x), x)} :: 0.0 <= x ==> IsRoot(m.sqrt(x), x))
    && (forall c :: -1.0 <= c <= 1.0 ==> 0.0 <= m.acosDeg(c) <= 180.0)
    && (forall c :: -1.0 <= c <= 1.0 ==> (m.acosDeg(c) == 0.0 <==> c == 1.0))
    && (forall c :: -1.0 <= c <= 1.0 ==> (m.acosDeg(c) == 180.0 <==> c == -1.0))
    && m.acosDeg(0.0) == 90.0
  }

  /** s is the non-negative square root of x. */
  predicate IsRoot(s: real, x: real) {
    0.0 <= s && s * s == x
  }

  /** The length of a vector, as getAngle computes it. */
  function Length(m: MathLib, v: Vec): real {
    m.sqrt(NormSq(v) as real)
  }

  /** Both ways getAngle raises ValueError: its own check for a zero-length
      vector, and the domain error of the arc cosine outside [-1, 1]. */
  datatype AngleError = ZeroLength | AcosDomain

  datatype AngleResult = Ok(degrees: real) | Err(error: AngleError)

  /** The cosine getAngle forms: the dot product over the product of the
      two (non-zero) lengths. */
  function Cosine(dot: int, length1: real, length2: real): real
    requires length1 != 0.0 && length2 != 0.0
  {
    dot as real / (length1 * length2)
  }

  /** The unsigned angle between two vectors, in degrees. */
  function GetAngle(m: MathLib, v1: Vec, v2: Vec): AngleResult {
    var length1 := Length(m, v1);
    var length2 := Length(m, v2);
    if length1 == 0.0 || length2 == 0.0 then
      Err(ZeroLength)
    else
      var cos := Cosine(Dot(v1, v2), length1, length2);
      if -1.0 <= cos <= 1.0 then Ok(m.acosDeg(cos)) else Err(AcosDomain)
  }

  // Facts about real numbers, each proved without the library in scope.

  lemma SquareMonotone(a: real, b: real)
    requires 0.0 <= a < b
    ensures a * a < b * b
  {
    var aa, ab, bb := a * a, a * b, b * b;
    assert aa <= ab;
    assert ab < bb;
  }

  /** A non-negative root of n is 0 exactly when n is. */
  lemma RootZero(s: real, n: int)
    requires 0.0 <= s && s * s == n as real
    ensures s == 0.0 <==> n == 0
  {
    if s != 0.0 {
      SquareMonotone(0.0, s);
    }
  }

  /** The non-negative root of a * a is a, for a >= 0. */
  lemma RootOfSquare(s: real, a: real)
    requires 0.0 <= s && 0.0 <= a && s * s == a * a
    ensures s == a
  {
    if s < a {
      SquareMonotone(s, a);
    } else if a < s {
      SquareMonotone(a, s);
    }
  }

  /** b bounds a from both sides once it bounds it in square. */
  lemma AbsFromSquares(a: real, b: real)
    requires 0.0 < b && a * a <= b * b
    ensures -b <= a <= b
  {
    if b < a {
      SquareMonotone(b, a);
    }
    if a < -b {
      SquareMonotone(b, -a);
    }
  }

  /** ... and strictly, once it does so strictly. */
  lemma StrictAbsFromSquares(a: real, b: real)
    requires 0.0 < b && a * a < b * b
    ensures -b < a < b
  {
    if b <= a {
      if b < a {
        SquareMonotone(b, a);
      }
    }
    if a <= -b {
      if a < -b {
        SquareMonotone(b, -a);
      }
    }
  }

  lemma ProductSquare(s1: real, s2: real)
    ensures (s1 * s2) * (s1 * s2) == (s1 * s1) * (s2 * s2)
  {
  }

  lemma ProductPositive(s1: real, s2: real)
    requires 0.0 < s1 && 0.0 < s2
    ensures 0.0 < s1 * s2
  {
  }

  lemma QuotientBounds(a: real, p: real)
    requires 0.0 < p && -p <= a <= p
    ensures -1.0 <= a / p <= 1.0
  {
  }

  /** The quotient getAngle forms from roots s1 and s2 of n1 and n2 lies in
      [-1, 1] whenever d * d <= n1 * n2. */
  lemma CosBound(d: int, n1: int, n2: int, s1: real, s2: real)
    requires 0.0 < s1 && 0.0 < s2
    requires s1 * s1 == n1 as real && s2 * s2 == n2 as real
    requires d * d <= n1 * n2
    ensures -1.0 <= Cosine(d, s1, s2) <= 1.0
  {
    var p := s1 * s2;
    ProductPositive(s1, s2);
    ProductSquare(s1, s2);
    assert p * p == (n1 * n2) as real;
    assert (d as real) * (d as real) == (d * d) as real;
    AbsFromSquares(d as real, p);
    QuotientBounds(d as real, p);
    assert Cosine(d, s1, s2) == d as real / p;
  }

  // Facts about getAngle.

  /** What `Sound` says of the length of one vector. */
  lemma LengthRoot(m: MathLib, v: Vec)
    requires Sound(m)
    ensures 0.0 <= Length(m, v)
    ensures Length(m, v) * Length(m, v) == NormSq(v) as real
  {
    assert IsRoot(m.sqrt(NormSq(v) as real), NormSq(v) as real);
  }

  /** The length of a vector is zero exactly when both components are. */
  lemma LengthZero(m: MathLib, v: Vec)
    requires Sound(m)
    ensures 0.0 <= Length(m, v)
    ensures Length(m, v) == 0.0 <==> IsZero(v)
  {
    LengthRoot(m, v);
    RootZero(Length(m, v), NormSq(v));
  }

  /** With exact arithmetic the cosine of two non-zero vectors lies in
      [-1, 1], so the arc cosine's domain error cannot occur. */
  lemma CosInRange(m: MathLib, v1: Vec, v2: Vec)
    requires Sound(m) && !IsZero(v1) && !IsZero(v2)
    ensures Length(m, v1) != 0.0 && Length(m, v2) != 0.0
    ensures -1.0 <= Cosine(Dot(v1, v2), Length(m, v1), Length(m, v2)) <= 1.0
  {
    LengthZero(m, v1);
    LengthZero(m, v2);
    LengthRoot(m, v1);
    LengthRoot(m, v2);
    CauchySchwarz(v1, v2);
    CosBound(Dot(v1, v2), NormSq(v1), NormSq(v2), Length(m, v1), Length(m, v2));
  }

  /** A vector of length zero makes getAngle raise its own error. */
  lemma ZeroLengthFails(m: MathLib, v1: Vec, v2: Vec)
    requires Length(m, v1) == 0.0 || Length(m, v2) == 0.0
    ensures GetAngle(m, v1, v2) == Err(ZeroLength)
  {
  }

  /** Two non-zero lengths and a cosine in [-1, 1] give an angle. */
  lemma CosineAccepted(m: MathLib, v1: Vec, v2: Vec)
    requires Length(m, v1) != 0.0 && Length(m, v2) != 0.0
    requires -1.0 <= Cosine(Dot(v1, v2), Length(m, v1), Length(m, v2)) <= 1.0
    ensures GetAngle(m, v1, v2) == Ok(m.acosDeg(Cosine(Dot(v1, v2), Length(m, v1), Length(m, v2))))
  {
  }

  /** A zero vector on either side makes getAngle raise its own error. */
  lemma ZeroVectorFails(m: MathLib, v1: Vec, v2: Vec)
    requires Sound(m) && (IsZero(v1) || IsZero(v2))
    ensures GetAngle(m, v1, v2) == Err(ZeroLength)
  {
    if IsZero(v1) {
      LengthZero(m, v1);
    } else {
      LengthZero(m, v2);
    }
    ZeroLengthFails(m, v1, v2);
  }

  /** Two non-zero vectors always give an angle. */
  lemma NonZeroSucceeds(m: MathLib, v1: Vec, v2: Vec)
    requires Sound(m) && !IsZero(v1) && !IsZero(v2)
    ensures GetAngle(m, v1, v2).Ok?
  {
    CosInRange(m, v1, v2);
    CosineAccepted(m, v1, v2);
  }

  /** getAngle fails exactly when one of the vectors has zero length, and
      then only with its own zero-length error. */
  lemma GetAngleFailsOnlyOnZero(m: MathLib, v1: Vec, v2: Vec)
    requires Sound(m)
    ensures GetAngle(m, v1, v2).Err? <==> IsZero(v1) || IsZero(v2)
    ensures GetAngle(m, v1, v2).Err? ==> GetAngle(m, v1, v2).error == ZeroLength
  {
    if IsZero(v1) || IsZero(v2) {
      ZeroVectorFails(m, v1, v2);
    } else {
      NonZeroSucceeds(m, v1, v2);
    }
  }

  /** A computed angle lies in [0, 180]. */
  lemma GetAngleRange(m: MathLib, v1: Vec, v2: Vec)
    requires Sound(m)
    ensures GetAngle(m, v1, v2).Ok? ==> 0.0 <= GetAngle(m, v1, v2).degrees <= 180.0
  {
  }

  /** The angle does not depend on the order of the two vectors. */
  lemma GetAngleSymmetric(m: MathLib, v1: Vec, v2: Vec)
    ensures GetAngle(m, v1, v2) == GetAngle(m, v2, v1)
  {
    var l1, l2 := Length(m, v1), Length(m, v2);
    assert Dot(v1, v2) == Dot(v2, v1);
    assert l1 * l2 == l2 * l1;
  }

  lemma QuotientOfEqual(a: real, p: real)
    requires 0.0 < p && (a == p || a == -p)
    ensures a / p == 1.0 || a / p == -1.0
    ensures a == p ==> a / p == 1.0
    ensures a == -p ==> a / p == -1.0
  {
  }

  /** A non-zero vector makes angle 0 with itself. */
  lemma GetAngleSame(m: MathLib, v: Vec)
    requires Sound(m) && !IsZero(v)
    ensures GetAngle(m, v, v) == Ok(0.0)
  {
    LengthZero(m, v);
    LengthRoot(m, v);
    var l := Length(m, v);
    var p := l * l;
    assert p == Dot(v, v) as real;
    QuotientOfEqual(Dot(v, v) as real, p);
  }

  /** A non-zero vector makes angle 180 with its opposite. */
  lemma GetAngleOpposite(m: MathLib, v: Vec)
    requires Sound(m) && !IsZero(v)
    ensures GetAngle(m, v, Neg(v)) == Ok(180.0)
  {
    LengthZero(m, v);
    LengthRoot(m, v);
    assert NormSq(Neg(v)) == NormSq(v);
    var l := Length(m, v);
    assert Length(m, Neg(v)) == l;
    var p := l * l;
    assert p == -Dot(v, Neg(v)) as real;
    QuotientOfEqual(Dot(v, Neg(v)) as real, p);
  }

  /** Non-zero vectors with dot product 0 make angle 90. */
  lemma GetAngleOrthogonal(m: MathLib, v1: Vec, v2: Vec)
    requires Sound(m) && !IsZero(v1) && !IsZero(v2) && Dot(v1, v2) == 0
    ensures GetAngle(m, v1, v2) == Ok(90.0)
  {
    LengthZero(m, v1);
    LengthZero(m, v2);
    ProductPositive(Length(m, v1), Length(m, v2));
  }

  /** The three sample angles: (1,0) and (0,1) make 90 degrees, (1,0) with
      itself 0, and (1,0) with (-1,0) 180. */
  lemma SampleAngles(m: MathLib)
    requires Sound(m)
    ensures GetAngle(m, Vec(1, 0), Vec(0, 1)) == Ok(90.0)
    ensures GetAngle(m, Vec(1, 0), Vec(1, 0)) == Ok(0.0)
    ensures GetAngle(m, Vec(1, 0), Vec(-1, 0)) == Ok(180.0)
  {
    GetAngleOrthogonal(m, Vec(1, 0), Vec(0, 1));
    GetAngleSame(m, Vec(1, 0));
    GetAngleOpposite(m, Vec(1, 0));
  }

  // ---------------------------------------------------------------------
  // Bearings and the arc drawn in paintEvent
  // ---------------------------------------------------------------------

  /** The vector from o to p with the screen's downward y axis flipped, so
      that it points the mathematical way. */
  function Ray(o: Point, p: Point): Vec {
    Vec(p.x - o.x, o.y - p.y)
  }

  /** Turns the unsigned angle of a ray with the x axis into a bearing
      measured counter-clockwise from the x axis: a ray below or on the
      axis gets 360 minus the angle, unless that angle is 0. */
  function Bearing(v: Vec, angle: real): (r: real)
    ensures r == angle || r == 360.0 - angle
    ensures 0.0 <= angle <= 180.0 ==> 0.0 <= r < 360.0
  {
    if v.y <= 0 && angle != 0.0 then 360.0 - angle else angle
  }

  /** The angles of OA and OB with the x axis; if either getAngle call
      raises, both fall back to 0. */
  function AxisAngles(m: MathLib, o: Point, a: Point, b: Point): (real, real) {
    var ra := GetAngle(m, Ray(o, a), Vec(1, 0));
    var rb := GetAngle(m, Ray(o, b), Vec(1, 0));
    if ra.Ok? && rb.Ok? then (ra.degrees, rb.degrees) else (0.0, 0.0)
  }

  /** The bearings of OA and OB. */
  function Bearings(m: MathLib, o: Point, a: Point, b: Point): (real, real) {
    var (angleA, angleB) := AxisAngles(m, o, a, b);
    (Bearing(Ray(o, a), angleA), Bearing(Ray(o, b), angleB))
  }

  /** An arc: where it starts and how far it sweeps counter-clockwise, both
      in degrees. */
  datatype Arc = Arc(start: real, sweep: real)

  predicate IsBearing(d: real) {
    0.0 <= d < 360.0
  }

  /** x and y name the same direction (they differ by 0 or 360). */
  predicate SameHeading(x: real, y: real) {
    x == y || x == y + 360.0 || y == x + 360.0
  }

  /** The smaller of the two angular gaps between two bearings. */
  function ShorterGap(p: real, q: real): real {
    var d := if q >= p then q - p else p - q;
    if d <= 180.0 then d else 360.0 - d
  }

  /** The four-way split on the bearing difference that chooses the arc.
      For two bearings the arc starts at one of them, sweeps the shorter
      gap between them (never more than 180) and ends on the other one. */
  function ArcBetween(bearingA: real, bearingB: real): (r: Arc)
    ensures r.start == bearingA || r.start == bearingB
    ensures IsBearing(bearingA) && IsBearing(bearingB) ==>
              && 0.0 <= r.sweep <= 180.0
              && r.sweep == ShorterGap(bearingA, bearingB)
              && ((r.start == bearingA && SameHeading(r.start + r.sweep, bearingB))
                  || (r.start == bearingB && SameHeading(r.start + r.sweep, bearingA)))
  {
    var diff := bearingB - bearingA;
    if diff < -180.0 then Arc(bearingA, 360.0 + diff)
    else if diff < 0.0 then Arc(bearingB, -diff)
    else if diff < 180.0 then Arc(bearingA, diff)
    else Arc(bearingB, 360.0 - diff)
  }

  /** Unless the rays are exactly opposite, exchanging A and B draws the
      very same arc. */
  lemma ArcOrderIndependent(bearingA: real, bearingB: real)
    requires IsBearing(bearingA) && IsBearing(bearingB)
    requires bearingB - bearingA != 180.0 && bearingA - bearingB != 180.0
    ensures ArcBetween(bearingA, bearingB) == ArcBetween(bearingB, bearingA)
  {
  }

  /** The arc paintEvent draws for the points O, A and B. */
  function AngleArc(m: MathLib, o: Point, a: Point, b: Point): Arc {
    var (bearingA, bearingB) := Bearings(m, o, a, b);
    ArcBetween(bearingA, bearingB)
  }

  lemma QuotientStrict(a: real, p: real)
    requires 0.0 < p && -p < a < p
    ensures -1.0 < a / p < 1.0
  {
  }

  /** The x axis has length 1. */
  lemma AxisLength(m: MathLib)
    requires Sound(m)
    ensures Length(m, Vec(1, 0)) == 1.0
  {
    LengthRoot(m, Vec(1, 0));
    RootOfSquare(Length(m, Vec(1, 0)), 1.0);
  }

  /** Against the x axis the cosine getAngle forms is x / |v|. */
  lemma AxisCosine(m: MathLib, v: Vec)
    requires Sound(m) && !IsZero(v)
    ensures 0.0 < Length(m, v)
    ensures GetAngle(m, v, Vec(1, 0)) == Ok(m.acosDeg(v.x as real / Length(m, v)))
  {
    AxisLength(m);
    LengthZero(m, v);
    GetAngleFailsOnlyOnZero(m, v, Vec(1, 0));
  }

  /** The bearing convention: a ray strictly above the x axis has a bearing
      in (0, 180), one strictly below it in (180, 360), a ray along the
      positive axis has bearing 0 and one along the negative axis 180. */
  lemma BearingOfRay(m: MathLib, v: Vec)
    requires Sound(m) && !IsZero(v)
    ensures GetAngle(m, v, Vec(1, 0)).Ok?
    ensures var b := Bearing(v, GetAngle(m, v, Vec(1, 0)).degrees);
            && (v.y > 0 ==> 0.0 < b < 180.0)
            && (v.y < 0 ==> 180.0 < b < 360.0)
            && (v.y == 0 && v.x > 0 ==> b == 0.0)
            && (v.y == 0 && v.x < 0 ==> b == 180.0)
  {
    AxisCosine(m, v);
    LengthRoot(m, v);
    var s := Length(m, v);
    var x := v.x as real;
    if v.y != 0 {
      assert v.x * v.x < NormSq(v);
      assert x * x == (v.x * v.x) as real;
      StrictAbsFromSquares(x, s);
      QuotientStrict(x, s);
    } else if v.x > 0 {
      RootOfSquare(s, x);
      QuotientOfEqual(x, s);
    } else {
      RootOfSquare(s, -x);
      QuotientOfEqual(x, s);
    }
  }

  /** Whatever the three points, the arc starts at one of the two bearings,
      sweeps between 0 and 180 degrees and ends on the other bearing. */
  lemma AngleArcWellFormed(m: MathLib, o: Point, a: Point, b: Point)
    requires Sound(m)
    ensures var (bearingA, bearingB) := Bearings(m, o, a, b);
            var arc := AngleArc(m, o, a, b);
            && IsBearing(bearingA) && IsBearing(bearingB)
            && 0.0 <= arc.sweep <= 180.0
            && ((arc.start == bearingA && SameHeading(arc.start + arc.sweep, bearingB))
                || (arc.start == bearingB && SameHeading(arc.start + arc.sweep, bearingA)))
  {
    GetAngleRange(m, Ray(o, a), Vec(1, 0));
    GetAngleRange(m, Ray(o, b), Vec(1, 0));
  }

  /** When either getAngle call raises, both bearings fall back to 0 and
      the arc is empty. */
  lemma FallbackArc(m: MathLib, o: Point, a: Point, b: Point)
    requires GetAngle(m, Ray(o, a), Vec(1, 0)).Err? || GetAngle(m, Ray(o, b), Vec(1, 0)).Err?
    ensures Bearings(m, o, a, b) == (0.0, 0.0)
    ensures AngleArc(m, o, a, b) == Arc(0.0, 0.0)
  {
  }

  /** The ray from a point to itself has length zero, so measuring it
      against the x axis raises. */
  lemma CoincidentRayFails(m: MathLib, o: Point, p: Point)
    requires Sound(m) && o == p
    ensures GetAngle(m, Ray(o, p), Vec(1, 0)) == Err(ZeroLength)
  {
    LengthZero(m, Ray(o, p));
    ZeroLengthFails(m, Ray(o, p), Vec(1, 0));
  }

  /** If O coincides with A or with B, getAngle raises, both bearings fall
      back to 0 and the arc is empty. */
  lemma DegenerateArc(m: MathLib, o: Point, a: Point, b: Point)
    requires Sound(m) && (o == a || o == b)
    ensures Bearings(m, o, a, b) == (0.0, 0.0)
    ensures AngleArc(m, o, a, b) == Arc(0.0, 0.0)
  {
    if o == a {
      CoincidentRayFails(m, o, a);
    } else {
      CoincidentRayFails(m, o, b);
    }
    FallbackArc(m, o, a, b);
  }
}
