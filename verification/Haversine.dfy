/**
 Haversine distance over the reals. Dafny has no trigonometry, so `sin`, `cos`, `asin` and `sqrt` are
 parameters, and what is used of them is listed in `TrigLaws`.
 */
module Haversine {
  import opened Model

  const EARTH_RADIUS_KM: real := 6371.0

  datatype Trig = Trig(sin: real -> real, cos: real -> real, asin: real -> real, sqrt: real -> real, pi: real)

  function Times(x: real, y: real): real {
    x * y
  }

  function Square(x: real): real {
    Times(x, x)
  }

  ghost predicate UnitCircle(t: Trig, x: real) {
    Square(t.sin(x)) + Square(t.cos(x)) == 1.0
  }

  ghost predicate CosOfDifference(t: Trig, x: real, y: real) {
    t.cos(x - y) == t.cos(x) * t.cos(y) + t.sin(x) * t.sin(y)
  }

  ghost predicate SinOfDifference(t: Trig, x: real, y: real) {
    t.sin(x - y) == t.sin(x) * t.cos(y) - t.cos(x) * t.sin(y)
  }

  ghost predicate TrigLaws(t: Trig) {
    && t.pi > 0.0
    && (forall x :: UnitCircle(t, x))
    && (forall x, y :: CosOfDifference(t, x, y))
    && (forall x, y :: SinOfDifference(t, x, y))
    && t.sqrt(0.0) == 0.0 && t.sqrt(1.0) == 1.0
    && (forall x, y :: 0.0 <= x < y ==> t.sqrt(x) < t.sqrt(y))
    && t.asin(0.0) == 0.0 && t.asin(1.0) == t.pi / 2.0
    && (forall x, y :: 0.0 <= x < y <= 1.0 ==> t.asin(x) < t.asin(y))
  }

  function Radians(t: Trig, degrees: real): real {
    degrees * (t.pi / 180.0)
  }

  /** The quantity `h` of `haversine_km`, from latitudes and longitudes in radians. */
  function H(t: Trig, lat1: real, lon1: real, lat2: real, lon2: real): real {
    var dlat := lat2 - lat1;
    var dlon := lon2 - lon1;
    Square(t.sin(dlat / 2.0)) + t.cos(lat1) * t.cos(lat2) * Square(t.sin(dlon / 2.0))
  }

  function HaversineKm(t: Trig, a: (real, real), b: (real, real)): real {
    var h := H(t, Radians(t, a.0), Radians(t, a.1), Radians(t, b.0), Radians(t, b.1));
    EARTH_RADIUS_KM * (2.0 * t.asin(t.sqrt(h)))
  }

  /** The distance the matcher compares: NaN unless all four coordinates are numbers. */
  function Distance(t: Trig, p: GeoPoint, q: GeoPoint): F64 {
    if p.lat.Num? && p.lon.Num? && q.lat.Num? && q.lon.Num?
    then Num(HaversineKm(t, (p.lat.value, p.lon.value), (q.lat.value, q.lon.value)))
    else NaN
  }

  // An independent reading of h: points on the unit sphere and the chord between them.

  datatype Vec = Vec(x: real, y: real, z: real)

  function OnSphere(t: Trig, lat: real, lon: real): Vec {
    Vec(t.cos(lat) * t.cos(lon), t.cos(lat) * t.sin(lon), t.sin(lat))
  }

  function Place(t: Trig, p: (real, real)): Vec {
    OnSphere(t, Radians(t, p.0), Radians(t, p.1))
  }

  function Dot(u: Vec, v: Vec): real {
    u.x * v.x + u.y * v.y + u.z * v.z
  }

  function ChordSquared(u: Vec, v: Vec): real {
    Square(u.x - v.x) + Square(u.y - v.y) + Square(u.z - v.z)
  }

  lemma HalfAngle(t: Trig, x: real)
    requires TrigLaws(t)
    ensures Square(t.sin(x / 2.0)) == (1.0 - t.cos(x)) / 2.0
  {
    var y := x / 2.0;
    var c, s := t.cos(y), t.sin(y);
    assert y - y == 0.0;
    assert UnitCircle(t, y) && CosOfDifference(t, y, y) && SinOfDifference(t, y, y);
    assert t.cos(0.0) == 1.0 && t.sin(0.0) == 0.0;
    assert CosOfDifference(t, 0.0, y) && SinOfDifference(t, 0.0, y);
    assert t.cos(0.0 - y) == c && t.sin(0.0 - y) == -s;
    assert CosOfDifference(t, y, 0.0 - y);
    assert y - (0.0 - y) == x;
    assert t.cos(x) == c * c - s * s;
  }

  lemma ScaledCircle(k: real, c: real, s: real)
    requires Square(s) + Square(c) == 1.0
    ensures (k * c) * (k * c) + (k * s) * (k * s) == k * k
  {
    assert (k * c) * (k * c) == (k * k) * (c * c);
    assert (k * s) * (k * s) == (k * k) * (s * s);
    assert (k * k) * (c * c) + (k * k) * (s * s) == (k * k) * (c * c + s * s);
  }

  lemma UnitVector(t: Trig, lat: real, lon: real)
    requires TrigLaws(t)
    ensures Dot(OnSphere(t, lat, lon), OnSphere(t, lat, lon)) == 1.0
  {
    assert UnitCircle(t, lat) && UnitCircle(t, lon);
    var k, c, s := t.cos(lat), t.cos(lon), t.sin(lon);
    ScaledCircle(k, c, s);
  }

  lemma PositiveProduct(x: real, y: real)
    requires (x > 0.0 && y > 0.0) || (x < 0.0 && y < 0.0)
    ensures Times(x, y) > 0.0
    decreases x < 0.0
  {
    if x < 0.0 {
      PositiveProduct(-x, -y);
    }
  }

  lemma PositiveSquare(x: real)
    ensures Square(x) >= 0.0
    ensures Square(x) == 0.0 <==> x == 0.0
  {
    if x != 0.0 {
      PositiveProduct(x, x);
    }
  }

  lemma ChordInDots(u: Vec, v: Vec)
    ensures ChordSquared(u, v) == Dot(u, u) - 2.0 * Dot(u, v) + Dot(v, v)
  {
  }

  function Opposite(v: Vec): Vec {
    Vec(0.0 - v.x, 0.0 - v.y, 0.0 - v.z)
  }

  lemma DotWithOpposite(u: Vec, v: Vec)
    ensures Dot(u, Opposite(v)) == 0.0 - Dot(u, v) && Dot(Opposite(v), Opposite(v)) == Dot(v, v)
  {
  }

  lemma ChordIsPositive(u: Vec, v: Vec)
    ensures ChordSquared(u, v) >= 0.0
  {
    PositiveSquare(u.x - v.x);
    PositiveSquare(u.y - v.y);
    PositiveSquare(u.z - v.z);
  }

  lemma UnitChords(near: real, far: real, uu: real, vv: real, uv: real)
    requires near == uu - 2.0 * uv + vv && far == uu + 2.0 * uv + vv
    requires near >= 0.0 && far >= 0.0 && uu == 1.0 && vv == 1.0
    ensures near == 2.0 - 2.0 * uv && -1.0 <= uv <= 1.0
  {
  }

  lemma ChordFromDot(u: Vec, v: Vec)
    requires Dot(u, u) == 1.0 && Dot(v, v) == 1.0
    ensures ChordSquared(u, v) == 2.0 - 2.0 * Dot(u, v)
    ensures -1.0 <= Dot(u, v) <= 1.0
  {
    ChordInDots(u, v);
    ChordInDots(u, Opposite(v));
    DotWithOpposite(u, v);
    ChordIsPositive(u, v);
    ChordIsPositive(u, Opposite(v));
    UnitChords(ChordSquared(u, v), ChordSquared(u, Opposite(v)), Dot(u, u), Dot(v, v), Dot(u, v));
  }

  lemma Factor(c1: real, c2: real, a1: real, a2: real, b1: real, b2: real)
    ensures (c1 * a1) * (c2 * a2) + (c1 * b1) * (c2 * b2) == c1 * c2 * (a2 * a1 + b2 * b1)
  {
    assert (c1 * a1) * (c2 * a2) == (c1 * c2) * (a2 * a1);
    assert (c1 * b1) * (c2 * b2) == (c1 * c2) * (b2 * b1);
  }

  lemma DotOnSphere(t: Trig, lat1: real, lon1: real, lat2: real, lon2: real)
    requires TrigLaws(t)
    ensures Dot(OnSphere(t, lat1, lon1), OnSphere(t, lat2, lon2))
         == t.cos(lat1) * t.cos(lat2) * t.cos(lon2 - lon1) + t.sin(lat1) * t.sin(lat2)
  {
    assert CosOfDifference(t, lon2, lon1);
    Factor(t.cos(lat1), t.cos(lat2), t.cos(lon1), t.cos(lon2), t.sin(lon1), t.sin(lon2));
  }

  lemma Halved(k: real, x: real)
    ensures k * ((1.0 - x) / 2.0) == (k - k * x) / 2.0
  {
  }

  lemma HInCosines(t: Trig, lat1: real, lon1: real, lat2: real, lon2: real)
    requires TrigLaws(t)
    ensures H(t, lat1, lon1, lat2, lon2)
         == (1.0 - (t.cos(lat1) * t.cos(lat2) * t.cos(lon2 - lon1) + t.sin(lat1) * t.sin(lat2))) / 2.0
  {
    var k := t.cos(lat1) * t.cos(lat2);
    HalfAngle(t, lat2 - lat1);
    HalfAngle(t, lon2 - lon1);
    Halved(k, t.cos(lon2 - lon1));
    assert t.cos(lat2 - lat1) == k + t.sin(lat1) * t.sin(lat2) by {
      assert CosOfDifference(t, lat2, lat1);
    }
  }

  /** h is a quarter of the squared chord between the two points, whatever the coordinates are. */
  lemma HIsChord(t: Trig, lat1: real, lon1: real, lat2: real, lon2: real)
    requires TrigLaws(t)
    ensures H(t, lat1, lon1, lat2, lon2)
         == ChordSquared(OnSphere(t, lat1, lon1), OnSphere(t, lat2, lon2)) / 4.0
  {
    var u, v := OnSphere(t, lat1, lon1), OnSphere(t, lat2, lon2);
    var d := Dot(u, v);
    assert ChordSquared(u, v) == 2.0 - 2.0 * d by {
      UnitVector(t, lat1, lon1);
      UnitVector(t, lat2, lon2);
      ChordFromDot(u, v);
    }
    assert H(t, lat1, lon1, lat2, lon2) == (1.0 - d) / 2.0 by {
      HInCosines(t, lat1, lon1, lat2, lon2);
      DotOnSphere(t, lat1, lon1, lat2, lon2);
    }
  }

  lemma ZeroChord(u: Vec, v: Vec)
    ensures ChordSquared(u, v) == 0.0 <==> u == v
  {
    PositiveSquare(u.x - v.x);
    PositiveSquare(u.y - v.y);
    PositiveSquare(u.z - v.z);
  }

  /** So the argument of `asin(sqrt(h))` never leaves [0, 1], and h is symmetric and zero on equal points. */
  lemma HWellDefined(t: Trig, lat1: real, lon1: real, lat2: real, lon2: real)
    requires TrigLaws(t)
    ensures 0.0 <= H(t, lat1, lon1, lat2, lon2) <= 1.0
    ensures H(t, lat1, lon1, lat2, lon2) == H(t, lat2, lon2, lat1, lon1)
    ensures H(t, lat1, lon1, lat2, lon2) == 0.0 <==> OnSphere(t, lat1, lon1) == OnSphere(t, lat2, lon2)
  {
    var u, v := OnSphere(t, lat1, lon1), OnSphere(t, lat2, lon2);
    HIsChord(t, lat1, lon1, lat2, lon2);
    HIsChord(t, lat2, lon2, lat1, lon1);
    UnitVector(t, lat1, lon1);
    UnitVector(t, lat2, lon2);
    ChordFromDot(u, v);
    ChordFromDot(v, u);
    ZeroChord(u, v);
  }

  lemma ArcGrows(t: Trig, h: real, k: real)
    requires TrigLaws(t)
    requires 0.0 <= h <= 1.0 && 0.0 <= k <= 1.0
    ensures 0.0 <= t.asin(t.sqrt(h)) <= t.pi / 2.0
    ensures t.asin(t.sqrt(h)) <= t.asin(t.sqrt(k)) <==> h <= k
  {
    assert 0.0 < h ==> t.sqrt(0.0) < t.sqrt(h);
    assert h < 1.0 ==> t.sqrt(h) < t.sqrt(1.0);
    assert 0.0 < k ==> t.sqrt(0.0) < t.sqrt(k);
    assert k < 1.0 ==> t.sqrt(k) < t.sqrt(1.0);
  }

  /** The distance lies between 0 and half the circumference, is symmetric, and vanishes exactly on one place. */
  lemma HaversineWellDefined(t: Trig, a: (real, real), b: (real, real))
    requires TrigLaws(t)
    ensures 0.0 <= HaversineKm(t, a, b) <= t.pi * EARTH_RADIUS_KM
    ensures HaversineKm(t, a, b) == HaversineKm(t, b, a)
    ensures HaversineKm(t, a, b) == 0.0 <==> Place(t, a) == Place(t, b)
  {
    var h := H(t, Radians(t, a.0), Radians(t, a.1), Radians(t, b.0), Radians(t, b.1));
    HWellDefined(t, Radians(t, a.0), Radians(t, a.1), Radians(t, b.0), Radians(t, b.1));
    ArcGrows(t, h, 0.0);
  }

  /** Ranking by haversine distance is ranking by straight-line distance through the sphere. */
  lemma HaversineRanksByChord(t: Trig, p: (real, real), a: (real, real), b: (real, real))
    requires TrigLaws(t)
    ensures (HaversineKm(t, p, a) <= HaversineKm(t, p, b))
         == (ChordSquared(Place(t, p), Place(t, a)) <= ChordSquared(Place(t, p), Place(t, b)))
  {
    var h := H(t, Radians(t, p.0), Radians(t, p.1), Radians(t, a.0), Radians(t, a.1));
    var k := H(t, Radians(t, p.0), Radians(t, p.1), Radians(t, b.0), Radians(t, b.1));
    HIsChord(t, Radians(t, p.0), Radians(t, p.1), Radians(t, a.0), Radians(t, a.1));
    HIsChord(t, Radians(t, p.0), Radians(t, p.1), Radians(t, b.0), Radians(t, b.1));
    HWellDefined(t, Radians(t, p.0), Radians(t, p.1), Radians(t, a.0), Radians(t, a.1));
    HWellDefined(t, Radians(t, p.0), Radians(t, p.1), Radians(t, b.0), Radians(t, b.1));
    ArcGrows(t, h, k);
  }

  /** Between validated points the distance is a number, never NaN. */
  lemma ValidPointsHaveDistance(t: Trig, p: GeoPoint, q: GeoPoint)
    requires TrigLaws(t)
    requires ValidPoint(p) && ValidPoint(q)
    ensures Distance(t, p, q).Num?
    ensures 0.0 <= Distance(t, p, q).value <= t.pi * EARTH_RADIUS_KM
    ensures Distance(t, p, q) == Distance(t, q, p)
  {
    HaversineWellDefined(t, (p.lat.value, p.lon.value), (q.lat.value, q.lon.value));
  }

  /** Outside of them it is NaN exactly when a coordinate is not a number. */
  lemma NoDistanceWithoutNumbers(t: Trig, p: GeoPoint, q: GeoPoint)
    ensures Distance(t, p, q).Num? || Distance(t, p, q).NaN?
    ensures Distance(t, p, q).Num? <==> p.lat.Num? && p.lon.Num? && q.lat.Num? && q.lon.Num?
  {
  }

  // --- Degrees and kilometres: two great circles on which the distance is known

  /** `asin` undoes `sin` on a quarter turn. */
  ghost predicate ArcLaw(t: Trig) {
    forall x :: 0.0 <= x <= t.pi / 2.0 ==> t.asin(t.sqrt(Square(t.sin(x)))) == x
  }

  lemma ZeroAngle(t: Trig)
    requires TrigLaws(t)
    ensures t.sin(0.0) == 0.0 && t.cos(0.0) == 1.0
  {
    assert SinOfDifference(t, 0.0, 0.0) && CosOfDifference(t, 0.0, 0.0) && UnitCircle(t, 0.0);
  }

  lemma ScaledDifference(x: real, y: real, k: real)
    ensures y * k - x * k == (y - x) * k
  {
  }

  lemma ScaledRange(d: real, k: real)
    requires k > 0.0 && 0.0 <= d <= 180.0
    ensures 0.0 <= d * k <= 180.0 * k
  {
    ScaledDifference(d, 180.0, k);
    assert 0.0 <= (180.0 - d) * k;
  }

  lemma OneDegree(t: Trig)
    requires t.pi > 0.0
    ensures t.pi / 180.0 > 0.0 && 180.0 * (t.pi / 180.0) == t.pi
  {
  }

  lemma RadiansDifference(t: Trig, x: real, degrees: real)
    ensures Radians(t, x + degrees) - Radians(t, x) == Radians(t, degrees)
  {
    ScaledDifference(x, x + degrees, t.pi / 180.0);
  }

  lemma RadiansRange(t: Trig, degrees: real)
    requires t.pi > 0.0 && 0.0 <= degrees <= 180.0
    ensures 0.0 <= Radians(t, degrees) <= t.pi
  {
    var k := t.pi / 180.0;
    assert 0.0 <= degrees * k <= 180.0 * k by {
      ScaledRange(degrees, k);
    }
    assert Radians(t, degrees) == degrees * k;
    assert 180.0 * k == t.pi;
  }

  lemma ArcLength(t: Trig, h: real, angle: real)
    requires ArcLaw(t) && 0.0 <= angle <= t.pi && h == Square(t.sin(angle / 2.0))
    ensures EARTH_RADIUS_KM * (2.0 * t.asin(t.sqrt(h))) == 6371.0 * angle
  {
    var half := angle / 2.0;
    assert t.asin(t.sqrt(Square(t.sin(half)))) == half;
    assert 2.0 * half == angle;
  }

  /** If `h` is that of an angle, the distance is the angle's arc. */
  lemma KmOfAngle(t: Trig, a: (real, real), b: (real, real), angle: real)
    requires ArcLaw(t) && 0.0 <= angle <= t.pi
    requires H(t, Radians(t, a.0), Radians(t, a.1), Radians(t, b.0), Radians(t, b.1)) == Square(t.sin(angle / 2.0))
    ensures HaversineKm(t, a, b) == 6371.0 * angle
  {
    ArcLength(t, H(t, Radians(t, a.0), Radians(t, a.1), Radians(t, b.0), Radians(t, b.1)), angle);
  }

  lemma HFromAngle(t: Trig, lat1: real, lon1: real, lat2: real, lon2: real, angle: real)
    requires TrigLaws(t) && Dot(OnSphere(t, lat1, lon1), OnSphere(t, lat2, lon2)) == t.cos(angle)
    ensures H(t, lat1, lon1, lat2, lon2) == Square(t.sin(angle / 2.0))
  {
    HInCosines(t, lat1, lon1, lat2, lon2);
    DotOnSphere(t, lat1, lon1, lat2, lon2);
    HalfAngle(t, angle);
  }

  /** Between any two places it is the great-circle arc: radius times the angle between them at the earth's centre. */
  lemma GreatCircleDistance(t: Trig, p: GeoPoint, q: GeoPoint, angle: real)
    requires TrigLaws(t) && ArcLaw(t) && ValidPoint(p) && ValidPoint(q) && 0.0 <= angle <= t.pi
    requires Dot(Place(t, (p.lat.value, p.lon.value)), Place(t, (q.lat.value, q.lon.value))) == t.cos(angle)
    ensures Distance(t, p, q) == Num(6371.0 * angle)
  {
    var a, b := (p.lat.value, p.lon.value), (q.lat.value, q.lon.value);
    HFromAngle(t, Radians(t, a.0), Radians(t, a.1), Radians(t, b.0), Radians(t, b.1), angle);
    KmOfAngle(t, a, b, angle);
  }

  lemma NoLongitudeDifference(t: Trig, k: real)
    requires TrigLaws(t)
    ensures k * Square(t.sin(0.0 / 2.0)) == 0.0
  {
    ZeroAngle(t);
  }

  lemma HOnMeridian(t: Trig, lat: real, lon: real, degrees: real)
    requires TrigLaws(t)
    ensures H(t, Radians(t, lat), Radians(t, lon), Radians(t, lat + degrees), Radians(t, lon))
         == Square(t.sin(Radians(t, degrees) / 2.0))
  {
    RadiansDifference(t, lat, degrees);
    NoLongitudeDifference(t, t.cos(Radians(t, lat)) * t.cos(Radians(t, lat + degrees)));
  }

  lemma HOnEquator(t: Trig, lon: real, degrees: real)
    requires TrigLaws(t)
    ensures H(t, Radians(t, 0.0), Radians(t, lon), Radians(t, 0.0), Radians(t, lon + degrees))
         == Square(t.sin(Radians(t, degrees) / 2.0))
  {
    RadiansDifference(t, lon, degrees);
    ZeroAngle(t);
    assert Radians(t, 0.0) == 0.0;
  }

  lemma KmOnMeridian(t: Trig, lat: real, lon: real, degrees: real)
    requires TrigLaws(t) && ArcLaw(t) && 0.0 <= degrees <= 180.0
    ensures HaversineKm(t, (lat, lon), (lat + degrees, lon)) == 6371.0 * Radians(t, degrees)
  {
    RadiansRange(t, degrees);
    HOnMeridian(t, lat, lon, degrees);
    KmOfAngle(t, (lat, lon), (lat + degrees, lon), Radians(t, degrees));
  }

  lemma KmOnEquator(t: Trig, lon: real, degrees: real)
    requires TrigLaws(t) && ArcLaw(t) && 0.0 <= degrees <= 180.0
    ensures HaversineKm(t, (0.0, lon), (0.0, lon + degrees)) == 6371.0 * Radians(t, degrees)
  {
    RadiansRange(t, degrees);
    HOnEquator(t, lon, degrees);
    KmOfAngle(t, (0.0, lon), (0.0, lon + degrees), Radians(t, degrees));
  }

  lemma DistanceOfNumbers(t: Trig, lat1: real, lon1: real, lat2: real, lon2: real, degrees: real)
    requires HaversineKm(t, (lat1, lon1), (lat2, lon2)) == 6371.0 * Radians(t, degrees)
    ensures Distance(t, GeoPoint(Num(lat1), Num(lon1)), GeoPoint(Num(lat2), Num(lon2)))
         == Num(6371.0 * (degrees * (t.pi / 180.0)))
  {
  }

  /** Due north the distance is the arc of a circle of radius 6371 km over the difference of the latitudes. */
  lemma MeridianDistance(t: Trig, lat: real, lon: real, degrees: real)
    requires TrigLaws(t) && ArcLaw(t) && 0.0 <= degrees <= 180.0
    ensures Distance(t, GeoPoint(Num(lat), Num(lon)), GeoPoint(Num(lat + degrees), Num(lon)))
         == Num(6371.0 * (degrees * (t.pi / 180.0)))
  {
    KmOnMeridian(t, lat, lon, degrees);
    DistanceOfNumbers(t, lat, lon, lat + degrees, lon, degrees);
  }

  /** Along the equator it is the arc over the difference of the longitudes. */
  lemma EquatorDistance(t: Trig, lon: real, degrees: real)
    requires TrigLaws(t) && ArcLaw(t) && 0.0 <= degrees <= 180.0
    ensures Distance(t, GeoPoint(Num(0.0), Num(lon)), GeoPoint(Num(0.0), Num(lon + degrees)))
         == Num(6371.0 * (degrees * (t.pi / 180.0)))
  {
    KmOnEquator(t, lon, degrees);
    DistanceOfNumbers(t, 0.0, lon, 0.0, lon + degrees, degrees);
  }

  /** The laws are not contradictory: a (degenerate) circle satisfies them. */
  lemma LawsHaveAModel()
    ensures exists t: Trig :: TrigLaws(t)
  {
    var t := Trig(x => 0.0, x => 1.0, x => x, x => x, 2.0);
    assert TrigLaws(t);
  }
}
