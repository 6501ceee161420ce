/**
 * The geometry kernel of SnapDraw: angle normalisation and snapping, the
 * screen/world viewport transform, grid snapping, unit conversion, projection
 * onto a drafting tool's edge and the protractor's angle at a vertex.
 *
 * Degrees and coordinates are exact reals. Kotlin's `%` on Float (fmod, whose
 * sign follows the dividend) is written out as a truncated remainder.
 * Trigonometry, square roots and the radian/degree conversion cannot be
 * computed exactly over the reals; they are supplied by the caller as a
 * `Trig` value.
 */
module Geometry {

  /** A point or a vector, in world or screen space. */
  datatype Offset = Offset(x: real, y: real) {
    function Plus(o: Offset): Offset { Offset(x + o.x, y + o.y) }
    function Minus(o: Offset): Offset { Offset(x - o.x, y - o.y) }
    function Times(k: real): Offset { Offset(x * k, y * k) }
    function Div(k: real): Offset requires k != 0.0 { Offset(x / k, y / k) }
  }

  const Zero: Offset := Offset(0.0, 0.0)

  /**
   * The transcendental functions the kernel calls: cosine and sine of an
   * angle in degrees, square root, arc cosine in degrees and the
   * radian-to-degree conversion of a gesture's rotation.
   */
  datatype Trig = Trig(
    cosDeg: real -> real,
    sinDeg: real -> real,
    sqrt: real -> real,
    acosDeg: real -> real,
    toDegrees: real -> real)

  function Abs(x: real): (r: real)
    ensures r >= 0.0 && (r == x || r == -x)
  {
    if x < 0.0 then -x else x
  }

  function Clamp(x: real, lo: real, hi: real): (r: real)
    requires lo <= hi
    ensures lo <= r <= hi
    ensures lo <= x <= hi ==> r == x
  {
    if x < lo then lo else if x > hi then hi else x
  }

  // ---------------------------------------------------------------------------
  // Angles
  // ---------------------------------------------------------------------------

  /** Float.MAX_VALUE, the starting "best distance" of the snapping scan. */
  const FloatMax: real := 340282346638528859811704183484516925440.0

  /** The reference angles a rotation or a measurement snaps to, in order. */
  const CommonAngles: seq<real> := [0.0, 30.0, 45.0, 60.0, 90.0, 120.0, 135.0, 150.0, 180.0]

  /** Rounds toward zero. */
  function Trunc(x: real): (n: int)
    ensures x >= 0.0 ==> n as real <= x < n as real + 1.0
    ensures x < 0.0 ==> n as real - 1.0 < x <= n as real
  {
    if x >= 0.0 then x.Floor else -((-x).Floor)
  }

  /** Kotlin's `x % 360f`: the remainder of a truncating division. */
  function Rem360(x: real): (r: real)
    ensures x >= 0.0 ==> 0.0 <= r < 360.0
    ensures x < 0.0 ==> -360.0 < r <= 0.0
    ensures Congruent(r, x)
  {
    var n := Trunc(x / 360.0);
    var r := x - 360.0 * n as real;
    CongruentBy(r, x, -n);
    r
  }

  /** `a` and `b` differ by a whole number of turns. */
  predicate Congruent(a: real, b: real) {
    ((a - b) / 360.0).Floor as real == (a - b) / 360.0
  }

  lemma CongruentBy(a: real, b: real, k: int)
    requires a - b == 360.0 * k as real
    ensures Congruent(a, b)
  {
    assert (a - b) / 360.0 == k as real;
  }

  lemma CongruentTurns(a: real, b: real) returns (k: int)
    requires Congruent(a, b)
    ensures a - b == 360.0 * k as real
  {
    k := ((a - b) / 360.0).Floor;
  }

  /** Angles in [-180, 180) that differ by whole turns are equal. */
  lemma CongruentInRangeEqual(a: real, b: real)
    requires -180.0 <= a < 180.0 && -180.0 <= b < 180.0
    requires Congruent(a, b)
    ensures a == b
  {
    var k := CongruentTurns(a, b);
    assert -1 < k < 1;
  }

  lemma CongruentTransitive(a: real, b: real, c: real)
    requires Congruent(a, b) && Congruent(b, c)
    ensures Congruent(a, c)
  {
    var p := CongruentTurns(a, b);
    var q := CongruentTurns(b, c);
    CongruentBy(a, c, p + q);
  }

  lemma CongruentSymmetric(a: real, b: real)
    requires Congruent(a, b)
    ensures Congruent(b, a)
  {
    var p := CongruentTurns(a, b);
    CongruentBy(b, a, -p);
  }

  /**
   * Folds an angle into [-180, 180): shift by half a turn, take the truncated
   * remainder, shift back, and lift a result below -180 by one turn.
   */
  function NormalizeSignedDeg(angle: real): (r: real)
    ensures -180.0 <= r < 180.0
    ensures Congruent(r, angle)
  {
    var a := Rem360(angle + 180.0) - 180.0;
    var k := -Trunc((angle + 180.0) / 360.0);
    CongruentBy(a, angle, k);
    if a < -180.0 then
      CongruentBy(a + 360.0, angle, k + 1);
      a + 360.0
    else a
  }

  /** The normal form is the one angle of [-180, 180) congruent to the input. */
  lemma NormalizeUnique(angle: real, r: real)
    requires -180.0 <= r < 180.0 && Congruent(r, angle)
    ensures NormalizeSignedDeg(angle) == r
  {
    var n := NormalizeSignedDeg(angle);
    CongruentSymmetric(r, angle);
    CongruentTransitive(n, angle, r);
    CongruentInRangeEqual(n, r);
  }

  /** A half turn is folded to the lower end of the range. */
  lemma NormalizeHalfTurn()
    ensures NormalizeSignedDeg(180.0) == -180.0
    ensures NormalizeSignedDeg(-180.0) == -180.0
  {
    CongruentBy(-180.0, 180.0, -1);
    NormalizeUnique(180.0, -180.0);
    NormalizeUnique(-180.0, -180.0);
  }

  /** Angles already in [-180, 180) are left alone, so normalising twice is normalising once. */
  lemma NormalizeIdempotent(angle: real)
    ensures -180.0 <= angle < 180.0 ==> NormalizeSignedDeg(angle) == angle
    ensures NormalizeSignedDeg(NormalizeSignedDeg(angle)) == NormalizeSignedDeg(angle)
  {
    if -180.0 <= angle < 180.0 {
      CongruentBy(angle, angle, 0);
      NormalizeUnique(angle, angle);
    }
    var n := NormalizeSignedDeg(angle);
    CongruentBy(n, n, 0);
    NormalizeUnique(n, n);
  }

  lemma NormalizeShift(angle: real, k: int)
    ensures NormalizeSignedDeg(angle + 360.0 * k as real) == NormalizeSignedDeg(angle)
  {
    var b := angle + 360.0 * k as real;
    var n := NormalizeSignedDeg(angle);
    CongruentBy(angle, b, -k);
    CongruentTransitive(n, angle, b);
    NormalizeUnique(b, n);
  }

  /** Adding any number of whole turns, one turn in particular, does not change the normal form. */
  lemma NormalizePeriodic(angle: real, k: int)
    ensures NormalizeSignedDeg(angle + 360.0 * k as real) == NormalizeSignedDeg(angle)
    ensures NormalizeSignedDeg(angle + 360.0) == NormalizeSignedDeg(angle)
  {
    NormalizeShift(angle, k);
    NormalizeShift(angle, 1);
  }

  /**
   * The distance the snapping scan measures between a normalised angle and a
   * reference angle: `abs(((norm - a + 540) % 360) - 180)`.
   */
  function AngleDistance(norm: real, a: real): (d: real)
    ensures d >= 0.0
    ensures norm - a + 540.0 >= 0.0 ==> d <= 180.0
  {
    Abs(Rem360(norm - a + 540.0) - 180.0)
  }

  /** Distance on the 360-degree circle, defined by the Euclidean remainder. */
  function CircularDistance(x: real, y: real): (d: real)
    ensures 0.0 <= d <= 180.0
  {
    var m := (x - y) - 360.0 * ((x - y) / 360.0).Floor as real;
    if m <= 180.0 then m else 360.0 - m
  }

  /** The circular distance is no larger than the gap to any whole-turn shift of `y`. */
  lemma CircularDistanceMinimal(x: real, y: real, k: int)
    ensures CircularDistance(x, y) <= Abs(x - y + 360.0 * k as real)
  {
    var f := ((x - y) / 360.0).Floor;
    var m := (x - y) - 360.0 * f as real;
    assert 0.0 <= m < 360.0;
    assert x - y + 360.0 * k as real == m + 360.0 * (f + k) as real;
  }

  /**
   * For angles the scan can see (a normalised angle against a reference in
   * [0, 180]) the scan's distance is exactly the circular distance.
   */
  lemma AngleDistanceIsCircular(norm: real, a: real)
    requires -180.0 <= norm < 180.0 && 0.0 <= a <= 180.0
    ensures 0.0 <= AngleDistance(norm, a) <= 180.0
    ensures AngleDistance(norm, a) == CircularDistance(norm, a)
  {
    var x := norm - a + 540.0;
    var t := Trunc(x / 360.0);
    var f := ((norm - a) / 360.0).Floor;
    if x < 360.0 {
      assert t == 0 && f == -1;
    } else if norm - a < 0.0 {
      assert t == 1 && f == -1;
    } else {
      assert t == 1 && f == 0;
    }
  }

  /** `k` is the first index of a nearest reference among the first `n`. */
  ghost predicate NearestAmong(norm: real, k: int, n: int) {
    && 0 <= k < n <= |CommonAngles|
    && (forall j :: 0 <= j < n ==> AngleDistance(norm, CommonAngles[k]) <= AngleDistance(norm, CommonAngles[j]))
    && (forall j :: 0 <= j < k ==> AngleDistance(norm, CommonAngles[k]) < AngleDistance(norm, CommonAngles[j]))
  }

  lemma {:induction false} NearestExists(norm: real, n: int)
    requires 0 < n <= |CommonAngles|
    ensures exists k :: NearestAmong(norm, k, n)
  {
    if n == 1 {
      assert NearestAmong(norm, 0, 1);
    } else {
      NearestExists(norm, n - 1);
      var k :| NearestAmong(norm, k, n - 1);
      if AngleDistance(norm, CommonAngles[n - 1]) < AngleDistance(norm, CommonAngles[k]) {
        assert NearestAmong(norm, n - 1, n);
      } else {
        assert NearestAmong(norm, k, n);
      }
    }
  }

  lemma NearestUnique(norm: real, k1: int, k2: int, n: int)
    requires NearestAmong(norm, k1, n) && NearestAmong(norm, k2, n)
    ensures k1 == k2
  {
    var d1, d2 := AngleDistance(norm, CommonAngles[k1]), AngleDistance(norm, CommonAngles[k2]);
    assert k1 < k2 ==> d2 < d1 && d1 <= d2;
    assert k2 < k1 ==> d1 < d2 && d2 <= d1;
  }

  ghost function FirstNearestIndex(norm: real): (k: int)
    ensures NearestAmong(norm, k, |CommonAngles|)
  {
    NearestExists(norm, |CommonAngles|);
    var k :| NearestAmong(norm, k, |CommonAngles|);
    k
  }

  /**
   * What snapping promises: the earliest reference angle at the smallest
   * scan distance from the normalised input, and whether that distance is
   * within the threshold.
   */
  ghost function SnapSpec(rawDeg: real, thresholdDeg: real): (real, bool) {
    var norm := NormalizeSignedDeg(rawDeg);
    var best := CommonAngles[FirstNearestIndex(norm)];
    (best, AngleDistance(norm, best) <= thresholdDeg)
  }

  /** The scan over the reference angles, keeping the first strictly better candidate. */
  method SnapAngle(rawDeg: real, thresholdDeg: real) returns (best: real, hard: bool)
    ensures (best, hard) == SnapSpec(rawDeg, thresholdDeg)
  {
    var norm := NormalizeSignedDeg(rawDeg);
    best := norm;
    var bestDelta := FloatMax;
    ghost var k := 0;
    for i := 0 to |CommonAngles|
      invariant i == 0 ==> bestDelta == FloatMax
      invariant 0 < i ==> NearestAmong(norm, k, i) && best == CommonAngles[k]
      invariant 0 < i ==> bestDelta == AngleDistance(norm, best)
    {
      var a := CommonAngles[i];
      var d := AngleDistance(norm, a);
      if d < bestDelta {
        bestDelta := d;
        best := a;
        k := i;
      }
    }
    hard := bestDelta <= thresholdDeg;
    NearestUnique(norm, k, FirstNearestIndex(norm), |CommonAngles|);
  }

  /** The snapped angle is always a reference angle, at the least circular distance. */
  lemma SnapSpecNearest(rawDeg: real, thresholdDeg: real, j: int)
    requires 0 <= j < |CommonAngles|
    ensures SnapSpec(rawDeg, thresholdDeg).0 in CommonAngles
    ensures var norm := NormalizeSignedDeg(rawDeg);
            CircularDistance(norm, SnapSpec(rawDeg, thresholdDeg).0) <= CircularDistance(norm, CommonAngles[j])
    ensures SnapSpec(rawDeg, thresholdDeg).1 <==>
              CircularDistance(NormalizeSignedDeg(rawDeg), SnapSpec(rawDeg, thresholdDeg).0) <= thresholdDeg
  {
    var norm := NormalizeSignedDeg(rawDeg);
    var k := FirstNearestIndex(norm);
    AngleDistanceIsCircular(norm, CommonAngles[k]);
    AngleDistanceIsCircular(norm, CommonAngles[j]);
  }

  /** Within half a turn the scan's distance is the plain difference. */
  lemma AngleDistanceNear(norm: real, a: real)
    requires -180.0 <= norm - a < 180.0
    ensures AngleDistance(norm, a) == Abs(norm - a)
  {
    assert Trunc((norm - a + 540.0) / 360.0) == 1;
  }

  /** Distances from `norm` to every reference, when all lie within half a turn. */
  lemma ReferenceDistances(norm: real)
    requires 0.0 <= norm < 180.0
    ensures forall j :: 0 <= j < |CommonAngles| ==> AngleDistance(norm, CommonAngles[j]) == Abs(norm - CommonAngles[j])
  {
    forall j | 0 <= j < |CommonAngles|
      ensures AngleDistance(norm, CommonAngles[j]) == Abs(norm - CommonAngles[j])
    {
      AngleDistanceNear(norm, CommonAngles[j]);
    }
  }

  /** Ties go to the earlier reference: 15 degrees is as far from 0 as from 30. */
  lemma SnapTieGoesToEarlier()
    ensures SnapSpec(15.0, 20.0) == (0.0, true)
  {
    NormalizeIdempotent(15.0);
    ReferenceDistances(15.0);
    assert NearestAmong(15.0, 0, |CommonAngles|);
    NearestUnique(15.0, 0, FirstNearestIndex(15.0), |CommonAngles|);
  }

  /** The nearest reference is reported even when it lies outside the threshold. */
  lemma SnapThresholdDecidesFlag()
    ensures SnapSpec(44.0, 2.0) == (45.0, true)
    ensures SnapSpec(44.0, 0.5) == (45.0, false)
  {
    NormalizeIdempotent(44.0);
    ReferenceDistances(44.0);
    assert NearestAmong(44.0, 2, |CommonAngles|);
    NearestUnique(44.0, 2, FirstNearestIndex(44.0), |CommonAngles|);
  }

  // ---------------------------------------------------------------------------
  // Coordinates
  // ---------------------------------------------------------------------------

  /** Screen position to world position under the canvas pan and zoom. */
  function ScreenToWorld(screen: Offset, canvasOffset: Offset, canvasScale: real): (w: Offset)
    requires canvasScale != 0.0
    ensures w.Times(canvasScale).Plus(canvasOffset) == screen
  {
    Offset((screen.x - canvasOffset.x) / canvasScale, (screen.y - canvasOffset.y) / canvasScale)
  }

  /** World position to screen position, as the canvas draws it. */
  function WorldToScreen(p: Offset, canvasOffset: Offset, canvasScale: real): (screen: Offset)
    ensures canvasScale != 0.0 ==> ScreenToWorld(screen, canvasOffset, canvasScale) == p
  {
    assert canvasScale != 0.0 ==> (p.x * canvasScale) / canvasScale == p.x && (p.y * canvasScale) / canvasScale == p.y;
    Offset(p.x * canvasScale + canvasOffset.x, p.y * canvasScale + canvasOffset.y)
  }

  lemma ScreenWorldRoundTrip(p: Offset, canvasOffset: Offset, canvasScale: real)
    requires canvasScale != 0.0
    ensures ScreenToWorld(WorldToScreen(p, canvasOffset, canvasScale), canvasOffset, canvasScale) == p
    ensures WorldToScreen(ScreenToWorld(p, canvasOffset, canvasScale), canvasOffset, canvasScale) == p
  {
    assert (p.x * canvasScale) / canvasScale == p.x;
    assert (p.y * canvasScale) / canvasScale == p.y;
  }

  function SquaredDistance(a: Offset, b: Offset): (d: real)
    ensures d >= 0.0
    ensures a == b ==> d == 0.0
  {
    var dx, dy := a.x - b.x, a.y - b.y;
    dx * dx + dy * dy
  }

  /** `distance(a, b) <= limit`, with the Euclidean distance compared through its square. */
  predicate WithinDistance(a: Offset, b: Offset, limit: real) {
    limit >= 0.0 && SquaredDistance(a, b) <= limit * limit
  }

  /** Kotlin's `roundToInt`: halves round up. */
  function RoundToInt(x: real): (n: int)
    ensures x - 0.5 < n as real <= x + 0.5
  {
    (x + 0.5).Floor
  }

  const DefaultGridThreshold: real := 8.0

  /** The grid intersection nearest to `world`: each coordinate rounded to a multiple of the spacing. */
  function GridPoint(world: Offset, gridSpacingWorld: real): (g: Offset)
    requires gridSpacingWorld > 0.0
    ensures IsWhole(g.x / gridSpacingWorld) && IsWhole(g.y / gridSpacingWorld)
    ensures Abs(g.x - world.x) <= gridSpacingWorld / 2.0 && Abs(g.y - world.y) <= gridSpacingWorld / 2.0
  {
    var nx := RoundToInt(world.x / gridSpacingWorld);
    var ny := RoundToInt(world.y / gridSpacingWorld);
    MultipleOfSpacing(nx, gridSpacingWorld);
    MultipleOfSpacing(ny, gridSpacingWorld);
    HalfSpacing(world.x, gridSpacingWorld);
    HalfSpacing(world.y, gridSpacingWorld);
    Offset(nx as real * gridSpacingWorld, ny as real * gridSpacingWorld)
  }

  /**
   * Moves a point onto the nearest grid intersection when that intersection
   * is within the threshold; otherwise the point is kept.
   */
  function SnapToGridIfClose(world: Offset, gridSpacingWorld: real,
                             thresholdWorld: real := DefaultGridThreshold): (r: Offset)
    requires gridSpacingWorld > 0.0
    ensures r == world || r == GridPoint(world, gridSpacingWorld)
    ensures WithinDistance(world, GridPoint(world, gridSpacingWorld), thresholdWorld) ==> r == GridPoint(world, gridSpacingWorld)
    ensures r != world ==> WithinDistance(world, r, thresholdWorld)
  {
    var snapped := GridPoint(world, gridSpacingWorld);
    if WithinDistance(world, snapped, thresholdWorld) then snapped else world
  }

  predicate IsWhole(q: real) {
    q.Floor as real == q
  }

  lemma MultipleOfSpacing(n: int, s: real)
    requires s > 0.0
    ensures (n as real * s) / s == n as real
    ensures IsWhole((n as real * s) / s)
    ensures RoundToInt((n as real * s) / s) == n
  {
  }

  lemma HalfSpacing(x: real, s: real)
    requires s > 0.0
    ensures Abs(RoundToInt(x / s) as real * s - x) <= s / 2.0
  {
    var q := x / s;
    var n := RoundToInt(q);
    var e := n as real - q;
    assert -0.5 <= e <= 0.5;
    assert q * s == x;
    assert e * s == n as real * s - x;
    assert -0.5 * s <= e * s;
    assert e * s <= 0.5 * s;
  }

  /** Snapping a point that was already snapped changes nothing. */
  lemma SnapToGridIdempotent(world: Offset, s: real, t: real)
    requires s > 0.0 && t >= 0.0
    ensures SnapToGridIfClose(SnapToGridIfClose(world, s, t), s, t) == SnapToGridIfClose(world, s, t)
  {
    var g := GridPoint(world, s);
    if WithinDistance(world, g, t) {
      var nx, ny := RoundToInt(world.x / s), RoundToInt(world.y / s);
      MultipleOfSpacing(nx, s);
      MultipleOfSpacing(ny, s);
      assert g == Offset(nx as real * s, ny as real * s);
      assert GridPoint(g, s) == g;
      assert SquaredDistance(g, g) == 0.0;
    }
  }

  /** Pixels to centimetres at the display's horizontal density (2.54 cm per inch). */
  function PxToCm(px: real, xdpi: real, calibrationFactor: real := 1.0): (cm: real)
    requires xdpi != 0.0
    ensures cm * xdpi == 2.54 * px * calibrationFactor
    ensures px == xdpi ==> cm == 2.54 * calibrationFactor
  {
    (px / xdpi) * 2.54 * calibrationFactor
  }

  /** One inch of pixels is 2.54 cm, and the conversion is additive in the pixel count. */
  lemma PxToCmLinear(a: real, b: real, xdpi: real, c: real)
    requires xdpi != 0.0
    ensures PxToCm(xdpi, xdpi) == 2.54
    ensures PxToCm(a + b, xdpi, c) == PxToCm(a, xdpi, c) + PxToCm(b, xdpi, c)
  {
    assert (a + b) / xdpi == a / xdpi + b / xdpi;
  }

  // ---------------------------------------------------------------------------
  // Drafting-tool geometry
  // ---------------------------------------------------------------------------

  /**
   * Orthogonal projection of `point` onto the line through `center` at
   * `angleDeg`: the centre plus the unit direction times the scalar projection.
   */
  function ProjectOntoLine(point: Offset, center: Offset, angleDeg: real, trig: Trig): (p: Offset)
    ensures OnLine(p, center, angleDeg, trig)
    ensures UnitDirection(trig, angleDeg) ==>
              (point.x - p.x) * trig.cosDeg(angleDeg) + (point.y - p.y) * trig.sinDeg(angleDeg) == 0.0
  {
    var dx := trig.cosDeg(angleDeg);
    var dy := trig.sinDeg(angleDeg);
    var apx := point.x - center.x;
    var apy := point.y - center.y;
    var t := apx * dx + apy * dy;
    ProjectionAlgebra(apx, apy, dx, dy);
    Offset(center.x + dx * t, center.y + dy * t)
  }

  /** `p` lies on the line through `center` in the supplied direction of `angleDeg`. */
  predicate OnLine(p: Offset, center: Offset, angleDeg: real, trig: Trig) {
    (p.x - center.x) * trig.sinDeg(angleDeg) - (p.y - center.y) * trig.cosDeg(angleDeg) == 0.0
  }

  /** The projection's offset from the centre is parallel to the direction; its remainder is orthogonal to a unit one. */
  lemma ProjectionAlgebra(apx: real, apy: real, dx: real, dy: real)
    ensures var t := apx * dx + apy * dy;
            && (dx * t) * dy - (dy * t) * dx == 0.0
            && (dx * dx + dy * dy == 1.0 ==> (apx - dx * t) * dx + (apy - dy * t) * dy == 0.0)
  {
    var t := apx * dx + apy * dy;
    assert (apx - dx * t) * dx + (apy - dy * t) * dy == t - t * (dx * dx + dy * dy);
  }

  /** The supplied cosine and sine of `angleDeg` form a unit vector. */
  predicate UnitDirection(trig: Trig, angleDeg: real) {
    trig.cosDeg(angleDeg) * trig.cosDeg(angleDeg) + trig.sinDeg(angleDeg) * trig.sinDeg(angleDeg) == 1.0
  }

  /**
   * For a unit direction the projection lands on the line, stays put when
   * repeated, and leaves a remainder orthogonal to the line.
   */
  lemma ProjectOntoLineIdempotent(point: Offset, center: Offset, angleDeg: real, trig: Trig)
    requires UnitDirection(trig, angleDeg)
    ensures var p := ProjectOntoLine(point, center, angleDeg, trig);
            && ProjectOntoLine(p, center, angleDeg, trig) == p
            && (point.x - p.x) * trig.cosDeg(angleDeg) + (point.y - p.y) * trig.sinDeg(angleDeg) == 0.0
  {
    var dx, dy := trig.cosDeg(angleDeg), trig.sinDeg(angleDeg);
    var t := (point.x - center.x) * dx + (point.y - center.y) * dy;
    var p := ProjectOntoLine(point, center, angleDeg, trig);
    assert p.x - center.x == dx * t && p.y - center.y == dy * t;
    calc {
      (p.x - center.x) * dx + (p.y - center.y) * dy;
      (dx * t) * dx + (dy * t) * dy;
      t * (dx * dx + dy * dy);
      t;
    }
    calc {
      (point.x - p.x) * dx + (point.y - p.y) * dy;
      ((point.x - center.x) - dx * t) * dx + ((point.y - center.y) - dy * t) * dy;
      t - t * (dx * dx + dy * dy);
      0.0;
    }
  }

  const DegenerateLength: real := 0.000001

  /** The cosine fed to the arc cosine: the normalised dot product, clamped to [-1, 1]. */
  function CosAtVertex(v1: Offset, v2: Offset, mag1: real, mag2: real): (c: real)
    requires mag1 > DegenerateLength && mag2 > DegenerateLength
    ensures -1.0 <= c <= 1.0
  {
    assert mag1 * mag2 > 0.0;
    Clamp((v1.x * v2.x + v1.y * v2.y) / (mag1 * mag2), -1.0, 1.0)
  }

  /**
   * The angle at `vertex` between the rays to `p1` and `p2`, in degrees;
   * 0 when either ray is shorter than the degenerate length.
   */
  function AngleAtVertex(p1: Offset, vertex: Offset, p2: Offset, trig: Trig): (deg: real)
    ensures AcosInRange(trig) ==> 0.0 <= deg <= 180.0
    ensures trig.sqrt(0.0) == 0.0 && (p1 == vertex || p2 == vertex) ==> deg == 0.0
  {
    var v1 := p1.Minus(vertex);
    var v2 := p2.Minus(vertex);
    var mag1 := trig.sqrt(v1.x * v1.x + v1.y * v1.y);
    var mag2 := trig.sqrt(v2.x * v2.x + v2.y * v2.y);
    if mag1 <= DegenerateLength || mag2 <= DegenerateLength then 0.0
    else trig.acosDeg(CosAtVertex(v1, v2, mag1, mag2))
  }

  /** An arc cosine that maps [-1, 1] into [0, 180] degrees. */
  ghost predicate AcosInRange(trig: Trig) {
    forall c :: -1.0 <= c <= 1.0 ==> 0.0 <= trig.acosDeg(c) <= 180.0
  }
}
