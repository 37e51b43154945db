/** The shape synthesizer: the irregular outline of one rock, drawn as a
    polygon of 8 to 11 vertices around the rock's centre. */
module RockShape {
  import opened Draws

  /** Math.PI as JavaScript prints it. */
  const Pi: real := 3.141592653589793

  /** One outline vertex in the polar form in which it is drawn: the point is
      (centerX + cos(angle) * radiusX, centerY + sin(angle) * radiusY).
      Cosine and sine are not modelled, so the vertex keeps its inputs. */
  datatype Vertex = Vertex(centerX: real, centerY: real, angle: real, radiusX: real, radiusY: real)

  /** The vertex count, 8 + floor(4u), drawn once per outline. */
  function NumPoints(u: real): (n: nat)
    requires 0.0 <= u < 1.0
    ensures 8 <= n <= 11
  {
    8 + FloorScaled(u, 4)
  }

  /** i / n of a full turn, in radians: the undisturbed angle of vertex i. */
  function BaseAngle(i: nat, n: nat): real
    requires 0 < n
  {
    (i as real / n as real) * 2.0 * Pi
  }

  /** Vertex i of an n-gon outline around (cx, cy) with box w by h: its angle is
      the even angle i/n of a turn moved by less than 0.15 radians, and its
      radii are 70% to 130% of the half-width and half-height. */
  ghost predicate VertexOk(v: Vertex, cx: real, cy: real, w: real, h: real, n: nat, i: nat)
    requires 0 < n
  {
    && v.centerX == cx && v.centerY == cy
    && BaseAngle(i, n) - 0.15 <= v.angle < BaseAngle(i, n) + 0.15
    && (0.0 < w ==> 0.35 * w <= v.radiusX < 0.65 * w)
    && (0.0 < h ==> 0.35 * h <= v.radiusY < 0.65 * h)
  }

  /** A rock outline: 8 to 11 vertices, vertex i being vertex i of the n-gon. */
  ghost predicate Outline(points: seq<Vertex>, cx: real, cy: real, w: real, h: real)
  {
    && 8 <= |points| <= 11
    && forall i :: 0 <= i < |points| ==> VertexOk(points[i], cx, cy, w, h, |points|, i)
  }

  /** The half-size base times a variation factor in [0.7, 1.3) lies in
      [0.35, 0.65) of the size. */
  lemma RadiusWithin(size: real, variation: real)
    requires 0.7 <= variation < 1.3
    ensures 0.0 < size ==> 0.35 * size <= size * 0.5 * variation < 0.65 * size
  {
  }

  /** The outline of a rock centred on (centerX, centerY) with the given box.
      The rotation is accepted and not used: it is applied when drawing. The
      first draw fixes the vertex count; each vertex then takes three draws,
      for its two radii and its angular noise, in that order. */
  method Synthesize(rnd: Stream, k: nat, centerX: real, centerY: real, width: real, height: real, rotation: real)
    returns (points: seq<Vertex>, next: nat)
    requires Valid(rnd)
    ensures |points| == NumPoints(rnd(k))
    ensures Outline(points, centerX, centerY, width, height)
    ensures next == k + 1 + 3 * |points|
  {
    var numPoints := NumPoints(rnd(k));
    points := [];
    var j := k + 1;
    var i := 0;
    while i < numPoints
      invariant 0 <= i <= numPoints
      invariant |points| == i && j == k + 1 + 3 * i
      invariant forall m :: 0 <= m < i ==> VertexOk(points[m], centerX, centerY, width, height, numPoints, m)
    {
      var angle := BaseAngle(i, numPoints);
      var baseRadiusX := width * 0.5;
      var baseRadiusY := height * 0.5;
      var variationX := Scaled(rnd(j), 0.7, 0.6);
      var variationY := Scaled(rnd(j + 1), 0.7, 0.6);
      var radiusVariationX := baseRadiusX * variationX;
      var radiusVariationY := baseRadiusY * variationY;
      RadiusWithin(width, variationX);
      RadiusWithin(height, variationY);
      var angleNoise := Jitter(rnd(j + 2), 0.3);
      var finalAngle := angle + angleNoise;
      points := points + [Vertex(centerX, centerY, finalAngle, radiusVariationX, radiusVariationY)];
      j := j + 3;
      i := i + 1;
    }
    next := j;
  }

  /** The gap between two consecutive even angles of an n-gon with at most 11
      vertices exceeds the 0.3 radians the noise can close. */
  lemma StepExceedsNoise(n: nat, i: nat, m: nat)
    requires 8 <= n <= 11 && i < m < n
    ensures BaseAngle(m, n) - BaseAngle(i, n) >= 2.0 * Pi / n as real
    ensures BaseAngle(m, n) - BaseAngle(i, n) <= 2.0 * Pi - 2.0 * Pi / n as real
    ensures 2.0 * Pi / n as real > 0.3
  {
    var step := 2.0 * Pi / n as real;
    assert BaseAngle(m, n) - BaseAngle(i, n) == (m - i) as real * step;
    assert (m - i) as real * step >= step;
    assert (m - i) as real * step <= (n - 1) as real * step;
    assert (n - 1) as real * step == 2.0 * Pi - step;
    assert step * n as real == 2.0 * Pi;
  }

  /** The angles the vertices of an outline are drawn at strictly increase
      within one turn of the first vertex's angle. */
  lemma OutlineAnglesIncrease(points: seq<Vertex>, cx: real, cy: real, w: real, h: real, i: nat, m: nat)
    requires Outline(points, cx, cy, w, h)
    requires i < m < |points|
    ensures points[i].angle < points[m].angle < points[i].angle + 2.0 * Pi
  {
    assert VertexOk(points[i], cx, cy, w, h, |points|, i);
    assert VertexOk(points[m], cx, cy, w, h, |points|, m);
    StepExceedsNoise(|points|, i, m);
  }
}
