/** The three edge weights of a triangle, in exact arithmetic: linear in the position, set up from
    the vertices once, and all negative exactly inside a visible triangle. */
module EdgeWeights {
  import opened Interpolation

  /** The coordinates of the three vertices, as the vertex registers hold them. */
  datatype Corners = Corners(x: V3, y: V3)

  function Clockwise(v: V3): V3 {
    V3(v.b, v.c, v.a)
  }

  function CounterClockwise(v: V3): V3 {
    V3(v.c, v.a, v.b)
  }

  function Minus(p: V3, q: V3): V3 {
    V3(p.a - q.a, p.b - q.b, p.c - q.c)
  }

  function DeltaX(t: Corners): V3 {
    Minus(CounterClockwise(t.y), Clockwise(t.y))
  }

  function DeltaY(t: Corners): V3 {
    Minus(Clockwise(t.x), CounterClockwise(t.x))
  }

  /** Twice the signed area; a triangle is visible when this is negative. */
  function Face(t: Corners): real {
    Dot(t.x, DeltaX(t))
  }

  /** The weights at the origin: the whole area is in the first, and the first vertex is where the
      other two vanish. */
  function AtOrigin(t: Corners): V3 {
    Minus(V3(Face(t), 0.0, 0.0), Plus(Times(t.x.a, DeltaX(t)), Times(t.y.a, DeltaY(t))))
  }

  function Weights(t: Corners, x: real, y: real): V3 {
    Plus(Times(x, DeltaX(t)), Plus(Times(y, DeltaY(t)), AtOrigin(t)))
  }

  function Get(v: V3, i: nat): real
    requires i < 3
  {
    if i == 0 then v.a else if i == 1 then v.b else v.c
  }

  /** Which side of the line from vertex i to vertex j the point is on. */
  function Side(t: Corners, i: nat, j: nat, x: real, y: real): real
    requires i < 3 && j < 3
  {
    (x - Get(t.x, i)) * (Get(t.y, j) - Get(t.y, i)) + (y - Get(t.y, i)) * (Get(t.x, i) - Get(t.x, j))
  }

  /** The first weight, with the area in it, and the other two. */
  lemma FirstSide(x0: real, y0: real, x1: real, y1: real, x2: real, y2: real, x: real, y: real)
    ensures x * (y2 - y1) + (y * (x1 - x2) + (x0 * (y2 - y1) + x1 * (y0 - y2) + x2 * (y1 - y0) - (x0 * (y2 - y1) + y0 * (x1 - x2))))
            == (x - x1) * (y2 - y1) + (y - y1) * (x1 - x2)
  {
  }

  lemma SecondSide(x0: real, y0: real, x2: real, y2: real, x: real, y: real)
    ensures x * (y0 - y2) + (y * (x2 - x0) + (0.0 - (x0 * (y0 - y2) + y0 * (x2 - x0))))
            == (x - x2) * (y0 - y2) + (y - y2) * (x2 - x0)
  {
  }

  lemma ThirdSide(x0: real, y0: real, x1: real, y1: real, x: real, y: real)
    ensures x * (y1 - y0) + (y * (x0 - x1) + (0.0 - (x0 * (y1 - y0) + y0 * (x0 - x1))))
            == (x - x0) * (y1 - y0) + (y - y0) * (x0 - x1)
  {
  }

  lemma FirstIsSide(t: Corners, x: real, y: real)
    ensures Weights(t, x, y).a == Side(t, 1, 2, x, y)
  {
    FirstSide(t.x.a, t.y.a, t.x.b, t.y.b, t.x.c, t.y.c, x, y);
  }

  lemma SecondIsSide(t: Corners, x: real, y: real)
    ensures Weights(t, x, y).b == Side(t, 2, 0, x, y)
  {
    SecondSide(t.x.a, t.y.a, t.x.c, t.y.c, x, y);
  }

  lemma ThirdIsSide(t: Corners, x: real, y: real)
    ensures Weights(t, x, y).c == Side(t, 0, 1, x, y)
  {
    ThirdSide(t.x.a, t.y.a, t.x.b, t.y.b, x, y);
  }

  /** Each weight belongs to the edge across from its vertex, although only the first vertex was
      used to set all three up. */
  lemma WeightIsSide(t: Corners, i: nat, x: real, y: real)
    requires i < 3
    ensures Get(Weights(t, x, y), i) == Side(t, (i + 1) % 3, (i + 2) % 3, x, y)
  {
    hide Weights, Side;
    FirstIsSide(t, x, y);
    SecondIsSide(t, x, y);
    ThirdIsSide(t, x, y);
  }

  lemma WeightsSumToFace(t: Corners, x: real, y: real)
    ensures var w := Weights(t, x, y); w.a + w.b + w.c == Face(t)
  {
    assert DeltaX(t).a + DeltaX(t).b + DeltaX(t).c == 0.0;
    assert DeltaY(t).a + DeltaY(t).b + DeltaY(t).c == 0.0;
    SumOfTimes(x, DeltaX(t));
    SumOfTimes(y, DeltaY(t));
    SumOfTimes(t.x.a, DeltaX(t));
    SumOfTimes(t.y.a, DeltaY(t));
  }

  lemma SumOfTimes(f: real, p: V3)
    requires p.a + p.b + p.c == 0.0
    ensures Times(f, p).a + Times(f, p).b + Times(f, p).c == 0.0
  {
    assert f * p.a + f * p.b + f * p.c == f * (p.a + p.b + p.c);
  }

  /** A weight vanishes all along the line through the other two vertices. */
  lemma VanishesOnEdge(t: Corners, i: nat, r: real, x: real, y: real)
    requires i < 3
    requires var j, k := (i + 1) % 3, (i + 2) % 3;
             x == Get(t.x, j) + r * (Get(t.x, k) - Get(t.x, j)) && y == Get(t.y, j) + r * (Get(t.y, k) - Get(t.y, j))
    ensures Get(Weights(t, x, y), i) == 0.0
  {
    hide Weights, Side, Get;
    WeightIsSide(t, i, x, y);
    SideOfPoint(t, (i + 1) % 3, (i + 2) % 3, r, x, y);
  }

  lemma SideOfPoint(t: Corners, j: nat, k: nat, r: real, x: real, y: real)
    requires j < 3 && k < 3
    requires x == Get(t.x, j) + r * (Get(t.x, k) - Get(t.x, j)) && y == Get(t.y, j) + r * (Get(t.y, k) - Get(t.y, j))
    ensures Side(t, j, k, x, y) == 0.0
  {
    hide Get;
    var dx, dy := Get(t.x, k) - Get(t.x, j), Get(t.y, k) - Get(t.y, j);
    assert x - Get(t.x, j) == r * dx && y - Get(t.y, j) == r * dy;
    assert Side(t, j, k, x, y) == (r * dx) * dy + (r * dy) * -dx;
    Cancel(r, dx, dy);
  }

  lemma Cancel(r: real, dx: real, dy: real)
    ensures (r * dx) * dy + (r * dy) * -dx == 0.0
  {
  }

  /** Two triangles that share an edge, running along it in opposite directions, have opposite
      weights for it at every point: no point is inside both. */
  lemma NoPixelTwice(t: Corners, u: Corners, i: nat, j: nat, x: real, y: real)
    requires i < 3 && j < 3
    requires Get(t.x, (i + 1) % 3) == Get(u.x, (j + 2) % 3) && Get(t.y, (i + 1) % 3) == Get(u.y, (j + 2) % 3)
    requires Get(t.x, (i + 2) % 3) == Get(u.x, (j + 1) % 3) && Get(t.y, (i + 2) % 3) == Get(u.y, (j + 1) % 3)
    ensures Get(Weights(t, x, y), i) == -Get(Weights(u, x, y), j)
    ensures !(Inside(t, x, y) && Inside(u, x, y))
  {
    hide Weights;
    WeightIsSide(t, i, x, y);
    WeightIsSide(u, j, x, y);
    SidesOpposite(Get(t.x, (i + 1) % 3), Get(t.y, (i + 1) % 3), Get(t.x, (i + 2) % 3), Get(t.y, (i + 2) % 3), x, y);
  }

  lemma SidesOpposite(x0: real, y0: real, x1: real, y1: real, x: real, y: real)
    ensures (x - x0) * (y1 - y0) + (y - y0) * (x0 - x1) == -((x - x1) * (y0 - y1) + (y - y1) * (x1 - x0))
  {
  }

  predicate Negative(w: V3) {
    w.a < 0.0 && w.b < 0.0 && w.c < 0.0
  }

  /** The pixel test. */
  predicate Inside(t: Corners, x: real, y: real) {
    Negative(Weights(t, x, y))
  }

  // ---- what the pixel test means ----

  /** The weights are the area times the barycentric coordinates. */
  lemma WeightsLocate(t: Corners, x: real, y: real)
    ensures Dot(Weights(t, x, y), t.x) == Face(t) * x && Dot(Weights(t, x, y), t.y) == Face(t) * y
  {
    FirstIsSide(t, x, y);
    SecondIsSide(t, x, y);
    ThirdIsSide(t, x, y);
    hide Weights;
    LocateX(t.x.a, t.y.a, t.x.b, t.y.b, t.x.c, t.y.c, x, y);
    LocateX(t.y.a, -t.x.a, t.y.b, -t.x.b, t.y.c, -t.x.c, y, -x);
  }

  lemma LocateX(x0: real, y0: real, x1: real, y1: real, x2: real, y2: real, x: real, y: real)
    ensures x0 * ((x - x1) * (y2 - y1) + (y - y1) * (x1 - x2)) + x1 * ((x - x2) * (y0 - y2) + (y - y2) * (x2 - x0))
            + x2 * ((x - x0) * (y1 - y0) + (y - y0) * (x0 - x1))
            == (x0 * (y2 - y1) + x1 * (y0 - y2) + x2 * (y1 - y0)) * x
  {
  }

  /** A proper mean of the three vertices, with weights adding to one. */
  predicate IsMean(t: Corners, m: V3, x: real, y: real) {
    m.a > 0.0 && m.b > 0.0 && m.c > 0.0 && m.a + m.b + m.c == 1.0 && Dot(m, t.x) == x && Dot(m, t.y) == y
  }

  function Scaled(w: V3, f: real): V3
    requires f != 0.0
  {
    V3(w.a / f, w.b / f, w.c / f)
  }

  /** For a visible triangle the test passes exactly for the points strictly between its vertices. */
  lemma InsideIsBetweenVertices(t: Corners, x: real, y: real)
    requires Face(t) < 0.0
    ensures Inside(t, x, y) <==> exists m :: IsMean(t, m, x, y)
  {
    var f := Face(t);
    var w := Weights(t, x, y);
    WeightsSumToFace(t, x, y);
    WeightsLocate(t, x, y);
    hide Weights, Face;
    if Inside(t, x, y) {
      InsideGivesMean(t, w, f, x, y);
    }
    if m :| IsMean(t, m, x, y) {
      MeanIsInside(t, m, x, y);
    }
  }

  lemma InsideGivesMean(t: Corners, w: V3, f: real, x: real, y: real)
    requires f < 0.0 && Negative(w) && w.a + w.b + w.c == f && Dot(w, t.x) == f * x && Dot(w, t.y) == f * y
    ensures IsMean(t, Scaled(w, f), x, y)
  {
    var m := Scaled(w, f);
    assert m.a + m.b + m.c == f / f;
    ScaledDot(w, f, t.x, x);
    ScaledDot(w, f, t.y, y);
  }

  lemma ScaledDot(w: V3, f: real, p: V3, x: real)
    requires f != 0.0 && Dot(w, p) == f * x
    ensures Dot(Scaled(w, f), p) == x
  {
    var m := Scaled(w, f);
    assert w.a == f * m.a && w.b == f * m.b && w.c == f * m.c;
    assert f * (m.a * p.a + m.b * p.b + m.c * p.c) == f * x;
  }

  lemma WeightsOfMean(t: Corners, m: V3, x: real, y: real)
    requires IsMean(t, m, x, y)
    ensures var w, f := Weights(t, x, y), Face(t); w.a == m.a * f && w.b == m.b * f && w.c == m.c * f
  {
    hide Weights, Face, IsMean;
    WeightOfMean(t, m, 0, x, y);
    WeightOfMean(t, m, 1, x, y);
    WeightOfMean(t, m, 2, x, y);
  }

  lemma MeanIsInside(t: Corners, m: V3, x: real, y: real)
    requires Face(t) < 0.0 && IsMean(t, m, x, y)
    ensures Inside(t, x, y)
  {
    var f := Face(t);
    assert m.a > 0.0 && m.b > 0.0 && m.c > 0.0;
    hide Weights, Face, IsMean;
    WeightsOfMean(t, m, x, y);
    Shrinks(m.a, f);
    Shrinks(m.b, f);
    Shrinks(m.c, f);
  }

  lemma Shrinks(p: real, f: real)
    requires p > 0.0 && f < 0.0
    ensures p * f < 0.0
  {
  }

  lemma WeightOfMean(t: Corners, m: V3, i: nat, x: real, y: real)
    requires i < 3 && IsMean(t, m, x, y)
    ensures Get(Weights(t, x, y), i) == Get(m, i) * Face(t)
  {
    hide Weights, Face, FaceFrom, Get, IsMean, Side;
    WeightIsSide(t, i, x, y);
    FaceTurns(t, i);
    SideOfMean(t, m, i, x, y);
  }

  lemma SideOfMean(t: Corners, m: V3, i: nat, x: real, y: real)
    requires i < 3 && IsMean(t, m, x, y)
    ensures Side(t, (i + 1) % 3, (i + 2) % 3, x, y) == Get(m, i) * FaceFrom(t, i)
  {
    hide IsMean, Get;
    var j, k := (i + 1) % 3, (i + 2) % 3;
    MeanTurns(t, m, i, x, y);
    MeanSide(Get(t.x, i), Get(t.y, i), Get(t.x, j), Get(t.y, j), Get(t.x, k), Get(t.y, k), Get(m, i), Get(m, j), Get(m, k), x, y);
  }

  lemma MeanTurns(t: Corners, m: V3, i: nat, x: real, y: real)
    requires i < 3 && IsMean(t, m, x, y)
    ensures var j, k := (i + 1) % 3, (i + 2) % 3;
            && Get(m, i) + Get(m, j) + Get(m, k) == 1.0
            && x == Get(m, i) * Get(t.x, i) + Get(m, j) * Get(t.x, j) + Get(m, k) * Get(t.x, k)
            && y == Get(m, i) * Get(t.y, i) + Get(m, j) * Get(t.y, j) + Get(m, k) * Get(t.y, k)
  {
  }

  lemma MeanSide(x0: real, y0: real, x1: real, y1: real, x2: real, y2: real, p: real, q: real, r: real, x: real, y: real)
    requires p + q + r == 1.0 && x == p * x0 + q * x1 + r * x2 && y == p * y0 + q * y1 + r * y2
    ensures (x - x1) * (y2 - y1) + (y - y1) * (x1 - x2) == p * (x0 * (y2 - y1) + x1 * (y0 - y2) + x2 * (y1 - y0))
  {
    var q' := 1.0 - p - r;
    assert q == q';
    assert x - x1 == p * (x0 - x1) + r * (x2 - x1);
    assert y - y1 == p * (y0 - y1) + r * (y2 - y1);
    var u, v, s, d := x0 - x1, y0 - y1, x2 - x1, y2 - y1;
    assert (p * u + r * s) * d + (p * v + r * d) * -s == p * (u * d - v * s);
  }

  /** The area, taking vertex i as the first. */
  function FaceFrom(t: Corners, i: nat): real
    requires i < 3
  {
    var j, k := (i + 1) % 3, (i + 2) % 3;
    Get(t.x, i) * (Get(t.y, k) - Get(t.y, j)) + Get(t.x, j) * (Get(t.y, i) - Get(t.y, k)) + Get(t.x, k) * (Get(t.y, j) - Get(t.y, i))
  }

  /** The area does not depend on which vertex comes first. */
  lemma FaceTurns(t: Corners, i: nat)
    requires i < 3
    ensures Face(t) == FaceFrom(t, i)
  {
  }
}
