/** What the fill's interpolated variables are: at each pixel, each attribute's own vertex values weighted
    with the exact edge weights of that pixel. */
module Attributes {
  import opened Interpolation
  import opened EdgeWeights
  import opened BlockProducer
  import opened Rasteriser

  /** An attribute at a point: the sum of its three vertex values, each times the weight of its vertex. */
  function Value(t: Corners, attribute: V3, x: real, y: real): real {
    Dot(Weights(t, x, y), attribute)
  }

  function Lane(v: V4, l: nat): real
    requires l < 4
  {
    if l == 0 then v.x else if l == 1 then v.y else if l == 2 then v.z else v.w
  }

  /** The values of w, s and t at a point. */
  function Values(t: Corners, tri: Tri, x: real, y: real): V3 {
    V3(Value(t, tri.w, x, y), Value(t, tri.s, x, y), Value(t, tri.t, x, y))
  }

  /** The volume that three vectors span. */
  function Volume(p: V3, q: V3, r: V3): real {
    p.a * (q.b * r.c - q.c * r.b) + p.b * (q.c * r.a - q.a * r.c) + p.c * (q.a * r.b - q.b * r.a)
  }

  // ---- along the pixels ----

  lemma DotTurns(p: V3, q: V3)
    ensures Dot(p, q) == Dot(q, p)
  {
  }

  lemma DotSum(p: V3, q: V3, r: V3)
    ensures Dot(Plus(p, q), r) == Dot(p, r) + Dot(r, q)
  {
    DotPlus(r, p, q);
    DotTurns(r, Plus(p, q));
    DotTurns(r, p);
  }

  /** One pixel to the right, and one down. */
  lemma ValueSteps(t: Corners, attribute: V3, x: real, y: real)
    ensures Value(t, attribute, x + 1.0, y) == Value(t, attribute, x, y) + Dot(attribute, DeltaX(t))
    ensures Value(t, attribute, x, y + 1.0) == Value(t, attribute, x, y) + Dot(attribute, DeltaY(t))
  {
    hide Weights, DeltaX, DeltaY, Dot;
    WeightsStep(t, x, y);
    DotSum(Weights(t, x, y), DeltaX(t), attribute);
    DotSum(Weights(t, x, y), DeltaY(t), attribute);
  }

  lemma WeightsStep(t: Corners, x: real, y: real)
    ensures Weights(t, x + 1.0, y) == Plus(Weights(t, x, y), DeltaX(t))
    ensures Weights(t, x, y + 1.0) == Plus(Weights(t, x, y), DeltaY(t))
  {
    hide DeltaX, DeltaY, AtOrigin;
    WeightsPlus(t, x, y, 1.0, 0.0);
    WeightsPlus(t, x, y, 0.0, 1.0);
  }

  // ---- the variables ----

  /** Lane l of what is interpolated from a quad's lanes belongs to the weights l pixels on. */
  lemma ExtractedLane(what: V3, A: V3, dx: V3, l: nat)
    requires l < 4
    ensures Lane(Extract(what, Lanes(A.a, dx.a), Lanes(A.b, dx.b), Lanes(A.c, dx.c)), l)
            == Dot(what, Plus(A, Times(l as real, dx)))
  {
  }

  lemma BeginLane(tri: Tri, A: V3, l: nat)
    requires l < 4
    ensures var v, at := Begin(tri, A), Plus(A, Times(l as real, tri.dx));
            && Lane(v.w, l) == Dot(at, tri.w) && Lane(v.s, l) == Dot(at, tri.s) && Lane(v.t, l) == Dot(at, tri.t)
            && Lane(v.k, l) == Dot(MipmapWeights(tri), V3(Lane(v.w, l), Lane(v.s, l), Lane(v.t, l)))
  {
    hide Dot, MipmapWeights, Lanes;
    var at := Plus(A, Times(l as real, tri.dx));
    ExtractedLane(tri.w, A, tri.dx, l);
    ExtractedLane(tri.s, A, tri.dx, l);
    ExtractedLane(tri.t, A, tri.dx, l);
    DotTurns(tri.w, at);
    DotTurns(tri.s, at);
    DotTurns(tri.t, at);
    hide Plus, Times;
  }

  /** The volume spanned by a vector and its two steps is that with the steps alone. */
  lemma VolumeOfSteps(p: V3, gx: V3, gy: V3)
    ensures Volume(p, Plus(p, gx), Plus(p, gy))
            == Dot(V3(gx.b * gy.c - gy.b * gx.c, gx.c * gy.a - gy.c * gx.a, gx.a * gy.b - gy.a * gx.b), p)
  {
  }

  lemma CrossIsMipmap(tri: Tri, gx: V3, gy: V3)
    requires gx == V3(Dot(tri.w, tri.dx), Dot(tri.s, tri.dx), Dot(tri.t, tri.dx))
    requires gy == V3(Dot(tri.w, tri.dy), Dot(tri.s, tri.dy), Dot(tri.t, tri.dy))
    ensures V3(gx.b * gy.c - gy.b * gx.c, gx.c * gy.a - gy.c * gx.a, gx.a * gy.b - gy.a * gx.b) == MipmapWeights(tri)
  {
    hide Dot;
  }

  /** Where the mipmap level comes from: the volume spanned by (w, s, t) at the point and at its
      neighbours to the right and below. */
  lemma MipmapIsVolume(t: Corners, tri: Tri, x: real, y: real)
    requires tri.dx == DeltaX(t) && tri.dy == DeltaY(t)
    ensures Dot(MipmapWeights(tri), Values(t, tri, x, y))
            == Volume(Values(t, tri, x, y), Values(t, tri, x + 1.0, y), Values(t, tri, x, y + 1.0))
  {
    ValueSteps(t, tri.w, x, y);
    ValueSteps(t, tri.s, x, y);
    ValueSteps(t, tri.t, x, y);
    hide Value, DeltaX, DeltaY;
    var gx := V3(Dot(tri.w, tri.dx), Dot(tri.s, tri.dx), Dot(tri.t, tri.dx));
    var gy := V3(Dot(tri.w, tri.dy), Dot(tri.s, tri.dy), Dot(tri.t, tri.dy));
    VolumeOfSteps(Values(t, tri, x, y), gx, gy);
    CrossIsMipmap(tri, gx, gy);
    hide Dot, Volume, MipmapWeights;
    assert Values(t, tri, x + 1.0, y) == Plus(Values(t, tri, x, y), gx);
    assert Values(t, tri, x, y + 1.0) == Plus(Values(t, tri, x, y), gy);
  }

  /** At each lane of each quad of each block handed out, w, s and t are their own vertex values weighted
      with the edge weights at the pixel, and k is the volume that they span with their neighbours. */
  lemma AttributesAtPixel(t: Corners, tri: Tri, r: Rect, n: nat, q: nat, l: nat)
    requires Proper(r) && n < Total(r) && q < Interpolation.QUADS && l < 4 && tri.dx == DeltaX(t) && tri.dy == DeltaY(t)
    ensures var v := Begin(tri, Interpolation.At(tri, Produce(AfterCalls(t, r, n)).0.A, q));
            var x, y := PixelX(r, n, q, l) as real, PixelY(r, n, q) as real;
            && Lane(v.w, l) == Value(t, tri.w, x, y) && Lane(v.s, l) == Value(t, tri.s, x, y) && Lane(v.t, l) == Value(t, tri.t, x, y)
            && Lane(v.k, l) == Volume(Values(t, tri, x, y), Values(t, tri, x + 1.0, y), Values(t, tri, x, y + 1.0))
  {
    hide CornerWeights, Begin, Interpolation.At, AfterCalls, Column, Row, Total, MipmapWeights, Volume, Dot, Lane;
    BlocksInOrder(t, r, n);
    PixelWeights(t, tri, Column(r, n), Row(r, n), q, l);
    BeginLane(tri, Interpolation.At(tri, CornerWeights(t, Column(r, n), Row(r, n)), q), l);
    MipmapIsVolume(t, tri, PixelX(r, n, q, l) as real, PixelY(r, n, q) as real);
  }

  lemma PixelWeights(t: Corners, tri: Tri, x: int, y: int, q: nat, l: nat)
    requires tri.dx == DeltaX(t) && tri.dy == DeltaY(t) && l < 4
    ensures Plus(Interpolation.At(tri, CornerWeights(t, x, y), q), Times(l as real, tri.dx))
            == Weights(t, (32 * x + 4 * (q % 8) + l) as real, (32 * y + q / 8) as real)
  {
    QuadWeights(t, tri, x, y, q);
    var px, py := (32 * x + 4 * (q % 8)) as real, (32 * y + q / 8) as real;
    assert (32 * x + 4 * (q % 8) + l) as real == px + l as real;
    WeightsRight(t, px, py, l as real);
    hide Interpolation.At, CornerWeights, Weights;
  }

  // ---- what such a value is ----

  lemma WeightsAtVertex(t: Corners, i: nat, j: nat)
    requires i < 3 && j < 3
    ensures Get(Weights(t, Get(t.x, i), Get(t.y, i)), j) == if i == j then Face(t) else 0.0
  {
    hide Weights, Face, Get;
    var x, y := Get(t.x, i), Get(t.y, i);
    var k, m := (i + 1) % 3, (i + 2) % 3;
    VanishesOnEdge(t, k, 1.0, x, y);
    VanishesOnEdge(t, m, 0.0, x, y);
    ThreeWeights(t, i, x, y);
  }

  lemma ThreeWeights(t: Corners, i: nat, x: real, y: real)
    requires i < 3
    ensures Get(Weights(t, x, y), i) + Get(Weights(t, x, y), (i + 1) % 3) + Get(Weights(t, x, y), (i + 2) % 3) == Face(t)
  {
    WeightsSumToFace(t, x, y);
    hide Weights, Face;
  }

  /** At a vertex the value is the vertex's own, times the area. */
  lemma ValueAtVertex(t: Corners, attribute: V3, i: nat)
    requires i < 3
    ensures Value(t, attribute, Get(t.x, i), Get(t.y, i)) == Face(t) * Get(attribute, i)
  {
    WeightsAtVertex(t, i, 0);
    WeightsAtVertex(t, i, 1);
    WeightsAtVertex(t, i, 2);
    hide Weights, Face;
  }

  /** An attribute that is the vertices' position comes out as the pixel's, and a constant one as itself,
      times the area. */
  lemma ValueOfPosition(t: Corners, c: real, x: real, y: real)
    ensures Value(t, t.x, x, y) == Face(t) * x && Value(t, t.y, x, y) == Face(t) * y
    ensures Value(t, V3(c, c, c), x, y) == Face(t) * c
  {
    WeightsLocate(t, x, y);
    WeightsSumToFace(t, x, y);
    hide Weights, Face;
    ConstantDot(Weights(t, x, y), c);
  }

  lemma ConstantDot(p: V3, c: real)
    ensures Dot(p, V3(c, c, c)) == (p.a + p.b + p.c) * c
  {
  }
}
