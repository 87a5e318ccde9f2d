/** From the vertices to the pixels: the producer's blocks and the fill's stepping together test
    every pixel of the screen that is inside the triangle, once, and draw no other. */
module Rasteriser {
  import opened Division
  import opened Interpolation
  import opened EdgeWeights
  import opened BlockProducer
  import TextureFill

  /** The screen coordinates of lane l of quad q of block n. */
  function PixelX(r: Rect, n: nat, q: nat, l: nat): int
    requires Proper(r)
  {
    32 * Column(r, n) + 4 * (q % 8) + l
  }

  function PixelY(r: Rect, n: nat, q: nat): int
    requires Proper(r)
  {
    32 * Row(r, n) + q / 8
  }

  lemma WeightsPlus(t: Corners, x: real, y: real, u: real, v: real)
    ensures Plus(Weights(t, x, y), Plus(Times(u, DeltaX(t)), Times(v, DeltaY(t)))) == Weights(t, x + u, y + v)
  {
    hide AtOrigin, DeltaX, DeltaY;
    TimesPlus(x, u, DeltaX(t));
    TimesPlus(y, v, DeltaY(t));
    hide Times;
  }

  lemma WeightsRight(t: Corners, x: real, y: real, u: real)
    ensures Plus(Weights(t, x, y), Times(u, DeltaX(t))) == Weights(t, x + u, y)
  {
    hide AtOrigin, DeltaX, DeltaY;
    TimesPlus(x, u, DeltaX(t));
    hide Times;
  }

  /** The weights that the fill works with at quad q of a block are those of the quad's place. */
  lemma QuadWeights(t: Corners, tri: Tri, x: int, y: int, q: nat)
    requires tri.dx == DeltaX(t) && tri.dy == DeltaY(t)
    ensures Interpolation.At(tri, CornerWeights(t, x, y), q) ==
            Weights(t, (32 * x + 4 * (q % 8)) as real, (32 * y + q / 8) as real)
  {
    WeightsPlus(t, (32 * x) as real, (32 * y) as real, (4 * (q % 8)) as real, (q / 8) as real);
  }

  /** A lane of the fill's mask is set exactly if its pixel is inside the triangle. */
  lemma MaskIsInside(t: Corners, tri: Tri, x: int, y: int, q: nat, l: nat)
    requires tri.dx == DeltaX(t) && tri.dy == DeltaY(t) && l < 4
    ensures var v := Begin(tri, Interpolation.At(tri, CornerWeights(t, x, y), q));
            TextureFill.Mask(v)[l] <==> Inside(t, (32 * x + 4 * (q % 8) + l) as real, (32 * y + q / 8) as real)
  {
    QuadWeights(t, tri, x, y, q);
    var px, py := (32 * x + 4 * (q % 8)) as real, (32 * y + q / 8) as real;
    assert (32 * x + 4 * (q % 8) + l) as real == px + l as real;
    WeightsRight(t, px, py, l as real);
    hide Interpolation.At, CornerWeights;
    LaneWeights(tri, Weights(t, px, py), l);
  }

  lemma LaneWeights(tri: Tri, A: V3, l: nat)
    requires l < 4
    ensures TextureFill.Mask(Begin(tri, A))[l] == Negative(Plus(A, Times(l as real, tri.dx)))
  {
    hide Extract, MipmapWeights;
  }

  // ---- the rectangle ----

  lemma MeanIsBetween(m: V3, v: V3, lo: real, hi: real, x: real)
    requires m.a > 0.0 && m.b > 0.0 && m.c > 0.0 && m.a + m.b + m.c == 1.0 && Dot(m, v) == x
    requires lo <= v.a <= hi && lo <= v.b <= hi && lo <= v.c <= hi
    ensures lo <= x <= hi
  {
    hide Dot;
    MeanMoves(m, v, lo);
    MeanMoves(m, v, hi);
    NotNegative(m, V3(v.a - lo, v.b - lo, v.c - lo));
    NotNegative(m, V3(hi - v.a, hi - v.b, hi - v.c));
  }

  lemma MeanMoves(m: V3, v: V3, f: real)
    requires m.a + m.b + m.c == 1.0
    ensures Dot(m, V3(v.a - f, v.b - f, v.c - f)) == Dot(m, v) - f
    ensures Dot(m, V3(f - v.a, f - v.b, f - v.c)) == f - Dot(m, v)
  {
    var s := m.a + m.b + m.c;
    assert Dot(m, V3(v.a - f, v.b - f, v.c - f)) == Dot(m, v) - s * f;
    assert Dot(m, V3(f - v.a, f - v.b, f - v.c)) == s * f - Dot(m, v);
  }

  lemma NotNegative(m: V3, d: V3)
    requires m.a > 0.0 && m.b > 0.0 && m.c > 0.0 && d.a >= 0.0 && d.b >= 0.0 && d.c >= 0.0
    ensures Dot(m, d) >= 0.0
  {
    assert m.a * d.a >= 0.0 && m.b * d.b >= 0.0 && m.c * d.c >= 0.0;
  }

  lemma FlatHasNoArea(t: Corners)
    requires t.x.a == t.x.b == t.x.c || t.y.a == t.y.b == t.y.c
    ensures Face(t) == 0.0
  {
    var x := t.x.a;
    assert x * (t.y.c - t.y.b) + x * (t.y.a - t.y.c) + x * (t.y.b - t.y.a) == 0.0;
  }

  /** A triangle with an area is neither a vertical nor a horizontal line. */
  lemma VisibleHasExtent(t: Corners)
    requires Face(t) < 0.0
    ensures Compared(t.x) != 0 && Compared(t.y) != 0
  {
    hide Face;
    ExtremesAreRight(t.x);
    ExtremesAreRight(t.y);
    if Compared(t.x) == 0 || Compared(t.y) == 0 {
      FlatHasNoArea(t);
    }
  }

  /** The part of a side of the screen that is made of whole blocks. */
  function Whole(size: int): int {
    size / 32 * 32
  }

  lemma ClipsAround(lo: real, hi: real, size: int, x: int)
    requires lo <= x as real <= hi && 0 <= x < Whole(size)
    ensures 0 <= ClipLow(lo) / 32 <= x / 32 <= ClipHigh(hi, size) / 32 < size / 32
  {
    assert Truncated(lo) <= x;
    assert x <= Truncated(hi);
    var k := size / 32;
    assert (size - 32) / 32 == k - 1 && x / 32 <= k - 1;
  }

  /** No point of the screen's whole blocks that is inside a visible triangle is outside the
      triangle's blocks. */
  lemma BoundsCover(t: Corners, width: int, height: int, x: int, y: int)
    requires Face(t) < 0.0 && 0 <= x < Whole(width) && 0 <= y < Whole(height)
    ensures var r := Bounds(t, width, height);
            Inside(t, x as real, y as real) ==>
              0 <= r.left <= x / 32 <= r.right < width / 32 && 0 <= r.top <= y / 32 <= r.bottom < height / 32
  {
    hide Face, Inside, Lowest, Highest, Compared, ClipLow, ClipHigh;
    if Inside(t, x as real, y as real) {
      InsideIsBetweenVertices(t, x as real, y as real);
      var m :| IsMean(t, m, x as real, y as real);
      VisibleHasExtent(t);
      ExtremesAreRight(t.x);
      ExtremesAreRight(t.y);
      MeanIsBetween(m, t.x, Lowest(t.x), Highest(t.x), x as real);
      MeanIsBetween(m, t.y, Lowest(t.y), Highest(t.y), y as real);
      ClipsAround(Lowest(t.x), Highest(t.x), width, x);
      ClipsAround(Lowest(t.y), Highest(t.y), height, y);
    }
  }

  lemma LowReach(lo: real)
    ensures 0 <= ClipLow(lo) / 32 && lo < (32 * (ClipLow(lo) / 32 + 1)) as real
  {
    var k := ClipLow(lo);
    assert lo < (k + 1) as real && k + 1 <= 32 * (k / 32 + 1);
  }

  lemma HighReach(hi: real, size: int)
    ensures ClipHigh(hi, size) / 32 <= (size - 32) / 32 && hi > (32 * (ClipHigh(hi, size) / 32)) as real - 1.0
  {
    var k := ClipHigh(hi, size);
    assert k <= Truncated(hi) && Truncated(hi) as real < hi + 1.0;
    assert 32 * (k / 32) <= k;
  }

  /** The rectangle reaches no further than the triangle and the screen: some vertex is left of the end of
      its first column of blocks, some right of the start of its last, and so for the rows. */
  lemma BoundsReach(t: Corners, width: int, height: int)
    requires Face(t) < 0.0
    ensures var r := Bounds(t, width, height);
            && 0 <= r.left && 0 <= r.top && r.right <= (width - 32) / 32 && r.bottom <= (height - 32) / 32
            && (exists i :: 0 <= i < 3 && Get(t.x, i) < (32 * (r.left + 1)) as real)
            && (exists i :: 0 <= i < 3 && Get(t.x, i) > (32 * r.right) as real - 1.0)
            && (exists i :: 0 <= i < 3 && Get(t.y, i) < (32 * (r.top + 1)) as real)
            && (exists i :: 0 <= i < 3 && Get(t.y, i) > (32 * r.bottom) as real - 1.0)
  {
    VisibleHasExtent(t);
    ExtremesAreRight(t.x);
    ExtremesAreRight(t.y);
    hide Face, Lowest, Highest, Compared, ClipLow, ClipHigh, Get;
    LowReach(Lowest(t.x));
    LowReach(Lowest(t.y));
    HighReach(Highest(t.x), width);
    HighReach(Highest(t.y), height);
  }

  // ---- all the pixels ----

  /** The triangle has the fill draw lane l of quad q of block n. */
  predicate Draws(t: Corners, tri: Tri, r: Rect, n: nat, q: nat, l: nat)
    requires Proper(r) && l < 4
  {
    var block := Produce(AfterCalls(t, r, n)).0;
    TextureFill.Mask(Begin(tri, Interpolation.At(tri, block.A, q)))[l]
  }

  lemma DrawsIfInside(t: Corners, tri: Tri, r: Rect, n: nat, q: nat, l: nat)
    requires Proper(r) && n < Total(r) && q < QUADS && l < 4 && tri.dx == DeltaX(t) && tri.dy == DeltaY(t)
    ensures Draws(t, tri, r, n, q, l) <==> Inside(t, PixelX(r, n, q, l) as real, PixelY(r, n, q) as real)
  {
    hide CornerWeights, Begin, Interpolation.At, Inside, TextureFill.Mask, AfterCalls, Column, Row, Total;
    BlocksInOrder(t, r, n);
    MaskIsInside(t, tri, Column(r, n), Row(r, n), q, l);
  }

  lemma SplitPixel(x: int, y: int)
    requires 0 <= x && 0 <= y
    ensures var q, l := 8 * (y % 32) + x % 32 / 4, x % 4;
            && 0 <= q < QUADS && q % 8 == x % 32 / 4 && q / 8 == y % 32
            && x == 32 * (x / 32) + 4 * (q % 8) + l && y == 32 * (y / 32) + q / 8
  {
    SplitAcross(x);
    Parts(y, 32);
    DivUnique(8 * (y % 32) + x % 32 / 4, 8, y % 32, x % 32 / 4);
  }

  lemma SplitAcross(x: int)
    requires 0 <= x
    ensures 0 <= x % 32 / 4 < 8 && x == 32 * (x / 32) + 4 * (x % 32 / 4) + x % 4
  {
    Parts(x, 32);
    Parts(x % 32, 4);
    DivUnique(x, 4, 8 * (x / 32) + x % 32 / 4, x % 32 % 4);
  }

  lemma JoinAcross(x: int, c: int, m: int, l: int)
    requires x == 32 * c + 4 * m + l && 0 <= m < 8 && 0 <= l < 4
    ensures c == x / 32 && m == x % 32 / 4 && l == x % 4
  {
    DivUnique(x, 32, c, 4 * m + l);
    DivUnique(4 * m + l, 4, m, l);
    DivUnique(x, 4, 8 * c + m, l);
  }

  lemma JoinPixel(x: int, y: int, c: int, d: int, q: nat, l: nat)
    requires q < QUADS && l < 4 && x == 32 * c + 4 * (q % 8) + l && y == 32 * d + q / 8
    ensures c == x / 32 && d == y / 32 && q == 8 * (y % 32) + x % 32 / 4 && l == x % 4
  {
    var m, n := q % 8, q / 8;
    assert q == 8 * n + m && 0 <= n < 32;
    JoinAcross(x, c, m, l);
    DivUnique(y, 32, d, n);
  }

  /** The place in the drawing of a pixel: block, quad and lane. */
  function BlockOf(r: Rect, x: int, y: int): int {
    (y / 32 - r.top) * Wide(r) + (x / 32 - r.left)
  }

  /** Each pixel of the screen's whole blocks that is inside a visible triangle is drawn at one place
      of the drawing of the triangle's blocks, and at no other. */
  lemma InsideIsDrawnOnce(t: Corners, tri: Tri, width: int, height: int, x: int, y: int)
    requires Face(t) < 0.0 && tri.dx == DeltaX(t) && tri.dy == DeltaY(t)
    requires width <= 8192 && height <= 8192 && 0 <= x < Whole(width) && 0 <= y < Whole(height)
    ensures var r := Bounds(t, width, height);
            Inside(t, x as real, y as real) ==>
              && Proper(r)
              && var n, q, l := BlockOf(r, x, y), 8 * (y % 32) + x % 32 / 4, x % 4;
                 && 0 <= n < Total(r) && 0 <= q < QUADS && Draws(t, tri, r, n, q, l)
                 && forall i: nat, j: nat, k: nat :: i < Total(r) && j < QUADS && k < 4 ==>
                      (PixelX(r, i, j, k) == x && PixelY(r, i, j) == y <==> (i, j, k) == (n, q, l))
  {
    BoundsCover(t, width, height, x, y);
    hide Face, Inside, Draws, Bounds, Total;
    if Inside(t, x as real, y as real) {
      var r := Bounds(t, width, height);
      OnePlace(r, x, y);
      var n, q, l := BlockOf(r, x, y), 8 * (y % 32) + x % 32 / 4, x % 4;
      DrawsIfInside(t, tri, r, n, q, l);
    }
  }

  lemma OnePlace(r: Rect, x: int, y: int)
    requires Proper(r) && r.left <= x / 32 <= r.right && r.top <= y / 32 <= r.bottom
    ensures var n, q, l := BlockOf(r, x, y), 8 * (y % 32) + x % 32 / 4, x % 4;
            && 0 <= n < Total(r) && 0 <= q < QUADS && PixelX(r, n, q, l) == x && PixelY(r, n, q) == y
            && forall i: nat, j: nat, k: nat :: i < Total(r) && j < QUADS && k < 4 ==>
                 (PixelX(r, i, j, k) == x && PixelY(r, i, j) == y <==> (i, j, k) == (n, q, l))
  {
    EachBlockOnce(r, x / 32, y / 32);
    SplitPixel(x, y);
    hide Column, Row, Total, Wide;
    var n, q, l := BlockOf(r, x, y), 8 * (y % 32) + x % 32 / 4, x % 4;
    forall i: nat, j: nat, k: nat | i < Total(r) && j < QUADS && k < 4
      ensures PixelX(r, i, j, k) == x && PixelY(r, i, j) == y <==> (i, j, k) == (n, q, l)
    {
      if PixelX(r, i, j, k) == x && PixelY(r, i, j) == y {
        LastRow(r, i);
        JoinPixel(x, y, Column(r, i), Row(r, i), j, k);
      }
    }
  }
}
