/** What a block of a triangle does to its tile, pixel by pixel: the pixels inside the triangle get the
    shader's colour for the attributes at that very pixel, and all others stay. */
module DrawnTile {
  import opened Interpolation
  import opened EdgeWeights
  import opened BlockProducer
  import opened Rasteriser
  import opened Attributes
  import opened TextureCache
  import opened CyclicReplacement
  import opened TextureFill
  import opened TextureStalls

  /** The four textures of a quad, as they are. */
  function Textures(want: Want): seq<Content> {
    seq(LANES, l requires 0 <= l < LANES => Pixels(want[l]))
  }

  /** The variables of quad q of block n. */
  function VarsOf(t: Corners, tri: Tri, r: Rect, n: nat, q: nat): Vars
    requires Proper(r)
  {
    Begin(tri, Interpolation.At(tri, Produce(AfterCalls(t, r, n)).0.A, q))
  }

  lemma QuadOfIdeal(sh: Shader, tri: Tri, A: V3, tile: Tile, q: nat, l: nat)
    requires q < Interpolation.QUADS && l < LANES
    ensures var v := Begin(tri, Interpolation.At(tri, A, q));
            Ideal(sh, tri, A, tile, Interpolation.QUADS)[q][l] ==
            if Mask(v)[l] then sh.colour(v, Textures(sh.ids(v)))[l] else tile[q][l]
  {
    hide Begin, Interpolation.At, Mask;
    var v := Begin(tri, Interpolation.At(tri, A, q));
    LaneOfQuad(sh, v, tile[q], l);
    hide IdealQuad;
  }

  lemma LaneOfQuad(sh: Shader, v: Vars, current: Quad, l: nat)
    requires l < LANES
    ensures IdealQuad(sh, v, current)[l] == if Mask(v)[l] then sh.colour(v, Textures(sh.ids(v)))[l] else current[l]
  {
    hide Mask;
    assert Mask(v)[l] ==> true in Mask(v);
    assert seq(LANES, k requires 0 <= k < LANES => Pixels(sh.ids(v)[k])) == Textures(sh.ids(v));
  }

  /** The fill of block n of a triangle, with one active block, whatever was in the cache and however often
      it stalls: it ends, and lane l of quad q then has the shader's colour if its pixel is inside the
      triangle, from the four textures of the quad and from w, s, t and k at that pixel; otherwise it is as
      it was. */
  lemma TileIsDrawn(sh: Shader, t: Corners, tri: Tri, r: Rect, n: nat, c: Cache, tile: Tile, q: nat, l: nat)
    requires Proper(r) && n < Total(r) && q < Interpolation.QUADS && l < LANES && tri.dx == DeltaX(t) && tri.dy == DeltaY(t) && Settled(c)
    ensures var A := Produce(AfterCalls(t, r, n)).0.A;
            var v := VarsOf(t, tri, r, n, q);
            var x, y := PixelX(r, n, q, l) as real, PixelY(r, n, q) as real;
            var done := Drive(sh, tri, c, A, Interpolation.QUADS, 0, tile, 4 * Interpolation.QUADS);
            && done.Done?
            && done.tile[q][l] == (if Inside(t, x, y) then sh.colour(v, Textures(sh.ids(v)))[l] else tile[q][l])
            && Lane(v.w, l) == Value(t, tri.w, x, y) && Lane(v.s, l) == Value(t, tri.s, x, y) && Lane(v.t, l) == Value(t, tri.t, x, y)
            && Lane(v.k, l) == Volume(Values(t, tri, x, y), Values(t, tri, x + 1.0, y), Values(t, tri, x, y + 1.0))
  {
    hide Settled, Drive, Ideal, Inside, Value, Volume, Values, Lane, Begin, Interpolation.At, AfterCalls, Mask, Column, Row, Total;
    FillTerminates(sh, tri, c, Produce(AfterCalls(t, r, n)).0.A, tile);
    QuadOfIdeal(sh, tri, Produce(AfterCalls(t, r, n)).0.A, tile, q, l);
    DrawsIfInside(t, tri, r, n, q, l);
    AttributesAtPixel(t, tri, r, n, q, l);
  }
}
