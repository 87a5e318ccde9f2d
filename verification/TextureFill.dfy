/** The texture fill of one tile: four pixels at a time, giving up at any quad whose textures are
    not in the cache and taking up there again when they have been loaded. */
module TextureFill {
  import opened Interpolation
  import opened TextureCache
  import opened CyclicReplacement

  type Want = s: seq<Id> | |s| == LANES && forall l :: 0 <= l < LANES ==> s[l] != NONE
    witness [0, 0, 0, 0]
  const BLANK_WANT: Want := [0, 0, 0, 0]

  type Quad = q: seq<bv32> | |q| == LANES witness BLACK
  type Tile = t: seq<Quad> | |t| == QUADS witness seq(QUADS, q => BLACK)
  const BLACK: seq<bv32> := [0, 0, 0, 0]

  /** The choice of texture blocks and the filtering of their pixels, whatever they are. */
  datatype Shader = Shader(ids: Vars -> Want, colour: (Vars, seq<Content>) -> Quad)

  /** A pixel is inside where all three weights are negative. */
  function Mask(v: Vars): (r: seq<bool>)
    ensures |r| == LANES
  {
    [v.aa.x < 0.0 && v.ab.x < 0.0 && v.ac.x < 0.0, v.aa.y < 0.0 && v.ab.y < 0.0 && v.ac.y < 0.0,
     v.aa.z < 0.0 && v.ab.z < 0.0 && v.ac.z < 0.0, v.aa.w < 0.0 && v.ab.w < 0.0 && v.ac.w < 0.0]
  }

  function Select(mask: seq<bool>, current: Quad, colour: Quad): Quad
    requires |mask| == LANES
  {
    seq(LANES, l requires 0 <= l < LANES => if mask[l] then colour[l] else current[l])
  }

  function Found(c: Cache, want: Want): seq<Content>
    requires Shape(c) && true !in Missing(c, want)
  {
    seq(LANES, l requires 0 <= l < LANES =>
      assert !Missing(c, want)[l];
      c.data[Lookup(c.tags, want[l], 0)])
  }

  /** All four textures are needed if any of the four pixels is. */
  predicate Stalls(sh: Shader, c: Cache, v: Vars)
    requires Shape(c)
  {
    true in Mask(v) && true in Missing(c, sh.ids(v))
  }

  function DrawQuad(sh: Shader, c: Cache, v: Vars, current: Quad): Quad
    requires Shape(c) && !Stalls(sh, c, v)
  {
    if true in Mask(v) then Select(Mask(v), current, sh.colour(v, Found(c, sh.ids(v)))) else current
  }

  /** Done; or stalled, with the block's weights, quads left and position, and what to load. */
  datatype Outcome =
    | Done(tile: Tile)
    | Stalled(tile: Tile, A: V3, left: nat, ptr: nat, want: Want, missing: seq<bool>)

  function FillFrom(sh: Shader, tri: Tri, c: Cache, v: Vars, left: nat, ptr: nat, tile: Tile): (r: Outcome)
    requires Shape(c) && 0 < left && ptr + left == QUADS
    ensures r.Stalled? ==> 0 < r.left && r.ptr + r.left == QUADS && |r.missing| == LANES
    decreases left
  {
    if Stalls(sh, c, v) then Stalled(tile, v.A, left, ptr, sh.ids(v), Missing(c, sh.ids(v)))
    else
      var tile' := tile[ptr := DrawQuad(sh, c, v, tile[ptr])];
      if left == 1 then Done(tile') else FillFrom(sh, tri, c, Advance(tri, v, StepAt(tri, left)), left - 1, ptr + 1, tile')
  }

  /** A call of the fill: the variables are worked out from the block. */
  function Fill(sh: Shader, tri: Tri, c: Cache, A: V3, left: nat, ptr: nat, tile: Tile): (r: Outcome)
    requires Shape(c) && 0 < left && ptr + left == QUADS
    ensures r.Stalled? ==> 0 < r.left && r.ptr + r.left == QUADS && |r.missing| == LANES
  {
    FillFrom(sh, tri, c, Begin(tri, A), left, ptr, tile)
  }

  // ---- what is to be drawn ----

  /** A quad drawn from the textures themselves, without a cache. */
  function IdealQuad(sh: Shader, v: Vars, current: Quad): Quad {
    if true in Mask(v) then
      Select(Mask(v), current, sh.colour(v, seq(LANES, l requires 0 <= l < LANES => Pixels(sh.ids(v)[l]))))
    else current
  }

  /** The first n quads drawn, each with the weights at its own place. */
  function Ideal(sh: Shader, tri: Tri, A: V3, tile: Tile, n: nat): Tile
    requires n <= QUADS
  {
    seq(QUADS, q requires 0 <= q < QUADS => if q < n then IdealQuad(sh, Begin(tri, At(tri, A, q)), tile[q]) else tile[q])
  }

  lemma DrawQuadIsIdeal(sh: Shader, c: Cache, v: Vars, current: Quad)
    requires Shape(c) && Agrees(c) && !Stalls(sh, c, v)
    ensures DrawQuad(sh, c, v, current) == IdealQuad(sh, v, current)
  {
    if true in Mask(v) {
      var want := sh.ids(v);
      var found := Found(c, want);
      forall l | 0 <= l < LANES ensures found[l] == Pixels(want[l]) {
        assert !Missing(c, want)[l];
      }
      assert found == seq(LANES, l requires 0 <= l < LANES => Pixels(want[l]));
    }
  }

  /** How far the fill has got: everything a resumed call needs, and nothing else drawn. */
  ghost predicate Partly(sh: Shader, tri: Tri, A: V3, tile: Tile, r: Outcome) {
    match r
    case Done(drawn) => drawn == Ideal(sh, tri, A, tile, QUADS)
    case Stalled(drawn, a, left, ptr, want, missing) =>
      0 < left && ptr + left == QUADS && a == At(tri, A, ptr) && drawn == Ideal(sh, tri, A, tile, ptr)
  }

  lemma IdealNext(sh: Shader, tri: Tri, A: V3, tile: Tile, q: nat)
    requires q < QUADS
    ensures Ideal(sh, tri, A, tile, q)[q] == tile[q]
    ensures Ideal(sh, tri, A, tile, q + 1) ==
            Ideal(sh, tri, A, tile, q)[q := IdealQuad(sh, Begin(tri, At(tri, A, q)), tile[q])]
  {
    hide At, Begin, IdealQuad;
  }

  /** From any quad on, with any cache that agrees with its tags: the call draws what is to be
      drawn, up to the quad at which it stops. */
  lemma {:induction false} FillFromIsPart(sh: Shader, tri: Tri, c: Cache, A: V3, q: nat, tile: Tile)
    requires Shape(c) && Agrees(c) && q < QUADS
    ensures Partly(sh, tri, A, tile, Fill(sh, tri, c, At(tri, A, q), QUADS - q, q, Ideal(sh, tri, A, tile, q)))
    decreases QUADS - q
  {
    hide At, Advance, Begin, StepAt, IdealQuad, Ideal, Stalls, DrawQuad;
    var v := Begin(tri, At(tri, A, q));
    if !Stalls(sh, c, v) {
      DrawQuadIsIdeal(sh, c, v, tile[q]);
      IdealNext(sh, tri, A, tile, q);
      StepIsNext(tri, A, q);
      AdvanceIsBegin(tri, At(tri, A, q), StepAt(tri, QUADS - q));
      if q < QUADS - 1 {
        FillFromIsPart(sh, tri, c, A, q + 1, tile);
      }
    } else {
      assert v.A == At(tri, A, q) by { BeginKeeps(tri, At(tri, A, q)); }
    }
  }

  lemma BeginKeeps(tri: Tri, A: V3)
    ensures Begin(tri, A).A == A
  {
  }
}
