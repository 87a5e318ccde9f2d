/** The texture cache and the texture fill as the SPU runs them: registers and fields updated in
    place, loops left early. */
module TextureUnit {
  import opened Masks
  import opened Interpolation
  import opened TextureCache
  import opened TextureFill

  class Unit {
    var tags: seq<Id>
    var data: seq<Content>
    var free: set<nat>
    var last: nat
    var flights: seq<Flight>

    function View(): Cache
      reads this
    {
      Cache(tags, data, free, last, flights)
    }

    constructor (n: nat)
      ensures View() == Init(n)
    {
      tags, data, free, last := Blank(), seq(MAPS, k => Unknown), Below(MAPS), 0;
      flights := seq(n, a => Flight(false, Blank(), {}));
    }

    /** Starts the loads that active block a waits for. `room` says, lane by lane, whether the DMA
        queue has room when it is asked. */
    method LoadMissingTextures(a: nat, want: seq<Id>, missing: seq<bool>, room: seq<bool>)
      requires Shape(View()) && a < |flights| && |want| == |missing| == |room| == LANES
      modifies this
      ensures View() == LoadMissing(old(View()), a, want, missing, room)
    {
      hide NextSlot;
      var merge: seq<Id>, mask: set<nat> := Blank(), {};
      var i := 0;
      ghost var goal := LoadLanes(View(), NoFlight(), want, missing, room, 0);
      while i < LANES && free != {}
        invariant i <= LANES && |merge| == MAPS && Shape(View()) && flights == old(flights)
        invariant goal == LoadLanes(View(), Flight(true, merge, mask), want, missing, room, i)
      {
        if missing[i] {
          var next := NextSlot(free, last);
          tags := tags[next := NONE];
          merge := merge[next := want[i]];
          if !room[i] {
            break;
          }
          data := data[next := Unknown];
          free := free - {next};
          last := next;
          mask := mask + {next};
        }
        i := i + 1;
      }
      flights := flights[a := Flight(true, merge, mask)];
    }

    /** Called when the transfers of active block a are complete. */
    method FinishTextureLoad(a: nat)
      requires Shape(View()) && a < |flights| && forall k :: k in flights[a].mask ==> k < MAPS
      modifies this
      ensures View() == FinishLoad(old(View()), a)
    {
      var f, t, d := flights[a], tags, data;
      tags := seq(MAPS, k requires 0 <= k < MAPS => t[k] & f.merge[k]);
      data := seq(MAPS, k requires 0 <= k < MAPS => if k in f.mask then Pixels(f.merge[k]) else d[k]);
      free := free + f.mask;
      flights := flights[a := f.(loading := false, mask := {})];
      assert tags == FinishLoad(old(View()), a).tags && data == FinishLoad(old(View()), a).data;
    }
  }

  /** A block with its triangle's count, and the tile that it is drawn into. */
  class Filler {
    const sh: Shader
    const tri: Tri
    const tile: array<Quad>
    var A: V3
    var left: nat
    var pixels: nat
    var count: int

    constructor (sh: Shader, tri: Tri, tile: array<Quad>, A: V3, count: int)
      ensures this.sh == sh && this.tri == tri && this.tile == tile
      ensures this.A == A && left == QUADS && pixels == 0 && this.count == count
    {
      this.sh, this.tri, this.tile, this.A, this.count := sh, tri, tile, A, count;
      left, pixels := QUADS, 0;
    }

    /** Draws quad after quad; stops at the first whose textures are not all there, leaving the
        block so that the next call takes up at this quad. */
    method Fill(textures: Unit) returns (stalled: bool, want: Want, missing: seq<bool>)
      requires Shape(textures.View()) && tile.Length == QUADS && 0 < left && pixels + left == QUADS
      modifies this, tile
      ensures var r := TextureFill.Fill(sh, tri, textures.View(), old(A), old(left), old(pixels), old(tile[..]));
              && tile[..] == r.tile && stalled == r.Stalled?
              && match r
                 case Done(_) => count == old(count) - 1
                 case Stalled(_, a, l, p, w, m) => A == a && left == l && pixels == p && want == w && missing == m && count == old(count)
    {
      hide Advance, Begin, Select, Mask, Found, Missing;
      var c := textures.View();
      var v := Begin(tri, A);
      var n, ptr := left, pixels;
      want, missing := BLANK_WANT, [];
      ghost var goal := FillFrom(sh, tri, c, v, n, ptr, tile[..]);
      while n > 0
        invariant ptr + n == QUADS && A == old(A) && left == old(left) && pixels == old(pixels) && count == old(count)
        invariant if n == 0 then goal == Done(tile[..]) else goal == FillFrom(sh, tri, c, v, n, ptr, tile[..])
      {
        ghost var before := tile[..];
        if true in Mask(v) {
          want := sh.ids(v);
          missing := Missing(c, want);
          if true in missing {
            A, left, pixels := v.A, n, ptr;
            return true, want, missing;
          }
          tile[ptr] := Select(Mask(v), tile[ptr], sh.colour(v, Found(c, want)));
        }
        assert !Stalls(sh, c, v) && tile[..] == before[ptr := DrawQuad(sh, c, v, before[ptr])];
        v := Advance(tri, v, if n % 8 == 1 then ToNextRow(tri) else AcrossQuad(tri));
        ptr := ptr + 1;
        n := n - 1;
      }
      count := count - 1;
      stalled := false;
    }
  }
}
