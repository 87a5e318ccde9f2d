/** A tile's fill over all its stalls: whatever the caches it meets on the way it draws the same
    tile, and with one active block it stalls at most four times at a quad, so it ends. */
module TextureStalls {
  import opened Interpolation
  import opened TextureCache
  import opened CyclicReplacement
  import opened TextureFill

  // ---- any number of stalls ----

  /** The outcome so far, and the triangle's count of blocks in use. */
  datatype Progress = Progress(outcome: Outcome, count: int)

  /** One call, on a stalled block; a block that is done is not called again. */
  function Call(sh: Shader, tri: Tri, c: Cache, p: Progress): Progress
    requires Shape(c)
    requires p.outcome.Stalled? ==> 0 < p.outcome.left && p.outcome.ptr + p.outcome.left == QUADS
  {
    match p.outcome
    case Done(_) => p
    case Stalled(tile, A, left, ptr, _, _) =>
      var r := Fill(sh, tri, c, A, left, ptr, tile);
      Progress(r, if r.Done? then p.count - 1 else p.count)
  }

  /** The block as the producer leaves it: all quads to do. */
  function Fresh(tile: Tile, A: V3, count: int): Progress {
    Progress(Stalled(tile, A, QUADS, 0, BLANK_WANT, [false, false, false, false]), count)
  }

  /** The calls that a block gets, each with the cache as it is at the time. */
  ghost function Calls(sh: Shader, tri: Tri, A: V3, tile: Tile, count: int, caches: seq<Cache>): (p: Progress)
    requires forall i :: 0 <= i < |caches| ==> Shape(caches[i]) && Agrees(caches[i])
    ensures Partly(sh, tri, A, tile, p.outcome)
    decreases |caches|
  {
    if caches == [] then
      FreshIsPart(sh, tri, A, tile, count);
      Fresh(tile, A, count)
    else
      var p := Calls(sh, tri, A, tile, count, caches[..|caches| - 1]);
      if p.outcome.Stalled? then FillFromIsPart(sh, tri, caches[|caches| - 1], A, p.outcome.ptr, tile); Call(sh, tri, caches[|caches| - 1], p)
      else p
  }

  lemma FreshIsPart(sh: Shader, tri: Tri, A: V3, tile: Tile, count: int)
    ensures Partly(sh, tri, A, tile, Fresh(tile, A, count).outcome)
  {
    assert Ideal(sh, tri, A, tile, 0) == tile;
  }

  /** However often and wherever the fill stalls, and whatever is in the caches, what is drawn is
      the tile that one uninterrupted pass over the 256 quads draws, and the triangle's count goes
      down once, at the end. */
  lemma {:induction false} StallsDoNotShow(sh: Shader, tri: Tri, A: V3, tile: Tile, count: int, caches: seq<Cache>)
    requires forall i :: 0 <= i < |caches| ==> Shape(caches[i]) && Agrees(caches[i])
    ensures var p := Calls(sh, tri, A, tile, count, caches);
            match p.outcome
            case Done(drawn) => drawn == Ideal(sh, tri, A, tile, QUADS) && p.count == count - 1
            case Stalled(drawn, _, left, ptr, _, _) => drawn == Ideal(sh, tri, A, tile, ptr) && p.count == count
    decreases |caches|
  {
    hide Ideal, Fill;
    if caches != [] {
      StallsDoNotShow(sh, tri, A, tile, count, caches[..|caches| - 1]);
    }
  }

  // ---- stalls at one quad ----

  ghost function IsRecent(c: Cache, want: Want, m: nat): (r: seq<bool>)
    requires Shape(c)
    ensures |r| == LANES
  {
    seq(LANES, l requires 0 <= l < LANES => Recent(c, want[l], m))
  }

  lemma RecentIsFound(c: Cache, want: Want, m: nat, l: nat)
    requires Shape(c) && l < LANES && Recent(c, want[l], m)
    ensures !Missing(c, want)[l]
  {
  }

  /** What the fill and the loader do together at a quad: load until nothing is missing. */
  ghost function Retried(c: Cache, want: Want, n: nat): (r: Cache)
    requires Settled(c)
    ensures Settled(r)
  {
    if n == 0 then c
    else
      var d := Retried(c, want, n - 1);
      if true in Missing(d, want) then
        ReloadIsSettled(d, want);
        Reload(d, want, Missing(d, want))
      else d
  }

  lemma ReloadIsSettled(c: Cache, want: Want)
    requires Settled(c)
    ensures Settled(Reload(c, want, Missing(c, want)))
  {
    ReloadKeepsRecent(c, want, Missing(c, want), 0);
  }

  lemma {:induction false} CountGrows(p: seq<bool>, q: seq<bool>, i: nat, l: nat)
    requires |p| == |q| == LANES && i <= l < LANES && !p[l] && q[l]
    requires forall j :: 0 <= j < LANES && p[j] ==> q[j]
    ensures CountMissing(p, i) < CountMissing(q, i)
    decreases LANES - i
  {
    CountKept(p, q, i + 1);
    if i < l {
      CountGrows(p, q, i + 1, l);
    }
  }

  lemma {:induction false} CountKept(p: seq<bool>, q: seq<bool>, i: nat)
    requires |p| == |q| == LANES && i <= LANES
    requires forall j :: 0 <= j < LANES && p[j] ==> q[j]
    ensures CountMissing(p, i) <= CountMissing(q, i)
    decreases LANES - i
  {
    if i < LANES {
      CountKept(p, q, i + 1);
    }
  }

  lemma {:induction false} CountAll(p: seq<bool>, i: nat, l: nat)
    requires |p| == LANES && i <= l < LANES && CountMissing(p, i) == LANES - i
    ensures p[l]
    decreases LANES - i
  {
    if i < l {
      CountAll(p, i + 1, l);
    }
  }

  /** Each stall makes one more of the four textures recent. */
  ghost predicate Gathered(c: Cache, want: Want, n: nat)
    requires Shape(c)
  {
    CountMissing(IsRecent(c, want, 4 * n), 0) >= n
  }

  lemma RecentLonger(c: Cache, id: Id, m: nat, n: nat)
    requires Shape(c) && m <= n && Recent(c, id, m)
    ensures Recent(c, id, n)
  {
  }

  lemma StallGathers(c: Cache, want: Want, n: nat)
    requires Settled(c) && n < LANES && Gathered(c, want, n) && true in Missing(c, want)
    ensures Settled(Reload(c, want, Missing(c, want))) && Gathered(Reload(c, want, Missing(c, want)), want, n + 1)
  {
    var missing := Missing(c, want);
    ReloadKeepsRecent(c, want, missing, 4 * n);
    hide Reload, Missing, Settled, Recent;
    var r := Reload(c, want, missing);
    var m := CountMissing(missing, 0) + 4 * n;
    assert Shape(r) by { SettledHasShape(r); }
    assert Shape(c) by { SettledHasShape(c); }
    var p, q := IsRecent(c, want, 4 * n), IsRecent(r, want, 4 * (n + 1));
    forall l | 0 <= l < LANES && (p[l] || missing[l]) ensures q[l] {
      RecentLonger(r, want[l], m, 4 * (n + 1));
    }
    var l :| 0 <= l < LANES && missing[l];
    assert !p[l] by {
      if p[l] {
        RecentIsFound(c, want, 4 * n, l);
      }
    }
    CountGrows(p, q, 0, l);
  }

  lemma SettledHasShape(c: Cache)
    requires Settled(c)
    ensures Shape(c)
  {
  }

  lemma SettledAgrees(c: Cache)
    requires Settled(c)
    ensures Shape(c) && Agrees(c)
  {
  }

  lemma AllGathered(c: Cache, want: Want)
    requires Settled(c) && Gathered(c, want, LANES)
    ensures true !in Missing(c, want)
  {
    var p := IsRecent(c, want, 4 * LANES);
    forall l: nat | l < LANES ensures !Missing(c, want)[l] {
      CountAll(p, 0, l);
      RecentIsFound(c, want, 4 * LANES, l);
    }
  }

  /** A quad draws after at most four stalls. */
  lemma FourStallsSuffice(c: Cache, want: Want)
    requires Settled(c)
    ensures true !in Missing(Retried(c, want, LANES), want)
  {
    RetriedGathers(c, want, LANES);
    var d := Retried(c, want, LANES);
    if true in Missing(d, want) {
      AllGathered(d, want);
    }
  }

  lemma {:induction false} RetriedGathers(c: Cache, want: Want, n: nat)
    requires Settled(c) && n <= LANES
    ensures true in Missing(Retried(c, want, n), want) ==> Gathered(Retried(c, want, n), want, n)
  {
    if n > 0 {
      RetriedGathers(c, want, n - 1);
      var d := Retried(c, want, n - 1);
      if true in Missing(d, want) {
        StallGathers(d, want, n - 1);
      }
    }
  }

  // ---- the whole tile ----

  /** The fill with at most n stalls, each followed by its load. */
  ghost function Drive(sh: Shader, tri: Tri, c: Cache, A: V3, left: nat, ptr: nat, tile: Tile, n: nat): Outcome
    requires Settled(c) && 0 < left && ptr + left == QUADS
    decreases n
  {
    var r := Fill(sh, tri, c, A, left, ptr, tile);
    if r.Done? || n == 0 then r
    else
      StallWants(sh, tri, c, A, left, ptr, tile);
      ReloadIsSettled(c, r.want);
      Drive(sh, tri, Reload(c, r.want, r.missing), r.A, r.left, r.ptr, r.tile, n - 1)
  }

  /** A fill stalls because something is missing that a pixel inside needs, not before the quad it was
      called for, and a new call would want the same. */
  lemma {:induction false} StallWants(sh: Shader, tri: Tri, c: Cache, A: V3, left: nat, ptr: nat, tile: Tile)
    requires Shape(c) && 0 < left && ptr + left == QUADS
    ensures var r := Fill(sh, tri, c, A, left, ptr, tile);
            r.Stalled? ==>
              && r.missing == Missing(c, r.want) && true in r.missing && r.left <= left
              && r.want == sh.ids(Begin(tri, r.A)) && (r.left == left ==> r.A == A) && true in Mask(Begin(tri, r.A))
    decreases left
  {
    hide Begin, Advance, Missing, StepAt, DrawQuad, Mask;
    BeginKeeps(tri, A);
    var v := Begin(tri, A);
    if !Stalls(sh, c, v) && left > 1 {
      var d := StepAt(tri, left);
      AdvanceIsBegin(tri, A, d);
      StallWants(sh, tri, c, Plus(A, d), left - 1, ptr + 1, tile[ptr := DrawQuad(sh, c, v, tile[ptr])]);
    }
  }

  /** One more stall: either at the same quad, or the first at a later one. */
  lemma StallCounts(sh: Shader, tri: Tri, c: Cache, A: V3, left: nat, ptr: nat, tile: Tile, j: nat) returns (i: nat)
    requires Settled(c) && 0 < left && ptr + left == QUADS && j <= LANES
    requires Gathered(c, sh.ids(Begin(tri, A)), j)
    requires Fill(sh, tri, c, A, left, ptr, tile).Stalled?
    ensures var r := Fill(sh, tri, c, A, left, ptr, tile);
            && i <= LANES && 4 * r.left - i < 4 * left - j && r.missing == Missing(c, r.want)
            && Settled(Reload(c, r.want, r.missing))
            && Gathered(Reload(c, r.want, r.missing), sh.ids(Begin(tri, r.A)), i)
  {
    hide Gathered, Missing, Reload, Settled, Begin, Fill, Mask;
    SettledHasShape(c);
    StallWants(sh, tri, c, A, left, ptr, tile);
    var r := Fill(sh, tri, c, A, left, ptr, tile);
    hide Shape;
    if r.left < left {
      NothingGathered(c, r.want);
      OneMore(c, r.want, 0);
      i := 1;
    } else {
      OneMore(c, r.want, j);
      i := j + 1;
    }
  }

  /** While something is missing, not all four have been gathered, and a load gathers one more. */
  lemma OneMore(c: Cache, want: Want, j: nat)
    requires Settled(c) && j <= LANES && Shape(c) && Gathered(c, want, j) && true in Missing(c, want)
    ensures j < LANES && Settled(Reload(c, want, Missing(c, want))) && Gathered(Reload(c, want, Missing(c, want)), want, j + 1)
  {
    hide Gathered, Missing, Reload, Settled, Shape;
    if j == LANES {
      AllGathered(c, want);
      assert false;
    }
    StallGathers(c, want, j);
  }

  /** n stalls are enough when j of the four textures of this quad have been gathered. */
  lemma {:induction false} DriveFinishes(sh: Shader, tri: Tri, c: Cache, A: V3, left: nat, ptr: nat, tile: Tile, n: nat, j: nat)
    requires Settled(c) && 0 < left && ptr + left == QUADS && j <= LANES && n + j >= 4 * left
    requires Gathered(c, sh.ids(Begin(tri, A)), j)
    ensures Drive(sh, tri, c, A, left, ptr, tile, n).Done?
    decreases n
  {
    hide Gathered, Missing, Reload, Settled, Begin, Fill;
    SettledHasShape(c);
    var r := Fill(sh, tri, c, A, left, ptr, tile);
    if r.Stalled? {
      var i := StallCounts(sh, tri, c, A, left, ptr, tile, j);
      DriveFinishes(sh, tri, Reload(c, r.want, r.missing), r.A, r.left, r.ptr, r.tile, n - 1, i);
    }
  }

  lemma NothingGathered(c: Cache, want: Want)
    requires Settled(c)
    ensures Shape(c) && Gathered(c, want, 0)
  {
  }

  /** With one active block, the fill of a tile ends after at most four stalls a quad, whatever
      was in the cache, and then has drawn what is to be drawn. */
  lemma FillTerminates(sh: Shader, tri: Tri, c: Cache, A: V3, tile: Tile)
    requires Settled(c)
    ensures Drive(sh, tri, c, A, QUADS, 0, tile, 4 * QUADS) == Done(Ideal(sh, tri, A, tile, QUADS))
  {
    hide Ideal, Drive, Settled, Gathered;
    NothingGathered(c, sh.ids(Begin(tri, A)));
    DriveFinishes(sh, tri, c, A, QUADS, 0, tile, 4 * QUADS, 0);
    FreshIsPart(sh, tri, A, tile, 0);
    DriveIsPart(sh, tri, c, A, 0, tile, 4 * QUADS);
  }

  lemma {:induction false} DriveIsPart(sh: Shader, tri: Tri, c: Cache, A: V3, q: nat, tile: Tile, n: nat)
    requires Settled(c) && q < QUADS
    ensures Partly(sh, tri, A, tile, Drive(sh, tri, c, At(tri, A, q), QUADS - q, q, Ideal(sh, tri, A, tile, q), n))
    decreases n
  {
    hide Ideal, At, Reload, Settled, Begin, Missing, Fill;
    SettledHasShape(c);
    assert Agrees(c) by { SettledAgrees(c); }
    FillFromIsPart(sh, tri, c, A, q, tile);
    var r := Fill(sh, tri, c, At(tri, A, q), QUADS - q, q, Ideal(sh, tri, A, tile, q));
    if r.Stalled? && n > 0 {
      StallWants(sh, tri, c, At(tri, A, q), QUADS - q, q, Ideal(sh, tri, A, tile, q));
      ReloadIsSettled(c, r.want);
      DriveIsPart(sh, tri, Reload(c, r.want, r.missing), A, r.ptr, tile, n - 1);
    }
  }
}
