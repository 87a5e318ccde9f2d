/** The 16-slot texture cache: slots are replaced in cyclic order while several active blocks
    may have loads under way. A slot's tag is the id of the block in it, all ones for none. */
module TextureCache {
  import opened Masks

  const MAPS: nat := 16
  const LANES: nat := 4

  type Id = bv16
  const NONE: Id := 0xFFFF

  /** What a slot's memory holds: some block's pixels, or a transfer in progress. */
  datatype Content = Unknown | Pixels(id: Id)

  /** The merge vectors and the mask an active block keeps for its loads. */
  datatype Flight = Flight(loading: bool, merge: seq<Id>, mask: set<nat>)

  datatype Cache = Cache(tags: seq<Id>, data: seq<Content>, free: set<nat>, last: nat, flights: seq<Flight>)

  function Blank(): seq<Id> {
    seq(MAPS, k => NONE)
  }

  /** init_texture_cache, with n active blocks. */
  function Init(n: nat): Cache {
    Cache(Blank(), seq(MAPS, k => Unknown), Below(MAPS), 0, seq(n, a => Flight(false, Blank(), {})))
  }

  ghost predicate Shape(c: Cache) {
    && |c.tags| == |c.data| == MAPS && c.last < MAPS && (forall k :: k in c.free ==> k < MAPS)
    && forall a :: 0 <= a < |c.flights| ==> |c.flights[a].merge| == MAPS
  }

  // ---- lookup ----

  /** The lowest slot from k on that has the tag, or 32: count-leading-zeros of the gathered
      comparison masks. */
  function Lookup(tags: seq<Id>, id: Id, k: nat): (r: nat)
    requires |tags| == MAPS && k <= MAPS
    ensures r == 32 || (k <= r < MAPS && tags[r] == id && forall j :: k <= j < r ==> tags[j] != id)
    ensures r == 32 <==> forall j :: k <= j < MAPS ==> tags[j] != id
    decreases MAPS - k
  {
    if k == MAPS then 32 else if tags[k] == id then k else Lookup(tags, id, k + 1)
  }

  /** Which of the four lanes' blocks the lookup does not find. */
  function Missing(c: Cache, want: seq<Id>): (r: seq<bool>)
    requires Shape(c) && |want| == LANES
    ensures |r| == LANES
  {
    seq(LANES, l requires 0 <= l < LANES => Lookup(c.tags, want[l], 0) == 32)
  }

  // ---- loadMissingTextures ----

  /** The next slot: going down from the last one loaded, then round from the top. */
  function NextSlot(free: set<nat>, last: nat): (r: nat)
    requires last < MAPS && free != {} && forall k :: k in free ==> k < MAPS
    ensures r < MAPS && r in free
  {
    assert exists k :: k in free && k < MAPS by { var k :| k in free; }
    var below := HighestBelow(free, last);
    if below < 0 then HighestBelow(free, MAPS) else below
  }

  /** The slot is evicted and announced as holding `want`. */
  function Claim(c: Cache, f: Flight, want: Id): (r: (Cache, Flight))
    requires Shape(c) && c.free != {} && |f.merge| == MAPS
    ensures Shape(r.0) && |r.1.merge| == MAPS && r.0.flights == c.flights
  {
    var next := NextSlot(c.free, c.last);
    (c.(tags := c.tags[next := NONE]), f.(merge := f.merge[next := want]))
  }

  /** ...and the transfer of the block into it is queued. */
  function Transfer(c: Cache, f: Flight, want: Id): (r: (Cache, Flight))
    requires Shape(c) && c.free != {} && |f.merge| == MAPS
    ensures Shape(r.0) && |r.1.merge| == MAPS && r.0.flights == c.flights
  {
    var next := NextSlot(c.free, c.last);
    var (d, g) := Claim(c, f, want);
    (d.(data := c.data[next := Unknown], free := c.free - {next}, last := next),
     g.(mask := f.mask + {next}))
  }

  /** The lanes from i on: `missing` says which need their block, `room` whether the DMA queue
      has room when their turn comes. When it has none, loading stops behind the eviction. */
  function LoadLanes(c: Cache, f: Flight, want: seq<Id>, missing: seq<bool>, room: seq<bool>, i: nat): (r: (Cache, Flight))
    requires Shape(c) && |f.merge| == MAPS && |want| == |missing| == |room| == LANES && i <= LANES
    ensures Shape(r.0) && |r.1.merge| == MAPS && r.0.flights == c.flights
    decreases LANES - i
  {
    if i == LANES || c.free == {} then (c, f)
    else if !missing[i] then LoadLanes(c, f, want, missing, room, i + 1)
    else if !room[i] then Claim(c, f, want[i])
    else
      var (d, g) := Transfer(c, f, want[i]);
      LoadLanes(d, g, want, missing, room, i + 1)
  }

  /** The lane at which loading meets a full DMA queue, or 4. */
  function BlockedLane(c: Cache, f: Flight, want: seq<Id>, missing: seq<bool>, room: seq<bool>, i: nat): (r: nat)
    requires Shape(c) && |f.merge| == MAPS && |want| == |missing| == |room| == LANES && i <= LANES
    ensures r <= LANES
    decreases LANES - i
  {
    if i == LANES || c.free == {} then LANES
    else if !missing[i] then BlockedLane(c, f, want, missing, room, i + 1)
    else if !room[i] then i
    else var (d, g) := Transfer(c, f, want[i]); BlockedLane(d, g, want, missing, room, i + 1)
  }

  /** What an active block starts with: no slots, and a merge vector that keeps all tags. */
  function NoFlight(): Flight {
    Flight(true, Blank(), {})
  }

  /** The DMA queue has room for every block that is asked for. */
  predicate QueueHasRoom(c: Cache, want: seq<Id>, missing: seq<bool>, room: seq<bool>)
    requires Shape(c) && |want| == |missing| == |room| == LANES
  {
    BlockedLane(c, NoFlight(), want, missing, room, 0) == LANES
  }

  function LoadMissing(c: Cache, a: nat, want: seq<Id>, missing: seq<bool>, room: seq<bool>): (r: Cache)
    requires Shape(c) && a < |c.flights| && |want| == |missing| == |room| == LANES
    ensures Shape(r) && |r.flights| == |c.flights|
  {
    var (d, f) := LoadLanes(c, NoFlight(), want, missing, room, 0);
    d.(flights := d.flights[a := f])
  }

  // ---- finishTextureLoad ----

  /** The bitwise AND that merges the tags. */
  function Both(a: Id, b: Id): Id {
    a & b
  }

  /** Called when the transfers of active block a have completed. */
  function FinishLoad(c: Cache, a: nat): (r: Cache)
    requires Shape(c) && a < |c.flights| && forall k :: k in c.flights[a].mask ==> k < MAPS
    ensures Shape(r) && |r.flights| == |c.flights|
  {
    var f := c.flights[a];
    c.(tags := seq(MAPS, k requires 0 <= k < MAPS => Both(c.tags[k], f.merge[k])),
       data := seq(MAPS, k requires 0 <= k < MAPS => if k in f.mask then Pixels(f.merge[k]) else c.data[k]),
       free := c.free + f.mask,
       flights := c.flights[a := f.(loading := false, mask := {})])
  }

  // ---- the invariant ----

  /** A slot with a tag holds the block that the tag names. */
  ghost predicate Agrees(c: Cache)
    requires Shape(c)
  {
    forall k :: 0 <= k < MAPS && c.tags[k] != NONE ==> c.data[k] == Pixels(c.tags[k])
  }

  /** And the other way round: what a slot is known to hold is what its tag names. Together they
      say that no slot holds a block that the lookup would not find there. */
  ghost predicate Honest(c: Cache)
    requires Shape(c)
  {
    forall k :: 0 <= k < MAPS && c.data[k].Pixels? ==> c.tags[k] == c.data[k].id
  }

  /** Slots under transfer have no tag and are not free; the merge vector names exactly them. */
  ghost predicate FlightOk(c: Cache, f: Flight)
    requires Shape(c) && |f.merge| == MAPS
  {
    && (forall k :: k in f.mask ==> k < MAPS && k !in c.free && c.tags[k] == NONE && f.merge[k] != NONE)
    && (f.loading ==> forall k :: 0 <= k < MAPS && k !in f.mask ==> f.merge[k] == NONE)
    && (!f.loading ==> f.mask == {})
  }

  ghost predicate Inv(c: Cache) {
    && Shape(c) && Agrees(c) && Honest(c)
    && (forall a :: 0 <= a < |c.flights| ==> FlightOk(c, c.flights[a]))
    && (forall a, b :: 0 <= a < b < |c.flights| ==> c.flights[a].mask !! c.flights[b].mask)
    && (forall k: nat :: k < MAPS ==> k in c.free || exists a :: 0 <= a < |c.flights| && k in c.flights[a].mask)
  }

  lemma InitInv(n: nat)
    ensures Inv(Init(n))
  {
  }

  /** What loading lanes does to a flight that is being put together: its own slots and the free
      ones trade places, and nobody else notices. */
  ghost predicate Loading(c: Cache, f: Flight, d: Cache, g: Flight)
    requires Shape(c) && Shape(d) && |f.merge| == |g.merge| == MAPS
  {
    && d.flights == c.flights && g.loading == f.loading && f.mask <= g.mask
    && d.free + g.mask == c.free + f.mask && g.mask - f.mask <= c.free
    && FlightOk(d, g) && Agrees(d)
    && (forall k :: k in g.mask - f.mask ==> d.data[k] == Unknown)
    && forall k :: 0 <= k < MAPS && k !in g.mask - f.mask ==>
         d.tags[k] == c.tags[k] && d.data[k] == c.data[k] && g.merge[k] == f.merge[k]
  }

  lemma TransferLoads(c: Cache, f: Flight, want: Id)
    requires Shape(c) && c.free != {} && |f.merge| == MAPS && want != NONE
    requires Agrees(c) && FlightOk(c, f) && f.loading
    ensures var (d, g) := Transfer(c, f, want); Loading(c, f, d, g)
  {
  }

  lemma LoadingOn(c: Cache, f: Flight, d: Cache, g: Flight, e: Cache, h: Flight)
    requires Shape(c) && Shape(d) && Shape(e) && |f.merge| == |g.merge| == |h.merge| == MAPS
    requires Loading(c, f, d, g) && Loading(d, g, e, h)
    ensures Loading(c, f, e, h)
  {
    hide FlightOk, Agrees;
  }

  lemma LoadingNothing(c: Cache, f: Flight)
    requires Shape(c) && |f.merge| == MAPS && Agrees(c) && FlightOk(c, f)
    ensures Loading(c, f, c, f)
  {
    hide FlightOk, Agrees;
  }

  lemma LoadingIsOk(c: Cache, f: Flight, d: Cache, g: Flight)
    requires Shape(c) && Shape(d) && |f.merge| == |g.merge| == MAPS && Loading(c, f, d, g)
    ensures Agrees(d) && FlightOk(d, g) && g.loading == f.loading
  {
  }

  /** The DMA queue had room for every lane that was reached. */
  lemma {:induction false} LanesLoad(c: Cache, f: Flight, want: seq<Id>, missing: seq<bool>, room: seq<bool>, i: nat)
    requires Shape(c) && |f.merge| == MAPS && |want| == |missing| == |room| == LANES && i <= LANES
    requires Agrees(c) && FlightOk(c, f) && f.loading
    requires forall l :: 0 <= l < LANES ==> want[l] != NONE
    requires BlockedLane(c, f, want, missing, room, i) == LANES
    ensures var (d, g) := LoadLanes(c, f, want, missing, room, i); Loading(c, f, d, g)
    decreases LANES - i
  {
    hide Loading, Transfer, Agrees, FlightOk, NextSlot;
    if i == LANES || c.free == {} {
      LoadingNothing(c, f);
    } else if missing[i] {
      TransferLoads(c, f, want[i]);
      var (d, g) := Transfer(c, f, want[i]);
      LoadingIsOk(c, f, d, g);
      LanesLoad(d, g, want, missing, room, i + 1);
      var (e, h) := LoadLanes(d, g, want, missing, room, i + 1);
      LoadingOn(c, f, d, g, e, h);
    } else {
      LanesLoad(c, f, want, missing, room, i + 1);
    }
  }

  lemma {:induction false} RoomForAll(c: Cache, f: Flight, want: seq<Id>, missing: seq<bool>, room: seq<bool>, i: nat)
    requires Shape(c) && |f.merge| == MAPS && |want| == |missing| == |room| == LANES && i <= LANES
    requires forall l :: 0 <= l < LANES ==> room[l]
    ensures BlockedLane(c, f, want, missing, room, i) == LANES
    decreases LANES - i
  {
    hide Transfer;
    if i < LANES && c.free != {} {
      if missing[i] {
        var (d, g) := Transfer(c, f, want[i]);
        RoomForAll(d, g, want, missing, room, i + 1);
      } else {
        RoomForAll(c, f, want, missing, room, i + 1);
      }
    }
  }

  lemma LoadKeeps(c: Cache, a: nat, want: seq<Id>, missing: seq<bool>, room: seq<bool>)
    requires Inv(c) && a < |c.flights| && !c.flights[a].loading && |want| == |missing| == |room| == LANES
    requires (forall l :: 0 <= l < LANES ==> want[l] != NONE) && QueueHasRoom(c, want, missing, room)
    ensures Inv(LoadMissing(c, a, want, missing, room))
  {
    var f := NoFlight();
    LanesLoad(c, f, want, missing, room, 0);
    var (d, g) := LoadLanes(c, f, want, missing, room, 0);
    FlightLoaded(c, a, d, g);
  }

  lemma FlightLoaded(c: Cache, a: nat, d: Cache, g: Flight)
    requires Inv(c) && a < |c.flights| && !c.flights[a].loading && Shape(d) && |g.merge| == MAPS && g.loading
    requires Loading(c, NoFlight(), d, g)
    ensures Inv(d.(flights := d.flights[a := g]))
  {
    var r := d.(flights := d.flights[a := g]);
    forall b | 0 <= b < |r.flights| ensures FlightOk(r, r.flights[b]) && (b != a ==> r.flights[b].mask !! g.mask) {
      if b != a {
        assert FlightOk(c, c.flights[b]);
      } else {
        assert FlightOk(d, g);
      }
    }
    forall k: nat | k < MAPS ensures k in r.free || exists b :: 0 <= b < |r.flights| && k in r.flights[b].mask {
      if k !in c.free {
        var b :| 0 <= b < |c.flights| && k in c.flights[b].mask;
        assert FlightOk(c, c.flights[b]);
        assert b != a && k in r.flights[b].mask;
      } else if k !in r.free {
        assert k in r.flights[a].mask;
      }
    }
  }

  lemma AndNone(x: Id)
    ensures Both(x, NONE) == x && Both(NONE, x) == x
  {
  }

  /** The AND-merge tags exactly the loaded slots and leaves all others alone. */
  lemma FinishTags(c: Cache, a: nat)
    requires Inv(c) && a < |c.flights| && c.flights[a].loading
    ensures forall k :: 0 <= k < MAPS ==>
              FinishLoad(c, a).tags[k] == if k in c.flights[a].mask then c.flights[a].merge[k] else c.tags[k]
  {
    var f := c.flights[a];
    assert FlightOk(c, f);
    hide Both;
    forall k | 0 <= k < MAPS ensures FinishLoad(c, a).tags[k] == if k in f.mask then f.merge[k] else c.tags[k] {
      AndNone(c.tags[k]);
      AndNone(f.merge[k]);
    }
  }

  lemma FinishKeeps(c: Cache, a: nat)
    requires Inv(c) && a < |c.flights| && c.flights[a].loading
    ensures Inv(FinishLoad(c, a))
  {
    FinishTags(c, a);
    assert FlightOk(c, c.flights[a]);
    FinishFlights(c, a);
    FinishSlots(c, a);
    hide FlightOk;
  }

  lemma FinishFlights(c: Cache, a: nat)
    requires Inv(c) && a < |c.flights| && c.flights[a].loading && FlightOk(c, c.flights[a])
    ensures forall b :: 0 <= b < |c.flights| ==> FlightOk(FinishLoad(c, a), FinishLoad(c, a).flights[b])
  {
    FinishTags(c, a);
    var r := FinishLoad(c, a);
    forall b | 0 <= b < |r.flights| ensures FlightOk(r, r.flights[b]) {
      assert FlightOk(c, c.flights[b]);
    }
  }

  lemma FinishSlots(c: Cache, a: nat)
    requires Inv(c) && a < |c.flights| && c.flights[a].loading && FlightOk(c, c.flights[a])
    ensures var r := FinishLoad(c, a);
            forall k: nat :: k < MAPS ==> k in r.free || exists b :: 0 <= b < |r.flights| && k in r.flights[b].mask
  {
    var r := FinishLoad(c, a);
    var f := c.flights[a];
    hide Agrees, FlightOk;
    forall k: nat | k < MAPS ensures k in r.free || exists b :: 0 <= b < |r.flights| && k in r.flights[b].mask {
      if k !in c.free && k !in f.mask {
        var b :| 0 <= b < |c.flights| && k in c.flights[b].mask;
        assert k in r.flights[b].mask;
      }
    }
  }
}
