/** With one active block and room in the DMA queue, slots are replaced strictly in turn, so a
    block that was loaded for a quad is still there when the quad is tried again. */
module CyclicReplacement {
  import opened Masks
  import opened TextureCache

  /** How many loads ago slot k was loaded, if slots are used in turn. */
  function Age(last: nat, k: nat): (r: nat)
    requires last < MAPS && k < MAPS
    ensures r < MAPS
  {
    if k >= last then k - last else k + MAPS - last
  }

  function CountMissing(missing: seq<bool>, i: nat): (r: nat)
    requires |missing| == LANES && i <= LANES
    ensures r <= LANES - i
    decreases LANES - i
  {
    if i == LANES then 0 else CountMissing(missing, i + 1) + if missing[i] then 1 else 0
  }

  /** In the middle of a load, the free slots are all but the m loaded last. */
  ghost predicate InTurn(c: Cache, m: nat)
    requires Shape(c)
  {
    forall k: nat :: k in c.free <==> k < MAPS && Age(c.last, k) >= m
  }

  lemma NextInTurn(c: Cache, m: nat)
    requires Shape(c) && InTurn(c, m) && m < MAPS
    ensures c.free != {} && NextSlot(c.free, c.last) == (c.last + MAPS - 1) % MAPS
  {
    var next := (c.last + MAPS - 1) % MAPS;
    assert Age(c.last, next) == MAPS - 1;
    assert next in c.free;
  }

  /** After n loads, what is younger than 16 - n is n older and untouched, and each lane that was
      missing has its block announced in one of the n youngest slots. */
  ghost predicate Turned(c: Cache, f: Flight, d: Cache, g: Flight, n: nat)
    requires Shape(c) && Shape(d) && |f.merge| == |g.merge| == MAPS
  {
    forall k: nat :: k < MAPS && Age(c.last, k) + n < MAPS ==>
      && Age(d.last, k) == Age(c.last, k) + n
      && d.tags[k] == c.tags[k] && g.merge[k] == f.merge[k] && (k in g.mask <==> k in f.mask)
  }

  ghost predicate Announced(d: Cache, g: Flight, id: Id, n: nat)
    requires Shape(d) && |g.merge| == MAPS
  {
    exists k: nat :: k < MAPS && Age(d.last, k) < n && k in g.mask && g.merge[k] == id
  }

  lemma OneTurn(c: Cache, f: Flight, want: Id, m: nat)
    requires Shape(c) && |f.merge| == MAPS && InTurn(c, m) && m < MAPS && c.free != {}
    ensures var (d, g) := Transfer(c, f, want);
            InTurn(d, m + 1) && Turned(c, f, d, g, 1) && Announced(d, g, want, 1)
  {
    NextInTurn(c, m);
    var (d, g) := Transfer(c, f, want);
    var next := (c.last + MAPS - 1) % MAPS;
    assert Age(d.last, next) == 0 && next in g.mask && g.merge[next] == want;
  }

  lemma TurnTwice(c: Cache, f: Flight, d: Cache, g: Flight, e: Cache, h: Flight, n: nat)
    requires Shape(c) && Shape(d) && Shape(e) && |f.merge| == |g.merge| == |h.merge| == MAPS
    requires Turned(c, f, d, g, 1) && Turned(d, g, e, h, n)
    ensures Turned(c, f, e, h, n + 1)
  {
  }

  lemma StillAnnounced(d: Cache, g: Flight, e: Cache, h: Flight, id: Id, n: nat)
    requires Shape(d) && Shape(e) && |g.merge| == |h.merge| == MAPS
    requires Announced(d, g, id, 1) && Turned(d, g, e, h, n) && n < MAPS - 1
    ensures Announced(e, h, id, n + 1)
  {
    var k: nat :| k < MAPS && Age(d.last, k) < 1 && k in g.mask && g.merge[k] == id;
    assert Age(e.last, k) == n;
  }

  /** What lanes i and up did to the cache: everything turned, and what was missing is announced. */
  ghost predicate AllTurned(c: Cache, f: Flight, d: Cache, g: Flight, want: seq<Id>, missing: seq<bool>, i: nat)
    requires Shape(c) && Shape(d) && |f.merge| == |g.merge| == MAPS && |want| == |missing| == LANES && i <= LANES
  {
    var n := CountMissing(missing, i);
    Turned(c, f, d, g, n) && forall l :: i <= l < LANES && missing[l] ==> Announced(d, g, want[l], n)
  }

  lemma {:induction false} LanesInTurn(c: Cache, f: Flight, want: seq<Id>, missing: seq<bool>, room: seq<bool>, i: nat, m: nat)
    requires Shape(c) && |f.merge| == MAPS && |want| == |missing| == |room| == LANES && i <= LANES
    requires InTurn(c, m) && m <= i && forall l :: 0 <= l < LANES ==> room[l]
    ensures var (d, g) := LoadLanes(c, f, want, missing, room, i); AllTurned(c, f, d, g, want, missing, i)
    decreases LANES - i
  {
    hide Transfer, NextSlot, InTurn, Turned, Announced;
    if i < LANES {
      NextInTurn(c, m);
      if missing[i] {
        OneTurn(c, f, want[i], m);
        var (d, g) := Transfer(c, f, want[i]);
        LanesInTurn(d, g, want, missing, room, i + 1, m + 1);
        var (e, h) := LoadLanes(d, g, want, missing, room, i + 1);
        LoadLanesStep(c, f, want, missing, room, i);
        TurnThenAll(c, f, d, g, e, h, want, missing, i);
      } else {
        hide AllTurned;
        LanesInTurn(c, f, want, missing, room, i + 1, m);
        var (e, h) := LoadLanes(c, f, want, missing, room, i + 1);
        SkipThenAll(c, f, e, h, want, missing, i);
      }
    } else {
      TurnNothing(c, f);
    }
  }

  lemma TurnNothing(c: Cache, f: Flight)
    requires Shape(c) && |f.merge| == MAPS
    ensures Turned(c, f, c, f, 0)
  {
  }

  lemma SkipThenAll(c: Cache, f: Flight, e: Cache, h: Flight, want: seq<Id>, missing: seq<bool>, i: nat)
    requires Shape(c) && Shape(e) && |f.merge| == |h.merge| == MAPS && |want| == |missing| == LANES && i < LANES
    requires !missing[i] && AllTurned(c, f, e, h, want, missing, i + 1)
    ensures AllTurned(c, f, e, h, want, missing, i)
  {
    hide Turned, Announced;
  }

  lemma TurnThenAll(c: Cache, f: Flight, d: Cache, g: Flight, e: Cache, h: Flight, want: seq<Id>, missing: seq<bool>, i: nat)
    requires Shape(c) && Shape(d) && Shape(e) && |f.merge| == |g.merge| == |h.merge| == MAPS
    requires |want| == |missing| == LANES && i < LANES && missing[i]
    requires Turned(c, f, d, g, 1) && Announced(d, g, want[i], 1) && AllTurned(d, g, e, h, want, missing, i + 1)
    ensures AllTurned(c, f, e, h, want, missing, i)
  {
    hide Turned, Announced;
    var n := CountMissing(missing, i + 1);
    TurnTwice(c, f, d, g, e, h, n);
    StillAnnounced(d, g, e, h, want[i], n);
    forall l | i + 1 <= l < LANES && missing[l] ensures Announced(e, h, want[l], n + 1) {
      AnnouncedLonger(e, h, want[l], n);
    }
  }

  lemma LoadLanesStep(c: Cache, f: Flight, want: seq<Id>, missing: seq<bool>, room: seq<bool>, i: nat)
    requires Shape(c) && |f.merge| == MAPS && |want| == |missing| == |room| == LANES && i < LANES
    requires c.free != {} && missing[i] && room[i]
    ensures LoadLanes(c, f, want, missing, room, i) ==
            LoadLanes(Transfer(c, f, want[i]).0, Transfer(c, f, want[i]).1, want, missing, room, i + 1)
  {
  }

  lemma AnnouncedLonger(d: Cache, g: Flight, id: Id, n: nat)
    requires Shape(d) && |g.merge| == MAPS && Announced(d, g, id, n)
    ensures Announced(d, g, id, n + 1)
  {
  }

  // ---- one active block ----

  /** Nothing under way: all slots are free. */
  ghost predicate Settled(c: Cache) {
    Inv(c) && |c.flights| == 1 && !c.flights[0].loading
  }

  lemma SettledIsInTurn(c: Cache)
    requires Settled(c)
    ensures InTurn(c, 0)
  {
    assert FlightOk(c, c.flights[0]);
    assert forall k: nat :: k < MAPS ==> k in c.free || k in c.flights[0].mask;
  }

  /** The block is in one of the n youngest slots. */
  ghost predicate Recent(c: Cache, id: Id, n: nat)
    requires Shape(c)
  {
    exists k: nat :: k < MAPS && Age(c.last, k) < n && c.tags[k] == id
  }

  /** A stall and its completed load. */
  function Reload(c: Cache, want: seq<Id>, missing: seq<bool>): Cache
    requires Settled(c) && |want| == |missing| == LANES && forall l :: 0 <= l < LANES ==> want[l] != NONE
  {
    var room := [true, true, true, true];
    RoomForAll(c, NoFlight(), want, missing, room, 0);
    LoadKeeps(c, 0, want, missing, room);
    var d := LoadMissing(c, 0, want, missing, room);
    assert FlightOk(d, d.flights[0]);
    FinishLoad(d, 0)
  }

  /** r is e with the merge vector of g applied. */
  ghost predicate Merged(e: Cache, g: Flight, r: Cache)
    requires Shape(e) && Shape(r) && |g.merge| == MAPS
  {
    r.last == e.last && forall k :: 0 <= k < MAPS ==> r.tags[k] == if k in g.mask then g.merge[k] else e.tags[k]
  }

  lemma LoadIsLoading(c: Cache, want: seq<Id>, missing: seq<bool>, room: seq<bool>)
    requires Inv(c) && |c.flights| == 1 && !c.flights[0].loading && |want| == |missing| == |room| == LANES
    requires forall l :: 0 <= l < LANES ==> want[l] != NONE && room[l]
    ensures LoadMissing(c, 0, want, missing, room).flights[0].loading
  {
    RoomForAll(c, NoFlight(), want, missing, room, 0);
    LanesLoad(c, NoFlight(), want, missing, room, 0);
  }

  lemma MissingIsRecent(e: Cache, g: Flight, r: Cache, c: Cache, want: seq<Id>, missing: seq<bool>, n: nat, m: nat)
    requires Shape(c) && Shape(e) && Shape(r) && |g.merge| == MAPS && |want| == |missing| == LANES
    requires Merged(e, g, r) && n == CountMissing(missing, 0)
    requires AllTurned(c, NoFlight(), e, g, want, missing, 0)
    ensures forall l :: 0 <= l < LANES && missing[l] ==> Recent(r, want[l], n + m)
  {
    forall l | 0 <= l < LANES && missing[l] ensures Recent(r, want[l], n + m) {
      assert Announced(e, g, want[l], n);
      hide AllTurned, CountMissing;
      var k: nat :| k < MAPS && Age(e.last, k) < n && k in g.mask && g.merge[k] == want[l];
      assert r.tags[k] == want[l];
    }
  }

  lemma RecentStays(c: Cache, e: Cache, g: Flight, r: Cache, want: seq<Id>, missing: seq<bool>, id: Id, n: nat, m: nat)
    requires Shape(c) && Shape(e) && Shape(r) && |g.merge| == MAPS && |want| == |missing| == LANES
    requires Merged(e, g, r) && n == CountMissing(missing, 0) && n + m <= MAPS
    requires AllTurned(c, NoFlight(), e, g, want, missing, 0) && Recent(c, id, m)
    ensures Recent(r, id, n + m)
  {
    assert Turned(c, NoFlight(), e, g, n);
    hide AllTurned, CountMissing;
    var k: nat :| k < MAPS && Age(c.last, k) < m && c.tags[k] == id;
    assert Age(e.last, k) == Age(c.last, k) + n && r.tags[k] == id;
  }

  lemma ReloadMerges(c: Cache, want: seq<Id>, missing: seq<bool>, room: seq<bool>)
    requires Settled(c) && |want| == |missing| == LANES && forall l :: 0 <= l < LANES ==> want[l] != NONE
    requires room == [true, true, true, true]
    ensures Settled(Reload(c, want, missing))
    ensures var (e, g) := LoadLanes(c, NoFlight(), want, missing, room, 0);
            Merged(e, g, Reload(c, want, missing))
  {
    hide LoadLanes, NextSlot;
    RoomForAll(c, NoFlight(), want, missing, room, 0);
    LoadKeeps(c, 0, want, missing, room);
    LoadIsLoading(c, want, missing, room);
    var d := LoadMissing(c, 0, want, missing, room);
    FinishKeeps(d, 0);
    FinishTags(d, 0);
  }

  lemma ReloadTurns(c: Cache, want: seq<Id>, missing: seq<bool>) returns (e: Cache, g: Flight)
    requires Settled(c) && |want| == |missing| == LANES && forall l :: 0 <= l < LANES ==> want[l] != NONE
    ensures Settled(Reload(c, want, missing)) && Shape(e) && |g.merge| == MAPS
    ensures Merged(e, g, Reload(c, want, missing))
    ensures AllTurned(c, NoFlight(), e, g, want, missing, 0)
  {
    var room := [true, true, true, true];
    hide LoadLanes, AllTurned, Merged, Reload, Agrees, FlightOk;
    ReloadMerges(c, want, missing, room);
    SettledIsInTurn(c);
    hide InTurn;
    LanesInTurn(c, NoFlight(), want, missing, room, 0, 0);
    var r := LoadLanes(c, NoFlight(), want, missing, room, 0);
    e, g := r.0, r.1;
  }

  /** What was missing is there afterwards, what was loaded a little earlier is still there. */
  lemma ReloadKeepsRecent(c: Cache, want: seq<Id>, missing: seq<bool>, m: nat)
    requires Settled(c) && |want| == |missing| == LANES && forall l :: 0 <= l < LANES ==> want[l] != NONE
    requires m + CountMissing(missing, 0) <= MAPS
    ensures Settled(Reload(c, want, missing))
    ensures forall l :: 0 <= l < LANES && missing[l] ==> Recent(Reload(c, want, missing), want[l], CountMissing(missing, 0) + m)
    ensures forall id :: id != NONE && Recent(c, id, m) ==> Recent(Reload(c, want, missing), id, CountMissing(missing, 0) + m)
  {
    hide LoadLanes, AllTurned, CountMissing, Recent, Merged, Reload, Agrees, FlightOk;
    var n := CountMissing(missing, 0);
    var e, g := ReloadTurns(c, want, missing);
    var r := Reload(c, want, missing);
    MissingIsRecent(e, g, r, c, want, missing, n, m);
    forall id | id != NONE && Recent(c, id, m) ensures Recent(r, id, n + m) {
      RecentStays(c, e, g, r, want, missing, id, n, m);
    }
  }
}
