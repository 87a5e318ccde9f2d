/** Runs of several active blocks over one texture cache, and what a full DMA queue does to it. */
module TextureRuns {
  import opened Masks
  import opened TextureCache

  /** An active block loads what its lookup has not found; `room` says, lane by lane, whether the
      DMA queue has room when it is asked. */
  datatype Event =
    | Loads(a: nat, want: seq<Id>, room: seq<bool>)
    | Finishes(a: nat)

  /** An active block loads when it has no load under way, and finishes one that it has. */
  predicate Possible(c: Cache, e: Event) {
    match e
    case Loads(a, want, room) =>
      a < |c.flights| && !c.flights[a].loading && |want| == |room| == LANES
      && forall l :: 0 <= l < LANES ==> want[l] != NONE
    case Finishes(a) => a < |c.flights| && c.flights[a].loading
  }

  ghost predicate Sound(c: Cache) {
    Shape(c) && forall a :: 0 <= a < |c.flights| ==> InMaps(c.flights[a].mask)
  }

  ghost predicate InMaps(mask: set<nat>) {
    forall k :: k in mask ==> k < MAPS
  }

  lemma {:induction false} LanesInMaps(c: Cache, f: Flight, want: seq<Id>, missing: seq<bool>, room: seq<bool>, i: nat)
    requires Shape(c) && |f.merge| == MAPS && |want| == |missing| == |room| == LANES && i <= LANES && InMaps(f.mask)
    ensures InMaps(LoadLanes(c, f, want, missing, room, i).1.mask)
    decreases LANES - i
  {
    hide NextSlot;
    if i < LANES && c.free != {} {
      if !missing[i] {
        LanesInMaps(c, f, want, missing, room, i + 1);
      } else if room[i] {
        var (d, g) := Transfer(c, f, want[i]);
        LanesInMaps(d, g, want, missing, room, i + 1);
      }
    }
  }

  ghost function Step(c: Cache, e: Event): (r: Cache)
    requires Sound(c) && Possible(c, e)
    ensures Sound(r) && |r.flights| == |c.flights|
  {
    match e
    case Loads(a, want, room) =>
      LanesInMaps(c, NoFlight(), want, Missing(c, want), room, 0);
      LoadMissing(c, a, want, Missing(c, want), room)
    case Finishes(a) =>
      assert InMaps(c.flights[a].mask);
      FinishLoad(c, a)
  }

  /** The cache after a run, with n active blocks; an event that is not possible when its turn comes
      is skipped. */
  ghost function After(n: nat, run: seq<Event>): (r: Cache)
    ensures Sound(r) && |r.flights| == n
    decreases |run|
  {
    if run == [] then Init(n)
    else
      var c := After(n, run[..|run| - 1]);
      if Possible(c, run[|run| - 1]) then Step(c, run[|run| - 1]) else c
  }

  /** A load that meets a full DMA queue. */
  ghost predicate Blocked(c: Cache, e: Event)
    requires Shape(c)
  {
    e.Loads? && Possible(c, e) && !QueueHasRoom(c, e.want, Missing(c, e.want), e.room)
  }

  /** No load of the run does. */
  ghost predicate Smooth(n: nat, run: seq<Event>)
    decreases |run|
  {
    run != [] ==>
      Smooth(n, run[..|run| - 1]) && !Blocked(After(n, run[..|run| - 1]), run[|run| - 1])
  }

  lemma {:induction false} SmoothKeeps(n: nat, run: seq<Event>)
    requires Smooth(n, run)
    ensures Inv(After(n, run))
    decreases |run|
  {
    hide Inv;
    if run == [] {
      InitInv(n);
    } else {
      SmoothKeeps(n, run[..|run| - 1]);
      var c, e := After(n, run[..|run| - 1]), run[|run| - 1];
      if Possible(c, e) {
        hide Smooth, After;
        match e
        case Loads(a, want, room) => LoadKeeps(c, a, want, Missing(c, want), room);
        case Finishes(a) => FinishKeeps(c, a);
      }
    }
  }

  /** In every such run a lookup that finds a slot finds the block's own pixels; slots under transfer
      are never found, never free, and belong to one active block each. */
  lemma FoundIsRight(n: nat, run: seq<Event>, id: Id)
    requires id != NONE
    ensures var c := After(n, run);
            var k := Lookup(c.tags, id, 0);
            Smooth(n, run) ==>
              && (k != 32 ==> c.data[k] == Pixels(id) && forall a :: 0 <= a < n ==> k !in c.flights[a].mask)
              && (forall a :: 0 <= a < n ==> c.flights[a].mask !! c.free)
              && (forall a, b :: 0 <= a < b < n ==> c.flights[a].mask !! c.flights[b].mask)
  {
    var c := After(n, run);
    if Smooth(n, run) {
      SmoothKeeps(n, run);
      forall a | 0 <= a < n ensures FlightOk(c, c.flights[a]) { }
    }
  }

  // ---- a full DMA queue ----

  /** Up to the full queue everything loads as usual; then one slot is claimed and no more. */
  lemma {:induction false} BlockedLoad(c: Cache, f: Flight, want: seq<Id>, missing: seq<bool>, room: seq<bool>, i: nat)
    returns (d: Cache, g: Flight)
    requires Shape(c) && |f.merge| == MAPS && |want| == |missing| == |room| == LANES && i <= LANES
    requires Agrees(c) && FlightOk(c, f) && f.loading && forall l :: 0 <= l < LANES ==> want[l] != NONE
    requires BlockedLane(c, f, want, missing, room, i) < LANES
    ensures Shape(d) && |g.merge| == MAPS && Loading(c, f, d, g) && d.free != {} && d.free <= c.free
    ensures missing[BlockedLane(c, f, want, missing, room, i)]
    ensures LoadLanes(c, f, want, missing, room, i) == Claim(d, g, want[BlockedLane(c, f, want, missing, room, i)])
    decreases LANES - i
  {
    hide Loading, Transfer, Claim, Agrees, FlightOk, NextSlot;
    if !missing[i] {
      d, g := BlockedLoad(c, f, want, missing, room, i + 1);
    } else if !room[i] {
      d, g := c, f;
      LoadingNothing(c, f);
    } else {
      TransferLoads(c, f, want[i]);
      var (e, h) := Transfer(c, f, want[i]);
      LoadingIsOk(c, f, e, h);
      TransferTakes(c, f, want[i]);
      d, g := BlockedLoad(e, h, want, missing, room, i + 1);
      LoadingOn(c, f, e, h, d, g);
    }
  }

  lemma TransferTakes(c: Cache, f: Flight, want: Id)
    requires Shape(c) && c.free != {} && |f.merge| == MAPS
    ensures Transfer(c, f, want).0.free <= c.free
  {
  }

  /** What the lookup did not find is nowhere: the slot that was claimed for it held something else. */
  lemma ClaimedHeldOther(c: Cache, d: Cache, g: Flight, want: Id, k: nat)
    requires Inv(c) && Shape(d) && |g.merge| == MAPS && Loading(c, NoFlight(), d, g) && k < MAPS && k in d.free && k in c.free
    requires Lookup(c.tags, want, 0) == 32
    ensures c.data[k] != Pixels(want)
  {
    assert Honest(c);
    assert c.tags[k] != want;
  }

  /** When a load meets a full DMA queue, the slot just claimed gets its tag at the next merge although
      nothing was transferred into it, and a lookup then takes it for the block. So the cache agrees
      with its tags when the load is finished exactly if the queue had room for it. */
  lemma FullQueueLies(c: Cache, a: nat, want: seq<Id>, room: seq<bool>)
    requires Inv(c) && Possible(c, Loads(a, want, room))
    ensures var d := LoadMissing(c, a, want, Missing(c, want), room);
            && InMaps(d.flights[a].mask)
            && (Agrees(FinishLoad(d, a)) <==> QueueHasRoom(c, want, Missing(c, want), room))
  {
    var missing := Missing(c, want);
    var d := LoadMissing(c, a, want, missing, room);
    LanesInMaps(c, NoFlight(), want, missing, room, 0);
    if QueueHasRoom(c, want, missing, room) {
      LoadKeeps(c, a, want, missing, room);
      LoadIsUnderWay(c, a, want, missing, room);
      hide QueueHasRoom, LoadMissing;
      FinishKeeps(d, a);
    } else {
      var k := BlockedLoadLies(c, a, want, room);
      hide QueueHasRoom, LoadMissing;
    }
  }

  lemma LoadIsUnderWay(c: Cache, a: nat, want: seq<Id>, missing: seq<bool>, room: seq<bool>)
    requires Inv(c) && a < |c.flights| && |want| == |missing| == |room| == LANES
    requires (forall l :: 0 <= l < LANES ==> want[l] != NONE) && QueueHasRoom(c, want, missing, room)
    ensures LoadMissing(c, a, want, missing, room).flights[a].loading
  {
    LanesLoad(c, NoFlight(), want, missing, room, 0);
  }

  /** The slot concerned: it has the tag of a block that it does not hold. */
  lemma BlockedLoadLies(c: Cache, a: nat, want: seq<Id>, room: seq<bool>) returns (k: nat)
    requires Inv(c) && Possible(c, Loads(a, want, room)) && !QueueHasRoom(c, want, Missing(c, want), room)
    ensures var d := LoadMissing(c, a, want, Missing(c, want), room);
            var l := BlockedLane(c, NoFlight(), want, Missing(c, want), room, 0);
            && l < LANES && InMaps(d.flights[a].mask)
            && var r := FinishLoad(d, a);
               && k < MAPS && k in c.free && r.tags[k] == want[l] && r.data[k] == c.data[k] != Pixels(want[l])
               && !Agrees(r) && Lookup(r.tags, want[l], 0) != 32
  {
    var missing := Missing(c, want);
    var l := BlockedLane(c, NoFlight(), want, missing, room, 0);
    hide BlockedLane, LoadLanes, Loading, Honest;
    FlightlessIsOk(c);
    var d, g := BlockedLoad(c, NoFlight(), want, missing, room, 0);
    NextIsFree(c, d);
    hide NextSlot, FlightOk;
    k := NextSlot(d.free, d.last);
    FinishClaimed(c, a, d, g, want[l]);
    ClaimedHeldOther(c, d, g, want[l], k);
  }

  lemma FlightlessIsOk(c: Cache)
    requires Inv(c)
    ensures Agrees(c) && FlightOk(c, NoFlight()) && NoFlight().loading
  {
  }

  lemma NextIsFree(c: Cache, d: Cache)
    requires Shape(d) && d.free != {} && d.free <= c.free
    ensures NextSlot(d.free, d.last) in d.free && NextSlot(d.free, d.last) in c.free && NextSlot(d.free, d.last) < MAPS
  {
  }

  /** At the end of a smooth run: the next load shows, when it is finished, exactly if it was blocked. */
  lemma FirstBlockedLoadShows(n: nat, run: seq<Event>, a: nat, want: seq<Id>, room: seq<bool>)
    requires Smooth(n, run)
    ensures Possible(After(n, run), Loads(a, want, room)) ==>
              (Agrees(After(n, run + [Loads(a, want, room)] + [Finishes(a)])) <==> Smooth(n, run + [Loads(a, want, room)]))
  {
    var c := After(n, run);
    var e := Loads(a, want, room);
    if Possible(c, e) {
      SmoothKeeps(n, run);
      FullQueueLies(c, a, want, room);
      var longer := run + [e];
      assert longer[..|run|] == run && (longer + [Finishes(a)])[..|longer|] == longer;
      LoadStarts(c, e);
      hide LoadMissing, Inv, Agrees, FinishLoad;
      assert After(n, longer) == Step(c, e);
    }
  }

  lemma LoadStarts(c: Cache, e: Event)
    requires Sound(c) && e.Loads? && Possible(c, e)
    ensures Step(c, e).flights[e.a].loading
  {
    LanesKeepLoading(c, NoFlight(), e.want, Missing(c, e.want), e.room, 0);
  }

  lemma {:induction false} LanesKeepLoading(c: Cache, f: Flight, want: seq<Id>, missing: seq<bool>, room: seq<bool>, i: nat)
    requires Shape(c) && |f.merge| == MAPS && |want| == |missing| == |room| == LANES && i <= LANES
    ensures LoadLanes(c, f, want, missing, room, i).1.loading == f.loading
    decreases LANES - i
  {
    hide NextSlot;
    if i < LANES && c.free != {} {
      if !missing[i] {
        LanesKeepLoading(c, f, want, missing, room, i + 1);
      } else if room[i] {
        var (d, g) := Transfer(c, f, want[i]);
        LanesKeepLoading(d, g, want, missing, room, i + 1);
      }
    }
  }

  /** The first load of all, with a DMA queue that is full from the start: block 5 is found in slot 15
      afterwards, into which nothing has been loaded. */
  lemma FullQueueExample()
    ensures var want: seq<Id>, room := [5, 6, 7, 8], [false, false, false, false];
            var c := After(1, [Loads(0, want, room), Finishes(0)]);
            Lookup(c.tags, 5, 0) == 15 && c.data[15] == Unknown && !Agrees(c)
  {
    var want: seq<Id>, room := [5, 6, 7, 8], [false, false, false, false];
    ExampleLoad(want, room);
    ExampleFinish();
    hide Agrees, Lookup, Step, Possible, Claimed15;
    AfterTwo(1, Loads(0, want, room), Finishes(0));
  }

  lemma AfterTwo(n: nat, e: Event, f: Event)
    ensures Possible(Init(n), e) && Possible(Step(Init(n), e), f) ==> After(n, [e, f]) == Step(Step(Init(n), e), f)
  {
    hide Init, Step, Possible;
    assert [e, f][..1] == [e] && [e][..0] == [];
    assert After(n, []) == Init(n);
    assert Possible(Init(n), e) ==> After(n, [e]) == Step(Init(n), e);
  }

  /** Slot 15 claimed for block 5, and nothing else. */
  function Claimed15(): Cache {
    Cache(Blank(), seq(MAPS, k => Unknown), Below(MAPS), 0, [Flight(true, Blank()[15 := 5], {})])
  }

  lemma ExampleLoad(want: seq<Id>, room: seq<bool>)
    requires want == [5, 6, 7, 8] && room == [false, false, false, false]
    ensures Possible(Init(1), Loads(0, want, room)) && Step(Init(1), Loads(0, want, room)) == Claimed15()
  {
    var c := Init(1);
    var missing := Missing(c, want);
    assert missing[0];
    assert c.free == Below(MAPS) && 15 in c.free && NextSlot(c.free, c.last) == 15;
    hide Lookup, NextSlot;
    var (d, f) := LoadLanes(c, NoFlight(), want, missing, room, 0);
    assert (d, f) == Claim(c, NoFlight(), 5);
    assert d.tags == Blank();
    assert d.flights[0 := f] == [f];
  }

  lemma ExampleFinish()
    ensures Sound(Claimed15()) && Possible(Claimed15(), Finishes(0))
    ensures var r := Step(Claimed15(), Finishes(0));
            Lookup(r.tags, 5, 0) == 15 && r.data[15] == Unknown && !Agrees(r)
  {
    var r := Step(Claimed15(), Finishes(0));
    ExampleTags();
    assert r.tags[15] == 5 && r.data[15] == Unknown;
    assert forall k :: 0 <= k < 15 ==> r.tags[k] == NONE;
  }

  lemma ExampleTags()
    ensures Both(NONE, NONE) == NONE && Both(NONE, 5) == 5
  {
  }

  lemma FinishClaimed(c: Cache, a: nat, d: Cache, g: Flight, want: Id)
    requires Inv(c) && a < |c.flights| && want != NONE
    requires Shape(d) && |g.merge| == MAPS && Loading(c, NoFlight(), d, g) && d.free != {} && d.free <= c.free
    ensures forall j :: j in Claim(d, g, want).1.mask ==> j < MAPS
    ensures var k := NextSlot(d.free, d.last);
            var (e, h) := Claim(d, g, want);
            var r := FinishLoad(e.(flights := e.flights[a := h]), a);
            && k in c.free && k < MAPS && r.tags[k] == want && r.data[k] == c.data[k]
            && (Agrees(r) <==> c.data[k] == Pixels(want))
  {
    hide NextSlot;
    var k := NextSlot(d.free, d.last);
    ClaimedTags(d, g, want, k);
    assert k in d.free && k !in g.mask;
    var (e, h) := Claim(d, g, want);
    var r := FinishLoad(e.(flights := e.flights[a := h]), a);
    assert r.data[k] == d.data[k] == c.data[k];
    assert Agrees(d) && Shape(r);
    hide Inv, Loading, FlightOk;
    MergedAgrees(d, g, r, want, k);
  }

  /** Whether a merge leaves the cache in agreement depends on the slot that was not loaded. */
  lemma MergedAgrees(d: Cache, g: Flight, r: Cache, want: Id, k: nat)
    requires Shape(d) && Shape(r) && |g.merge| == MAPS && Agrees(d) && want != NONE && k < MAPS && k !in g.mask
    requires forall j :: 0 <= j < MAPS ==> r.tags[j] == if j == k then want else if j in g.mask then g.merge[j] else d.tags[j]
    requires forall j :: 0 <= j < MAPS ==> r.data[j] == if j in g.mask then Pixels(g.merge[j]) else d.data[j]
    ensures Agrees(r) <==> r.data[k] == Pixels(want)
  {
  }

  lemma ClaimedTags(d: Cache, g: Flight, want: Id, k: nat)
    requires Shape(d) && |g.merge| == MAPS && FlightOk(d, g) && g.loading && d.free != {}
    requires k == NextSlot(d.free, d.last) && k in d.free
    ensures var (e, h) := Claim(d, g, want);
            forall j :: 0 <= j < MAPS ==>
              Both(e.tags[j], h.merge[j]) == if j == k then want else if j in g.mask then g.merge[j] else d.tags[j]
  {
    var (e, h) := Claim(d, g, want);
    assert k !in g.mask;
    forall j: nat | j < MAPS
      ensures Both(e.tags[j], h.merge[j]) == if j == k then want else if j in g.mask then g.merge[j] else d.tags[j]
    {
      assert j in g.mask ==> d.tags[j] == NONE;
      assert j !in g.mask ==> g.merge[j] == NONE;
      hide FlightOk, NextSlot, Both;
      AndNone(want);
      AndNone(g.merge[j]);
      AndNone(d.tags[j]);
    }
  }
}
