/** The hash 0xffff, which also marks unused table entries and which no producer should return: what
    happens to a block that has it, to the others, and what holds until there is one. */
module UnsetHash {
  import opened Masks
  import opened QueueState
  import opened HashChains
  import opened LineHeads
  import opened SerialOrder
  import opened TriangleRing
  import opened Scheduler
  import opened SchedulerRuns

  // ---- the block itself ----

  /** A block that has just been produced may start, or waits behind an unfinished block of its
      own hash, exactly when its hash is not 0xffff. */
  lemma {:induction false} NewBlockIsPlaced(s: State)
    requires Core(s) && s.free != {} && s.tris[s.nextRead].produce && s.tris[s.nextRead].jobs != []
    requires 0 <= s.tris[s.nextRead].jobs[0].hash <= EMPTY
    ensures Shape(Produce(s))
    ensures var r := Produce(s);
            var hash := s.tris[s.nextRead].jobs[0].hash;
            hash != EMPTY <==>
              (r.lastAdded in r.ready ||
               exists b: nat :: b < SLOTS && b !in s.free && s.log.labels[b].hash == hash && r.chained[b] == r.lastAdded)
  {
    hide HeadsRun, Logged, RingInv;
    TriangleRing.ProduceShape(s);
    var c := View(s);
    var idx := Pick(s.free, s.lastAdded);
    var hash := s.tris[s.nextRead].jobs[0].hash;
    assert Blank(c, idx);
    FreeIsNotReady(s, idx);
    if hash != EMPTY {
      TableLookup(c, hash);
      if hash in c.lines {
        var tail := c.lines[hash][|c.lines[hash]| - 1];
        assert Line(c, hash, c.lines[hash]);
        assert Produce(s).chained[tail] == idx && s.log.labels[tail].hash == hash;
      }
    } else {
      forall b: nat | b < SLOTS && b !in s.free ensures s.log.labels[b].hash != hash {
        assert Queued(c, b) && Line(c, c.labels[b].hash, c.lines[c.labels[b].hash]);
      }
    }
  }

  lemma {:induction false} FreeIsNotReady(s: State, b: nat)
    requires Core(s) && b in s.free
    ensures b !in s.ready
  {
    hide Logged, RingInv;
    if b in s.ready {
      HeadIsQueued(View(s), b);
    }
  }

  /** With nothing ready, nothing active and nothing to produce, calls change nothing. */
  lemma {:induction false} NothingHappens(s: State, completed: set<nat>)
    requires Sane(s) && s.ready == {} && !s.tris[s.nextRead].produce
    requires forall j :: 0 <= j < |s.active| ==> s.active[j] == EMPTY
    ensures ProcessQueue(s, completed, []) == s
  {
    AllIdleScan(s, completed, 0);
    assert ProduceAll(s) == s && GenerateAll(s, []) == s;
  }

  lemma {:induction false} AllIdleScan(s: State, completed: set<nat>, i: nat)
    requires Sane(s) && s.ready == {} && i <= |s.active|
    requires forall j :: 0 <= j < |s.active| ==> s.active[j] == EMPTY
    ensures Scan(s, completed, i) == s
    decreases |s.active| - i
  {
    if i < |s.active| {
      assert Visit(s, i) == s;
      AllIdleScan(s, completed, i + 1);
    }
  }

  /** One block with the hash 0xffff in a fresh queue: it is never started, whatever completes. */
  lemma {:induction false} UnsetHashDeadlocks(n: nat, completed: set<nat>)
    requires 1 <= n <= MAX_ACTIVE
    ensures var g := Generate(Init(n), [Job(EMPTY, 0)]);
            && g.free != {} && g.tris[g.nextRead].jobs != [] && Sane(Produce(g))
            && !AllDone(Produce(g)) && ProcessQueue(Produce(g), completed, []) == Produce(g)
  {
    var g := Generate(Init(n), [Job(EMPTY, 0)]);
    assert 0 in g.free;
    ProduceEmptyHash(g);
    NothingHappens(Produce(g), completed);
  }

  lemma {:induction false} ProduceEmptyHash(g: State)
    requires Sane(g) && 0 in g.free && g.ready == {} && g.table[0] == EMPTY
    requires g.tris[g.nextRead].jobs == [Job(EMPTY, 0)] && !g.tris[(g.nextRead + 1) % TRIS].produce
    ensures Sane(Produce(g)) && Produce(g).ready == {} && !AllDone(Produce(g))
    ensures Produce(g).active == g.active && !Produce(g).tris[Produce(g).nextRead].produce
  {
    TriangleRing.ProduceShape(g);
    assert LowestMatch(g.table, EMPTY, 0) == 0;
  }

  // ---- the others ----

  /** A block that is neither ready nor active, and that no finishing block will make ready. */
  ghost predicate Lost(s: State, b: nat)
    requires Shape(s)
  {
    Waiting(s, b) && forall a :: 0 <= a < SLOTS ==> s.chained[a] != b
  }

  /** The lowest slot without a table entry, to which a block with the hash 0xffff is chained. */
  function Unlisted(s: State): nat
    requires Shape(s)
  {
    LowestMatch(s.table, EMPTY, 0)
  }

  /** A slot without a table entry is free, or its block has a successor. */
  lemma {:induction false} UnlistedIsChained(s: State)
    requires Core(s) && s.free != {}
    ensures Unlisted(s) < SLOTS && (Unlisted(s) in s.free <==> s.chained[Unlisted(s)] < 0)
  {
    hide HeadsRun, Logged, RingInv;
    var c := View(s);
    var f :| f in s.free;
    assert f < SLOTS && Blank(c, f);
    var a := Unlisted(s);
    assert a <= f;
    if a !in s.free {
      assert Queued(c, a);
      var q := c.lines[c.labels[a].hash];
      assert Line(c, c.labels[a].hash, q);
      var k :| 0 <= k < |q| && q[k] == a;
      assert k < |q| - 1 && s.chained[q[k]] == q[k + 1];
    } else {
      assert Blank(c, a);
    }
  }

  /** Who follows a slot waits, and follows no other. */
  lemma {:induction false} FollowerWaits(s: State, a: nat)
    requires Core(s) && a < SLOTS && s.chained[a] >= 0
    ensures Waiting(s, s.chained[a]) && forall x :: 0 <= x < SLOTS && s.chained[x] == s.chained[a] ==> x == a
  {
    var h, k := ChainStep(s, a);
    NotHead(s, h, k + 1);
    hide Core, Waiting;
    forall x | 0 <= x < SLOTS && s.chained[x] == s.chained[a] ensures x == a {
      SameFollower(s, x, a);
    }
  }

  lemma {:induction false} SameFollower(s: State, a: nat, b: nat)
    requires Core(s) && a < SLOTS && b < SLOTS && s.chained[a] == s.chained[b] >= 0
    ensures a == b
  {
    hide Logged, RingInv, HeadsRun;
    var g, i := ChainStep(s, a);
    var h, j := ChainStep(s, b);
    assert Line(View(s), g, s.log.lines[g]) && Line(View(s), h, s.log.lines[h]);
  }

  lemma {:induction false} NotHead(s: State, h: int, k: nat)
    requires Core(s) && h in s.log.lines && 0 < k < |s.log.lines[h]|
    ensures s.log.lines[h][k] < SLOTS && Waiting(s, s.log.lines[h][k])
  {
    hide Logged, RingInv;
    var c := View(s);
    var q := c.lines[h];
    assert Line(c, h, q);
    var b := q[k];
    assert q[0] != b;
    assert !Head(c, b);
  }

  /** A block with the hash 0xffff takes another block's place in line, which then never has its turn,
      exactly if the lowest slot without a table entry is in use; the one that loses it is the one
      that followed there. Otherwise everyone keeps who follows him. */
  lemma {:induction false} UnsetHashTakesATurn(s: State)
    requires Core(s) && s.free != {} && s.tris[s.nextRead].produce && s.tris[s.nextRead].jobs != []
    requires s.tris[s.nextRead].jobs[0].hash == EMPTY
    ensures Shape(Produce(s))
    ensures var r := Produce(s);
            && ((exists b: nat :: Waiting(s, b) && Lost(r, b)) <==> Unlisted(s) !in s.free)
            && (Unlisted(s) !in s.free ==> s.chained[Unlisted(s)] >= 0 && Waiting(s, s.chained[Unlisted(s)]) && Lost(r, s.chained[Unlisted(s)]))
            && (Unlisted(s) in s.free ==> forall a :: 0 <= a < SLOTS && a !in s.free ==> r.chained[a] == s.chained[a])
  {
    TriangleRing.ProduceShape(s);
    UnlistedIsChained(s);
    hide Core, Lost, Waiting, ChainTable, Pick, LowestMatch;
    if Unlisted(s) !in s.free {
      FollowerWaits(s, Unlisted(s));
      LinkTaken(s);
    } else {
      LinksStay(s);
    }
  }

  lemma LinksStay(s: State)
    requires Core(s) && s.free != {} && s.tris[s.nextRead].jobs != []
    requires s.tris[s.nextRead].jobs[0].hash == EMPTY && Unlisted(s) < SLOTS && Unlisted(s) in s.free
    ensures Shape(Produce(s)) && forall b: nat :: Waiting(s, b) ==> !Lost(Produce(s), b)
    ensures forall a :: 0 <= a < SLOTS && a !in s.free ==> Produce(s).chained[a] == s.chained[a]
  {
    TriangleRing.ProduceShape(s);
    hide ChainTable, Pick, LowestMatch;
    forall b: nat | Waiting(s, b) ensures !Lost(Produce(s), b) {
      var x := Predecessor(s, b);
      hide Core;
      assert Produce(s).chained[x] == b;
    }
  }

  lemma LinkTaken(s: State)
    requires Shape(s) && s.free != {} && s.tris[s.nextRead].jobs != []
    requires s.tris[s.nextRead].jobs[0].hash == EMPTY && Unlisted(s) < SLOTS && s.chained[Unlisted(s)] >= 0
    requires Waiting(s, s.chained[Unlisted(s)])
    requires forall x :: 0 <= x < SLOTS && s.chained[x] == s.chained[Unlisted(s)] ==> x == Unlisted(s)
    ensures Shape(Produce(s)) && Lost(Produce(s), s.chained[Unlisted(s)])
  {
    TriangleRing.ProduceShape(s);
    assert Pick(s.free, s.lastAdded) in s.free && Pick(s.free, s.lastAdded) < SLOTS;
    hide ChainTable, Pick, LowestMatch;
  }

  /** Every waiting block follows some block that is not finished. */
  lemma {:induction false} Predecessor(s: State, b: nat) returns (x: nat)
    requires Core(s) && Waiting(s, b)
    ensures x < SLOTS && x !in s.free && s.chained[x] == b
  {
    hide Logged, RingInv;
    var c := View(s);
    assert Queued(c, b) && !Head(c, b);
    var q := c.lines[c.labels[b].hash];
    assert Line(c, c.labels[b].hash, q);
    var k :| 0 <= k < |q| && q[k] == b;
    x := q[k - 1];
    assert c.chained[q[k - 1]] == q[k];
  }

  // ---- for good ----

  /** A run of calls from any state. */
  ghost function RunFrom(s: State, calls: seq<Call>): (r: State)
    requires Sane(s) && AllTriangles(calls)
    ensures Sane(r) && |r.active| == |s.active|
  {
    if calls == [] then s
    else
      var last := calls[|calls| - 1];
      ProcessQueue(RunFrom(s, calls[..|calls| - 1]), last.completed, last.arrivals)
  }

  ghost predicate AllTriangles(calls: seq<Call>) {
    forall k :: 0 <= k < |calls| ==> Triangles(calls[k].arrivals)
  }

  lemma {:induction false} LostAfterStart(s: State, i: nat, b: nat, c: nat, handed: bool)
    requires Shape(s) && Lost(s, b) && i < |s.active| && s.active[i] == EMPTY && c in s.ready
    ensures c < SLOTS && Shape(Start(s, i, c, handed)) && Lost(Start(s, i, c, handed), b)
  {
  }

  lemma {:induction false} LostAfterFinish(s: State, i: nat, b: nat)
    requires Shape(s) && Lost(s, b) && i < |s.active| && s.active[i] != EMPTY
    ensures Shape(Finish(s, i)) && Lost(Finish(s, i), b)
  {
    assert s.active[i] in s.active;
  }

  lemma {:induction false} LostAfterStartNext(s: State, i: nat, b: nat)
    requires Sane(s) && Lost(s, b) && i < |s.active| && s.active[i] == EMPTY
    ensures Lost(StartNext(s, i), b)
  {
    hide Lost;
    var c := Pick(s.ready, s.lastStarted);
    if c >= 0 {
      LostAfterStart(s, i, b, c, false);
    }
  }

  lemma {:induction false} LostAfterVisit(s: State, i: nat, b: nat)
    requires Sane(s) && Lost(s, b) && i < |s.active|
    ensures Lost(Visit(s, i), b)
  {
    if s.active[i] == EMPTY {
      hide Lost;
      LostAfterStartNext(s, i, b);
    } else if s.blocks[s.active[i]].stalls == 0 {
      LostAfterFinish(s, i, b);
      hide Lost;
      var f, next := Finish(s, i), s.chained[s.active[i]];
      if next >= 0 {
        LostAfterStart(f, i, b, next, true);
      } else {
        LostAfterStartNext(f, i, b);
      }
    }
  }

  lemma {:induction false} LostAfterScan(s: State, completed: set<nat>, i: nat, b: nat)
    requires Sane(s) && Lost(s, b) && i <= |s.active|
    ensures Lost(Scan(s, completed, i), b)
    decreases |s.active| - i
  {
    hide Lost, Visit, Sane;
    if i < |s.active| {
      if i in completed {
        LostAfterVisit(s, i, b);
      }
      LostAfterScan(if i in completed then Visit(s, i) else s, completed, i + 1, b);
    }
  }

  lemma {:induction false} LostAfterProduce(s: State, b: nat)
    requires Sane(s) && Lost(s, b) && s.free != {} && s.tris[s.nextRead].jobs != []
    ensures Shape(Produce(s)) && Lost(Produce(s), b)
  {
    TriangleRing.ProduceShape(s);
  }

  lemma {:induction false} LostAfterProduceAll(s: State, b: nat)
    requires Sane(s) && Lost(s, b)
    ensures Lost(ProduceAll(s), b)
    decreases |s.free|
  {
    hide Lost, Produce;
    if s.free != {} && s.tris[s.nextRead].produce {
      TriangleRing.ProduceShape(s);
      LostAfterProduce(s, b);
      var r := ProduceAll(s);
      ProducedIsSane(s);
      LostAfterProduceAll(Produce(s), b);
    }
  }

  lemma {:induction false} LostAfterGenerateAll(s: State, arrivals: seq<seq<Job>>, b: nat)
    requires Sane(s) && Lost(s, b) && Triangles(arrivals)
    ensures Lost(GenerateAll(s, arrivals), b)
    decreases |arrivals|
  {
    if s.tris[s.nextWrite].count == 0 && arrivals != [] {
      assert Lost(Generate(s, arrivals[0]), b);
      hide Lost;
      LostAfterGenerateAll(Generate(s, arrivals[0]), arrivals[1..], b);
    }
  }

  /** Whatever completes and arrives: a block that has lost its turn is never ready, active or finished
      again. */
  lemma {:induction false} LostForGood(s: State, calls: seq<Call>, b: nat)
    requires Sane(s) && Lost(s, b) && AllTriangles(calls)
    ensures Lost(RunFrom(s, calls), b)
    decreases |calls|
  {
    if calls != [] {
      var front, last := calls[..|calls| - 1], calls[|calls| - 1];
      LostForGood(s, front, b);
      var r := RunFrom(s, front);
      hide Lost, Scan, ProduceAll, GenerateAll, Sane;
      LostAfterScan(r, last.completed, 0, b);
      LostAfterProduceAll(Scan(r, last.completed, 0), b);
      LostAfterGenerateAll(ProduceAll(Scan(r, last.completed, 0)), last.arrivals, b);
    }
  }

  // ---- until there is one ----

  ghost predicate Ranged(jobs: seq<Job>) {
    forall j :: 0 <= j < |jobs| ==> 0 <= jobs[j].hash <= EMPTY
  }

  /** Jobs to come may have any hash that a halfword can hold. */
  ghost predicate AnyHash(s: State)
    requires Shape(s)
  {
    forall t :: 0 <= t < TRIS ==> Ranged(s.tris[t].jobs)
  }

  ghost predicate RangedCalls(calls: seq<Call>) {
    AllTriangles(calls) && forall k :: 0 <= k < |calls| ==> RangedArrivals(calls[k].arrivals)
  }

  ghost predicate RangedArrivals(arrivals: seq<seq<Job>>) {
    forall i :: 0 <= i < |arrivals| ==> Ranged(arrivals[i])
  }

  /** None of the blocks produced so far has the hash 0xffff. */
  ghost predicate NoneUnset(made: seq<Job>) {
    forall j :: 0 <= j < |made| ==> made[j].hash != EMPTY
  }

  ghost predicate Fine(s: State) {
    Core(s) && AnyHash(s)
  }

  lemma {:induction false} VisitFine(s: State, i: nat)
    requires Fine(s) && Sane(s) && i < |s.active|
    ensures Fine(Visit(s, i)) && Visit(s, i).log.made == s.log.made
  {
    hide Represented, HeadsRun, Logged, RingInv;
    if s.active[i] == EMPTY {
      StartNextFine(s, i);
    } else if s.blocks[s.active[i]].stalls > 0 {
      StallCore(s, i);
    } else {
      FinishCore(s, i);
      if s.chained[s.active[i]] >= 0 {
        StartCore(Finish(s, i), i, s.chained[s.active[i]], true);
      } else {
        StartNextFine(Finish(s, i), i);
      }
    }
  }

  lemma {:induction false} StartNextFine(s: State, i: nat)
    requires Fine(s) && Sane(s) && i < |s.active| && s.active[i] == EMPTY
    ensures Fine(StartNext(s, i)) && StartNext(s, i).log.made == s.log.made
  {
    hide Represented, HeadsRun, Logged, RingInv;
    if Pick(s.ready, s.lastStarted) >= 0 {
      StartCore(s, i, Pick(s.ready, s.lastStarted), false);
    }
  }

  lemma {:induction false} ScanFine(s: State, completed: set<nat>, i: nat)
    requires Fine(s) && Sane(s) && i <= |s.active|
    ensures Fine(Scan(s, completed, i)) && Scan(s, completed, i).log.made == s.log.made
    decreases |s.active| - i
  {
    hide Fine, Visit, Sane;
    if i < |s.active| {
      if i in completed {
        VisitFine(s, i);
      }
      ScanFine(if i in completed then Visit(s, i) else s, completed, i + 1);
    }
  }

  lemma {:induction false} ProduceFine(s: State)
    requires Fine(s) && s.free != {} && s.tris[s.nextRead].produce
    ensures s.tris[s.nextRead].jobs != [] && Sane(Produce(s))
    ensures Produce(s).log.made == s.log.made + [s.tris[s.nextRead].jobs[0]]
    ensures s.tris[s.nextRead].jobs[0].hash != EMPTY ==> Fine(Produce(s))
  {
    hide Represented, HeadsRun, Logged, RingInv;
    ProduceCore(s);
    CoreIsSane(s);
    ProducedIsSane(s);
    assert Ranged(s.tris[s.nextRead].jobs);
  }

  lemma {:induction false} MadeGrows(s: State)
    requires Sane(s)
    ensures s.log.made <= ProduceAll(s).log.made
    decreases |s.free|
  {
    if s.free != {} && s.tris[s.nextRead].produce {
      ProducedIsSane(s);
      MadeGrows(Produce(s));
    }
  }

  lemma {:induction false} ProduceAllFine(s: State)
    requires Fine(s) && Sane(s) && NoneUnset(ProduceAll(s).log.made)
    ensures Fine(ProduceAll(s))
    decreases |s.free|
  {
    hide Fine, Produce;
    if s.free != {} && s.tris[s.nextRead].produce {
      ProduceFine(s);
      ProducedIsSane(s);
      var p := Produce(s);
      MadeGrows(p);
      assert p.log.made[|s.log.made|] == ProduceAll(s).log.made[|s.log.made|];
      ProduceAllFine(p);
    }
  }

  lemma {:induction false} GenerateAllFine(s: State, arrivals: seq<seq<Job>>)
    requires Fine(s) && Sane(s) && Triangles(arrivals) && RangedArrivals(arrivals)
    ensures Fine(GenerateAll(s, arrivals)) && GenerateAll(s, arrivals).log.made == s.log.made
    decreases |arrivals|
  {
    hide Represented, HeadsRun, Logged, RingInv;
    if s.tris[s.nextWrite].count == 0 && arrivals != [] {
      var g := Generate(s, arrivals[0]);
      GenerateCore(s, arrivals[0]);
      assert Ranged(arrivals[0]);
      hide Core;
      GenerateAllFine(g, arrivals[1..]);
    }
  }

  lemma {:induction false} CallFine(s: State, call: Call)
    requires Fine(s) && Sane(s) && Triangles(call.arrivals) && RangedArrivals(call.arrivals)
    requires NoneUnset(ProcessQueue(s, call.completed, call.arrivals).log.made)
    ensures Fine(ProcessQueue(s, call.completed, call.arrivals))
  {
    hide Fine, Scan, ProduceAll, GenerateAll, Sane;
    ScanFine(s, call.completed, 0);
    var p := ProduceAll(Scan(s, call.completed, 0));
    GenerateMade(p, call.arrivals);
    ProduceAllFine(Scan(s, call.completed, 0));
    GenerateAllFine(p, call.arrivals);
  }

  lemma {:induction false} GenerateMade(s: State, arrivals: seq<seq<Job>>)
    requires Sane(s) && Triangles(arrivals)
    ensures GenerateAll(s, arrivals).log.made == s.log.made
    decreases |arrivals|
  {
    if s.tris[s.nextWrite].count == 0 && arrivals != [] {
      GenerateMade(Generate(s, arrivals[0]), arrivals[1..]);
    }
  }

  lemma {:induction false} ScanMade(s: State, completed: set<nat>, i: nat)
    requires Sane(s) && i <= |s.active|
    ensures Scan(s, completed, i).log.made == s.log.made
    decreases |s.active| - i
  {
    if i < |s.active| {
      hide Start, Sane;
      assert Visit(s, i).log.made == s.log.made by { VisitMade(s, i); }
      hide Visit;
      ScanMade(if i in completed then Visit(s, i) else s, completed, i + 1);
    }
  }

  lemma VisitMade(s: State, i: nat)
    requires Sane(s) && i < |s.active|
    ensures Visit(s, i).log.made == s.log.made
  {
  }

  lemma {:induction false} CallMade(s: State, call: Call)
    requires Sane(s) && Triangles(call.arrivals)
    ensures s.log.made <= ProcessQueue(s, call.completed, call.arrivals).log.made
  {
    hide Scan, ProduceAll, GenerateAll, Sane;
    ScanMade(s, call.completed, 0);
    MadeGrows(Scan(s, call.completed, 0));
    GenerateMade(ProduceAll(Scan(s, call.completed, 0)), call.arrivals);
  }

  lemma {:induction false} RunIsFine(n: nat, calls: seq<Call>)
    requires 1 <= n <= MAX_ACTIVE && RangedCalls(calls)
    ensures Sane(Init(n)) && (NoneUnset(RunFrom(Init(n), calls).log.made) ==> Fine(RunFrom(Init(n), calls)))
    decreases |calls|
  {
    InitIsFine(n);
    hide Fine, Init, ProcessQueue, Sane;
    if calls != [] {
      var front, last := calls[..|calls| - 1], calls[|calls| - 1];
      RunIsFine(n, front);
      var s := RunFrom(Init(n), front);
      CallMade(s, last);
      if NoneUnset(RunFrom(Init(n), calls).log.made) {
        NoneUnsetBefore(s.log.made, RunFrom(Init(n), calls).log.made);
        CallFine(s, last);
      }
    }
  }

  lemma InitIsFine(n: nat)
    requires 1 <= n <= MAX_ACTIVE
    ensures Sane(Init(n)) && Fine(Init(n))
  {
    InitInv(n);
    InvIsSane(Init(n));
    hide Core;
  }

  lemma NoneUnsetBefore(made: seq<Job>, later: seq<Job>)
    requires made <= later && NoneUnset(later)
    ensures NoneUnset(made)
  {
    assert forall j :: 0 <= j < |made| ==> made[j] == later[j];
  }

  /** As long as no block with the hash 0xffff has been produced, blocks of a hash run one at a time in
      production order, whatever is still to come. */
  lemma {:induction false} SerialUntilUnset(n: nat, calls: seq<Call>, h: int)
    requires 1 <= n <= MAX_ACTIVE && RangedCalls(calls) && 0 <= h < EMPTY
    ensures Sane(Init(n))
    ensures var log := RunFrom(Init(n), calls).log;
            NoneUnset(log.made) ==> EventsOf(log.events, h) <= OneByOne(h, SerialsOf(log.made, h))
  {
    RunIsFine(n, calls);
    var s := RunFrom(Init(n), calls);
    if NoneUnset(s.log.made) {
      hide RunFrom, Init;
      assert LogInv(View(s), s.active, s.log.made, s.log.events, h);
      EventsArePrefix(View(s), s.active, s.log.made, s.log.events, h);
    }
  }
}
